/**
 * The feedback loop end to end: simulated payments are observed, the metrics
 * are computed over them, and the adaptive threshold is updated from those
 * metrics.
 */
module Feedback {
  import opened Agent
  import opened Simulator
  import opened Adaptive

  /** When no stored status is one of the two literals, nothing is counted as success or failure. */
  lemma {:induction false} NothingRecognized(signals: seq<Signal>)
    requires forall i :: 0 <= i < |signals| ==> !Recognized(signals[i].status)
    ensures CountUnrecognized(signals) == |signals|
    ensures MetricsOf(signals).successCount == 0 && MetricsOf(signals).failureCount == 0
    ensures MetricsOf(signals).successRate == 0.0 && MetricsOf(signals).failureRate == 0.0
  {
    if signals != [] {
      var init := signals[..|signals| - 1];
      assert forall i :: 0 <= i < |init| ==> init[i] == signals[i];
      NothingRecognized(init);
    }
    CountPartition(signals);
  }

  /** The success rate the metrics dictionary carries under "success_rate". */
  lemma DictSuccessRate(m: Metrics)
    ensures SuccessRateOf(m.AsDict()) == m.successRate
  {
    assert "success_rate" in m.AsDict();
  }

  /** Over a history with no literal status, the adaptive policy reads a success rate of 0 and tightens. */
  lemma UnrecognizedHistoryTightens(signals: seq<Signal>, t: real)
    requires forall i :: 0 <= i < |signals| ==> !Recognized(signals[i].status)
    ensures Step(t, SuccessRateOf(MetricsOf(signals).AsDict())) == t * 0.95
  {
    NothingRecognized(signals);
    DictSuccessRate(MetricsOf(signals));
  }

  /** Every payment of a generated batch stores the enum's qualified name as its status. */
  lemma BatchStatusesUnrecognized(start: nat, scs: seq<Scenario>, p: Pools, draws: seq<Draws>,
                                  clock: seq<real>, batch: seq<Signal>)
    requires |clock| == |draws| && AllDrawsFit(draws, p, |scs|) && |batch| <= |draws|
    requires Produced(batch, NthPayment(start, scs, p, draws, clock))
    ensures forall k :: 0 <= k < |batch| ==> !Recognized(batch[k].status)
  {
    forall k | 0 <= k < |batch|
      ensures !Recognized(batch[k].status)
    {
      ProducedAt(batch, NthPayment(start, scs, p, draws, clock), k);
      NthPaymentAt(start, scs, p, draws, clock, k);
      GeneratedStatusUnrecognized(start + k + 1, scs, p, draws[k], clock[k]);
    }
  }

  /**
   * So the observer's metrics over a generated batch count no success and no
   * failure, and the adaptive policy fed those metrics multiplies its
   * threshold by 0.95, whatever the scenarios and the draws.
   */
  lemma SimulatedHistoryTightens(start: nat, scs: seq<Scenario>, p: Pools, draws: seq<Draws>,
                                 clock: seq<real>, batch: seq<Signal>, t: real)
    requires |clock| == |draws| && AllDrawsFit(draws, p, |scs|) && |batch| <= |draws|
    requires Produced(batch, NthPayment(start, scs, p, draws, clock))
    ensures MetricsOf(batch).successCount == 0 && MetricsOf(batch).failureCount == 0
    ensures Step(t, SuccessRateOf(MetricsOf(batch).AsDict())) == t * 0.95
  {
    BatchStatusesUnrecognized(start, scs, p, draws, clock, batch);
    NothingRecognized(batch);
    UnrecognizedHistoryTightens(batch, t);
  }
}
