/**
 * The payment signal record, the observer that retains signals and the metrics
 * it aggregates over them, and the agent that owns both (core/agent.py).
 */
module Agent {

  datatype Option<T> = None | Some(value: T)

  /** The members of the `(str, Enum)` class PaymentStatus. */
  datatype PaymentStatus = SUCCESS | FAILURE | PENDING {
    /** The member's `.value`. */
    function Value(): string {
      match this
      case SUCCESS => "success"
      case FAILURE => "failure"
      case PENDING => "pending"
    }

    /** The member's `.name`. */
    function Name(): string {
      match this
      case SUCCESS => "SUCCESS"
      case FAILURE => "FAILURE"
      case PENDING => "PENDING"
    }
  }

  /**
   * What a caller hands to PaymentSignal as `status`: either a plain string
   * (the manual-input surface passes "success" and "failure") or a member of
   * PaymentStatus (the simulator and the parameter's default do).
   */
  datatype StatusArg = Text(text: string) | Member(member: PaymentStatus)

  /**
   * Python's `str(status)`. A plain string is kept as it is; for a member of a
   * `(str, Enum)` mix-in, `str` is `Enum.__str__`, which gives the qualified
   * member name, not its value.
   */
  function StatusText(status: StatusArg): (s: string)
    ensures status.Text? ==> s == status.text
    ensures status.Member? ==> s != status.member.Value() && !Recognized(s)
  {
    match status
    case Text(t) => t
    case Member(m) =>
      var q := "PaymentStatus." + m.Name();
      assert q[0] == 'P';
      q
  }

  /** The two literal statuses that the metrics count. */
  predicate Recognized(status: string) {
    status == "success" || status == "failure"
  }

  /** A value passed to PaymentSignal through `**kwargs`. */
  datatype Extra = IntArg(i: int) | RealArg(r: real) | StrArg(s: string)

  /** The attributes a PaymentSignal object holds after construction. */
  datatype Signal = Signal(
    transactionId: string,
    amount: real,
    currency: string,
    status: string,
    latencyMs: real,
    errorCode: Option<string>,
    timestamp: real,
    paymentMethod: Option<string>,
    processor: Option<string>,
    issuerBank: Option<string>)

  /**
   * PaymentSignal.__init__: the ten named parameters with their defaults, and
   * `kwargs` for every other keyword argument, which the constructor accepts
   * and drops.
   */
  function NewPaymentSignal(
    transactionId: string,
    amount: real := 0.0,
    currency: string := "USD",
    status: StatusArg := Member(SUCCESS),
    latencyMs: real := 0.0,
    errorCode: Option<string> := None,
    timestamp: real := 0.0,
    paymentMethod: Option<string> := None,
    processor: Option<string> := None,
    issuerBank: Option<string> := None,
    kwargs: map<string, Extra> := map[]): (s: Signal)
    ensures s.transactionId == transactionId && s.status == StatusText(status)
  {
    Signal(transactionId, amount, currency, StatusText(status), latencyMs,
           errorCode, timestamp, paymentMethod, processor, issuerBank)
  }

  /** A plain-string status is stored unchanged. */
  lemma TextStatusKept(transactionId: string, s: string)
    ensures NewPaymentSignal(transactionId, status := Text(s)).status == s
  {
  }

  /** Keyword arguments beyond the ten named ones leave no trace in the signal. */
  lemma ExtraArgumentsDropped(
    transactionId: string, amount: real, currency: string, status: StatusArg,
    latencyMs: real, errorCode: Option<string>, timestamp: real,
    paymentMethod: Option<string>, processor: Option<string>,
    issuerBank: Option<string>, kwargs: map<string, Extra>)
    ensures NewPaymentSignal(transactionId, amount, currency, status, latencyMs,
                             errorCode, timestamp, paymentMethod, processor,
                             issuerBank, kwargs)
         == NewPaymentSignal(transactionId, amount, currency, status, latencyMs,
                             errorCode, timestamp, paymentMethod, processor,
                             issuerBank)
  {
  }

  /** The texts `str` gives the two members a payment outcome can be. */
  lemma OutcomeStatusTexts()
    ensures StatusText(Member(SUCCESS)) == "PaymentStatus.SUCCESS"
    ensures StatusText(Member(FAILURE)) == "PaymentStatus.FAILURE"
  {
  }

  /**
   * A signal built from an identifier alone gets every default; its status is
   * `str(PaymentStatus.SUCCESS)`, which the metrics do not count as a success.
   */
  lemma DefaultSignal(transactionId: string)
    ensures NewPaymentSignal(transactionId)
         == Signal(transactionId, 0.0, "USD", "PaymentStatus.SUCCESS", 0.0,
                   None, 0.0, None, None, None)
    ensures !Recognized(NewPaymentSignal(transactionId).status)
  {
  }

  // ---------------------------------------------------------------------------
  // Metrics
  // ---------------------------------------------------------------------------

  /** The dictionary calculate_metrics returns, as a record. */
  datatype Metrics = Metrics(
    totalVolume: nat,
    successCount: nat,
    failureCount: nat,
    successRate: real,
    failureRate: real,
    avgLatency: real,
    retryRate: real)
  {
    /** The same values under the dictionary's keys. */
    function AsDict(): map<string, real> {
      map["total_volume" := totalVolume as real,
          "success_count" := successCount as real,
          "failure_count" := failureCount as real,
          "success_rate" := successRate,
          "failure_rate" := failureRate,
          "avg_latency" := avgLatency,
          "retry_rate" := retryRate]
    }
  }

  /** What calculate_metrics returns for an empty history. */
  const ZeroMetrics := Metrics(0, 0, 0, 0.0, 0.0, 0.0, 0.0)

  /** The number of signals whose stored status is exactly `text`. */
  function CountStatus(signals: seq<Signal>, text: string): (n: nat)
    ensures n <= |signals|
  {
    if signals == [] then 0
    else CountStatus(signals[..|signals| - 1], text)
         + (if signals[|signals| - 1].status == text then 1 else 0)
  }

  /** The number of signals whose status is neither "success" nor "failure". */
  function CountUnrecognized(signals: seq<Signal>): (n: nat)
    ensures n <= |signals|
  {
    if signals == [] then 0
    else CountUnrecognized(signals[..|signals| - 1])
         + (if Recognized(signals[|signals| - 1].status) then 0 else 1)
  }

  /** The sum of the latencies of all signals. */
  function SumLatency(signals: seq<Signal>): real {
    if signals == [] then 0.0
    else SumLatency(signals[..|signals| - 1]) + signals[|signals| - 1].latencyMs
  }

  /**
   * Every signal is counted exactly once: as a success, as a failure, or as
   * neither.
   */
  lemma {:induction false} CountPartition(signals: seq<Signal>)
    ensures CountStatus(signals, "success") + CountStatus(signals, "failure")
            + CountUnrecognized(signals) == |signals|
  {
    if signals != [] {
      CountPartition(signals[..|signals| - 1]);
    }
  }

  /** No signal is left uncounted exactly when every status is one of the two literals. */
  lemma {:induction false} NoneUnrecognized(signals: seq<Signal>)
    ensures CountUnrecognized(signals) == 0
            <==> forall i :: 0 <= i < |signals| ==> Recognized(signals[i].status)
  {
    if signals != [] {
      var init := signals[..|signals| - 1];
      NoneUnrecognized(init);
      if CountUnrecognized(signals) == 0 {
        forall i | 0 <= i < |signals| ensures Recognized(signals[i].status) {
          if i < |init| {
            assert signals[i] == init[i];
          }
        }
      } else if CountUnrecognized(init) != 0 {
        var i :| 0 <= i < |init| && !Recognized(init[i].status);
        assert signals[i] == init[i];
      }
    }
  }

  /** Latency bounds shared by all signals bound their sum. */
  lemma {:induction false} SumLatencyBounds(signals: seq<Signal>, lo: real, hi: real)
    requires forall i :: 0 <= i < |signals| ==> lo <= signals[i].latencyMs <= hi
    ensures (|signals| as real) * lo <= SumLatency(signals) <= (|signals| as real) * hi
  {
    if signals != [] {
      var init := signals[..|signals| - 1];
      assert forall i :: 0 <= i < |init| ==> init[i] == signals[i];
      SumLatencyBounds(init, lo, hi);
      assert (|signals| as real) * lo == (|init| as real) * lo + lo;
      assert (|signals| as real) * hi == (|init| as real) * hi + hi;
    }
  }

  /** A count over a positive total gives a ratio in [0, 1]. */
  lemma RatioInUnitInterval(count: nat, total: nat)
    requires count <= total && total > 0
    ensures 0.0 <= count as real / total as real <= 1.0
  {
    var r := count as real / total as real;
    assert r * total as real == count as real;
  }

  /** PaymentObserver.calculate_metrics over the retained signals. */
  function MetricsOf(signals: seq<Signal>): (m: Metrics)
    ensures m.totalVolume == |signals|
    ensures |signals| == 0 ==> m == ZeroMetrics
    ensures m.successCount == CountStatus(signals, "success")
    ensures m.failureCount == CountStatus(signals, "failure")
    ensures m.successCount + m.failureCount + CountUnrecognized(signals) == m.totalVolume
    ensures 0.0 <= m.successRate <= 1.0 && 0.0 <= m.failureRate <= 1.0
    ensures m.retryRate == 0.0
  {
    var total := |signals|;
    if total == 0 then
      ZeroMetrics
    else
      CountPartition(signals);
      var success := CountStatus(signals, "success");
      var failure := CountStatus(signals, "failure");
      RatioInUnitInterval(success, total);
      RatioInUnitInterval(failure, total);
      Metrics(total, success, failure,
              success as real / total as real,
              failure as real / total as real,
              SumLatency(signals) / total as real,
              0.0)
  }

  /**
   * The success and failure counts add up to the volume exactly when every
   * stored status is "success" or "failure".
   */
  lemma CountsCoverVolumeIff(signals: seq<Signal>)
    ensures MetricsOf(signals).successCount + MetricsOf(signals).failureCount
              == MetricsOf(signals).totalVolume
            <==> forall i :: 0 <= i < |signals| ==> Recognized(signals[i].status)
  {
    NoneUnrecognized(signals);
  }

  /** With only the two literal statuses present, the two rates add up to one. */
  lemma RatesSumToOne(signals: seq<Signal>)
    requires |signals| > 0
    requires forall i :: 0 <= i < |signals| ==> Recognized(signals[i].status)
    ensures MetricsOf(signals).successRate + MetricsOf(signals).failureRate == 1.0
  {
    NoneUnrecognized(signals);
    var m := MetricsOf(signals);
    FractionsSumToOne(m.successCount as real, m.failureCount as real, |signals| as real);
  }

  lemma FractionsSumToOne(a: real, b: real, n: real)
    requires n > 0.0 && a + b == n
    ensures a / n + b / n == 1.0
  {
    assert a / n + b / n == (a + b) / n;
  }

  /** The average latency lies within any bounds that every latency obeys. */
  lemma AvgLatencyWithinBounds(signals: seq<Signal>, lo: real, hi: real)
    requires |signals| > 0
    requires forall i :: 0 <= i < |signals| ==> lo <= signals[i].latencyMs <= hi
    ensures lo <= MetricsOf(signals).avgLatency <= hi
  {
    SumLatencyBounds(signals, lo, hi);
    MeanWithin(SumLatency(signals), |signals| as real, lo, hi);
  }

  lemma MeanWithin(sum: real, n: real, lo: real, hi: real)
    requires n > 0.0 && n * lo <= sum <= n * hi
    ensures lo <= sum / n <= hi
  {
    var avg := sum / n;
    assert (avg - lo) * n == sum - n * lo;
    assert (hi - avg) * n == n * hi - sum;
  }

  /**
   * Observing one more signal adds one to the volume and one to the success or
   * failure count according to its stored status; the rest is unchanged.
   */
  lemma MetricsAfterAppend(signals: seq<Signal>, s: Signal)
    ensures MetricsOf(signals + [s]).totalVolume == MetricsOf(signals).totalVolume + 1
    ensures MetricsOf(signals + [s]).successCount
            == MetricsOf(signals).successCount + (if s.status == "success" then 1 else 0)
    ensures MetricsOf(signals + [s]).failureCount
            == MetricsOf(signals).failureCount + (if s.status == "failure" then 1 else 0)
  {
    assert (signals + [s])[..|signals|] == signals;
  }

  // ---------------------------------------------------------------------------
  // Observer and agent
  // ---------------------------------------------------------------------------

  /** AgentMemory: the shared buffer of recent signals. */
  class AgentMemory {
    var recentSignals: seq<Signal>

    constructor ()
      ensures recentSignals == []
    {
      recentSignals := [];
    }
  }

  /** PaymentObserver: its own history plus the shared memory it feeds. */
  class PaymentObserver {
    var memory: AgentMemory
    var signals: seq<Signal>

    constructor (memory: AgentMemory)
      ensures this.memory == memory && signals == []
    {
      this.memory := memory;
      signals := [];
    }

    /** observe: append the signal to the history and to the shared memory. */
    method Observe(signal: Signal)
      modifies this`signals, memory`recentSignals
      ensures signals == old(signals) + [signal]
      ensures memory.recentSignals == old(memory.recentSignals) + [signal]
    {
      signals := signals + [signal];
      memory.recentSignals := memory.recentSignals + [signal];
    }

    /** calculate_metrics, recomputed over the whole history on every call. */
    function CalculateMetrics(): Metrics
      reads this
    {
      MetricsOf(signals)
    }
  }

  /** PaymentOpsAgent: one memory, one observer wired to it, and a running flag. */
  class PaymentOpsAgent {
    var memory: AgentMemory
    var observer: PaymentObserver
    var running: bool

    /** The observer feeds this agent's own memory. */
    ghost predicate Valid()
      reads this, observer
    {
      observer.memory == memory
    }

    constructor ()
      ensures Valid() && fresh(memory) && fresh(observer)
      ensures memory.recentSignals == [] && observer.signals == [] && !running
    {
      var m := new AgentMemory();
      memory := m;
      observer := new PaymentObserver(m);
      running := false;
    }

    /** process_payment_signal: hand the signal to the observer. */
    method ProcessPaymentSignal(signal: Signal)
      requires Valid()
      modifies observer`signals, memory`recentSignals
      ensures Valid()
      ensures observer.signals == old(observer.signals) + [signal]
      ensures memory.recentSignals == old(memory.recentSignals) + [signal]
    {
      observer.Observe(signal);
    }

    method Start()
      modifies this`running
      ensures running
    {
      running := true;
    }

    method Stop()
      modifies this`running
      ensures !running
    {
      running := false;
    }
  }
}
