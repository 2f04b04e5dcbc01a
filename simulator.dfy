/**
 * The degradation-scenario payment simulator (simulation/simulator.py).
 *
 * Randomness is an input: every `random.*` call of one generate_payment is a
 * field of a Draws record, constrained to the range the call can return. The
 * wall clock is the `now` parameter.
 */
module Simulator {
  import opened Agent

  // ---------------------------------------------------------------------------
  // Scenarios and the per-transaction draft
  // ---------------------------------------------------------------------------

  /** One entry of `degradation_scenarios`. */
  datatype Scenario = Scenario(kind: string, affected: string, start: int, end: int, severity: real)

  /** The record add_degradation_scenario appends: the window ends `duration` after it starts. */
  function NewScenario(kind: string, affected: string, startAfter: int, duration: int, severity: real): (sc: Scenario)
    ensures sc.end - sc.start == duration
  {
    Scenario(kind, affected, startAfter, startAfter + duration, severity)
  }

  /** Both ends of a scenario's window are inclusive. */
  predicate Active(sc: Scenario, counter: int) {
    sc.start <= counter <= sc.end
  }

  /** The scenario types generate_payment tells apart; any other string is Unrecognized. */
  datatype Kind = IssuerDegradation | MethodFatigue | RetryStorm | LatencySpike | ErrorClustering | Unrecognized

  /** The five type strings the scenario loop acts on. */
  const ScenarioTypes: set<string> :=
    {"issuer_degradation", "method_fatigue", "retry_storm", "latency_spike", "error_clustering"}

  /** The string comparisons of generate_payment's if/elif chain. */
  function KindOf(kind: string): (k: Kind)
    ensures k != Unrecognized <==> kind in ScenarioTypes
  {
    if kind == "issuer_degradation" then IssuerDegradation
    else if kind == "method_fatigue" then MethodFatigue
    else if kind == "retry_storm" then RetryStorm
    else if kind == "latency_spike" then LatencySpike
    else if kind == "error_clustering" then ErrorClustering
    else Unrecognized
  }

  /** A scenario that is outside its window or of an unknown type. */
  predicate Inert(sc: Scenario, counter: int) {
    !Active(sc, counter) || KindOf(sc.kind) == Unrecognized
  }

  /** The local variables the scenario loop updates. */
  datatype Draft = Draft(successProb: real, baseLatency: int, retryCount: int, errorCode: Option<string>)

  /** The draft before any scenario: probability 0.85, the drawn latency, no retries, no error. */
  function InitialDraft(baseLatency: int): Draft {
    Draft(0.85, baseLatency, 0, None)
  }

  /**
   * The draws a scenario may consume: `random.random()` (retry storms and error
   * clustering) and `random.randint(1, 4)` (retry storms).
   */
  datatype ScenarioDraw = ScenarioDraw(roll: real, retries: int)

  /** Python's `int(x)` on a float: truncation toward zero. */
  function Trunc(x: real): (r: int)
    ensures x >= 0.0 ==> r as real <= x < r as real + 1.0
    ensures x < 0.0 ==> r as real - 1.0 < x <= r as real
  {
    if x >= 0.0 then x.Floor else -((-x).Floor)
  }

  /** An active error clustering whose roll came in under its severity. */
  predicate ClusterFires(sc: Scenario, counter: int, sd: ScenarioDraw) {
    Active(sc, counter) && KindOf(sc.kind) == ErrorClustering && sd.roll < sc.severity
  }

  /** `success_prob *= (1 - severity)`: a non-negative probability stays between 0 and where it was. */
  function Degraded(p: real, severity: real): (q: real)
    ensures 0.0 <= p && 0.0 <= severity <= 1.0 ==> 0.0 <= q <= p
  {
    assert p - p * (1.0 - severity) == p * severity;
    p * (1.0 - severity)
  }

  /** The effect of one scenario on the draft, for the drawn issuer and method. */
  function ApplyScenario(d: Draft, sc: Scenario, counter: int, issuer: string, payMethod: string,
                         sd: ScenarioDraw): (r: Draft)
    ensures Inert(sc, counter) ==> r == d
    ensures KindOf(sc.kind) == IssuerDegradation && sc.affected != issuer ==> r == d
    ensures KindOf(sc.kind) == MethodFatigue && sc.affected != payMethod ==> r == d
    ensures r.retryCount != d.retryCount ==> KindOf(sc.kind) == RetryStorm
    ensures r.errorCode != d.errorCode ==> ClusterFires(sc, counter, sd) && r.errorCode == Some(sc.affected)
    ensures ClusterFires(sc, counter, sd) ==> r.successProb == 0.1 && r.errorCode == Some(sc.affected)
    ensures r.baseLatency != d.baseLatency ==> KindOf(sc.kind) == IssuerDegradation || KindOf(sc.kind) == LatencySpike
    ensures KindOf(sc.kind) == LatencySpike ==> r.successProb == d.successProb
    ensures 0.0 <= sc.severity <= 1.0 && 0.0 <= d.successProb && !ClusterFires(sc, counter, sd)
            ==> 0.0 <= r.successProb <= d.successProb
  {
    if !Active(sc, counter) then d
    else match KindOf(sc.kind)
      case IssuerDegradation =>
        if sc.affected == issuer then
          d.(successProb := Degraded(d.successProb, sc.severity),
             baseLatency := d.baseLatency + Trunc(300.0 * sc.severity))
        else d
      case MethodFatigue =>
        if sc.affected == payMethod then
          d.(successProb := Degraded(d.successProb, sc.severity))
        else d
      case RetryStorm =>
        if sd.roll < sc.severity then d.(retryCount := sd.retries, successProb := d.successProb * 0.7) else d
      case LatencySpike =>
        d.(baseLatency := d.baseLatency + Trunc(1000.0 * sc.severity))
      case ErrorClustering =>
        if sd.roll < sc.severity then d.(errorCode := Some(sc.affected), successProb := 0.1) else d
      case Unrecognized =>
        d
  }

  /** All scenarios applied to the draft in registration order (a left fold). */
  function FoldScenarios(init: Draft, scs: seq<Scenario>, sds: seq<ScenarioDraw>, counter: int,
                         issuer: string, payMethod: string): Draft
    requires |sds| == |scs|
    decreases |scs|
  {
    if scs == [] then init
    else
      var n := |scs| - 1;
      ApplyScenario(FoldScenarios(init, scs[..n], sds[..n], counter, issuer, payMethod),
                    scs[n], counter, issuer, payMethod, sds[n])
  }

  /** Folding one more scenario applies it to the fold of the ones before. */
  lemma FoldStep(init: Draft, scs: seq<Scenario>, sds: seq<ScenarioDraw>, i: nat, counter: int,
                 issuer: string, payMethod: string)
    requires |sds| == |scs| && i < |scs|
    ensures FoldScenarios(init, scs[..i + 1], sds[..i + 1], counter, issuer, payMethod)
            == ApplyScenario(FoldScenarios(init, scs[..i], sds[..i], counter, issuer, payMethod),
                             scs[i], counter, issuer, payMethod, sds[i])
  {
    assert scs[..i + 1][..i] == scs[..i];
    assert sds[..i + 1][..i] == sds[..i];
  }

  // ---------------------------------------------------------------------------
  // Properties of the fold
  // ---------------------------------------------------------------------------

  /** When no scenario is active with a known type, the draft comes out as it went in. */
  lemma {:induction false} FoldInert(init: Draft, scs: seq<Scenario>, sds: seq<ScenarioDraw>,
                                     counter: int, issuer: string, payMethod: string)
    requires |sds| == |scs|
    requires forall i :: 0 <= i < |scs| ==> Inert(scs[i], counter)
    ensures FoldScenarios(init, scs, sds, counter, issuer, payMethod) == init
  {
    if scs != [] {
      var n := |scs| - 1;
      assert forall i :: 0 <= i < n ==> scs[..n][i] == scs[i];
      FoldInert(init, scs[..n], sds[..n], counter, issuer, payMethod);
    }
  }

  /** Scenario `i` is an active retry storm whose roll came in under its severity. */
  predicate StormFiredAt(scs: seq<Scenario>, sds: seq<ScenarioDraw>, counter: int, i: int)
    requires |sds| == |scs|
  {
    0 <= i < |scs| && Active(scs[i], counter) && KindOf(scs[i].kind) == RetryStorm
    && sds[i].roll < scs[i].severity
  }

  /** Scenario `i` is an active error clustering whose roll came in under its severity. */
  predicate ClusterFiredAt(scs: seq<Scenario>, sds: seq<ScenarioDraw>, counter: int, i: int)
    requires |sds| == |scs|
  {
    0 <= i < |scs| && ClusterFires(scs[i], counter, sds[i])
  }

  /** Scenario `j` is the last error clustering that fired. */
  predicate LastClusterAt(scs: seq<Scenario>, sds: seq<ScenarioDraw>, counter: int, j: int)
    requires |sds| == |scs|
  {
    ClusterFiredAt(scs, sds, counter, j) && forall i :: j < i < |scs| ==> !ClusterFiredAt(scs, sds, counter, i)
  }

  /** Below `n`, a clustering fired in the first `n` scenarios exactly when it fired in all of them. */
  lemma ClusterFiredPrefix(scs: seq<Scenario>, sds: seq<ScenarioDraw>, counter: int, n: nat)
    requires |sds| == |scs| && n <= |scs|
    ensures forall i :: 0 <= i < n ==> (ClusterFiredAt(scs[..n], sds[..n], counter, i) <==> ClusterFiredAt(scs, sds, counter, i))
  {
    forall i | 0 <= i < n
      ensures ClusterFiredAt(scs[..n], sds[..n], counter, i) <==> ClusterFiredAt(scs, sds, counter, i)
    {
      assert scs[..n][i] == scs[i] && sds[..n][i] == sds[i];
    }
  }

  /** Every retry draw is what `random.randint(1, 4)` can return. */
  predicate RetriesInRange(sds: seq<ScenarioDraw>) {
    forall i :: 0 <= i < |sds| ==> 1 <= sds[i].retries <= 4
  }

  /** The retry count stays 0 unless some retry storm fired; then it is in 1..4. */
  lemma {:induction false} FoldRetryCount(init: Draft, scs: seq<Scenario>, sds: seq<ScenarioDraw>,
                                          counter: int, issuer: string, payMethod: string)
    requires |sds| == |scs| && init.retryCount == 0 && RetriesInRange(sds)
    ensures var r := FoldScenarios(init, scs, sds, counter, issuer, payMethod).retryCount;
            (r == 0 <==> !exists i :: StormFiredAt(scs, sds, counter, i))
            && (r != 0 ==> 1 <= r <= 4)
  {
    if scs != [] {
      var n := |scs| - 1;
      var pre := FoldScenarios(init, scs[..n], sds[..n], counter, issuer, payMethod);
      FoldRetryCount(init, scs[..n], sds[..n], counter, issuer, payMethod);
      forall i | 0 <= i < n
        ensures StormFiredAt(scs[..n], sds[..n], counter, i) <==> StormFiredAt(scs, sds, counter, i)
      {
        assert scs[..n][i] == scs[i] && sds[..n][i] == sds[i];
      }
      if StormFiredAt(scs, sds, counter, n) {
        assert FoldScenarios(init, scs, sds, counter, issuer, payMethod).retryCount == sds[n].retries;
      } else {
        assert FoldScenarios(init, scs, sds, counter, issuer, payMethod).retryCount == pre.retryCount;
      }
    }
  }

  /** When the last scenario did not fire, the last clustering that fired is the last one of the prefix. */
  lemma LastClusterInPrefix(scs: seq<Scenario>, sds: seq<ScenarioDraw>, counter: int, j: int)
    requires |sds| == |scs| && scs != []
    requires LastClusterAt(scs, sds, counter, j) && !ClusterFiredAt(scs, sds, counter, |scs| - 1)
    ensures j < |scs| - 1 && LastClusterAt(scs[..|scs| - 1], sds[..|scs| - 1], counter, j)
    ensures scs[..|scs| - 1][j] == scs[j]
  {
    var n := |scs| - 1;
    ClusterFiredPrefix(scs, sds, counter, n);
  }

  /**
   * A forced error code exists exactly when some error clustering fired, and it
   * is the dimension of the last one that fired.
   */
  lemma {:induction false} FoldErrorCode(init: Draft, scs: seq<Scenario>, sds: seq<ScenarioDraw>,
                                         counter: int, issuer: string, payMethod: string)
    requires |sds| == |scs| && init.errorCode == None
    ensures var e := FoldScenarios(init, scs, sds, counter, issuer, payMethod).errorCode;
            (e == None <==> !exists i :: ClusterFiredAt(scs, sds, counter, i))
            && forall j :: LastClusterAt(scs, sds, counter, j) ==> e == Some(scs[j].affected)
  {
    if scs != [] {
      var n := |scs| - 1;
      var pre := FoldScenarios(init, scs[..n], sds[..n], counter, issuer, payMethod);
      var e := ApplyScenario(pre, scs[n], counter, issuer, payMethod, sds[n]).errorCode;
      assert e == FoldScenarios(init, scs, sds, counter, issuer, payMethod).errorCode;
      FoldErrorCode(init, scs[..n], sds[..n], counter, issuer, payMethod);
      ClusterFiredPrefix(scs, sds, counter, n);
      if ClusterFiredAt(scs, sds, counter, n) {
        assert e == Some(scs[n].affected);
        forall j | LastClusterAt(scs, sds, counter, j)
          ensures e == Some(scs[j].affected)
        {
          assert j == n;
        }
      } else {
        assert e == pre.errorCode;
        forall j | LastClusterAt(scs, sds, counter, j)
          ensures e == Some(scs[j].affected)
        {
          LastClusterInPrefix(scs, sds, counter, j);
        }
      }
    }
  }

  /** Every severity lies in [0, 1], the range the scenario comments intend. */
  predicate SeveritiesInUnit(scs: seq<Scenario>) {
    forall i :: 0 <= i < |scs| ==> 0.0 <= scs[i].severity <= 1.0
  }

  /** With severities in [0, 1], the success probability stays in [0, 1]. */
  lemma {:induction false} FoldProbabilityInUnit(init: Draft, scs: seq<Scenario>, sds: seq<ScenarioDraw>,
                                                 counter: int, issuer: string, payMethod: string)
    requires |sds| == |scs| && SeveritiesInUnit(scs) && 0.0 <= init.successProb <= 1.0
    ensures 0.0 <= FoldScenarios(init, scs, sds, counter, issuer, payMethod).successProb <= 1.0
  {
    if scs != [] {
      var n := |scs| - 1;
      assert SeveritiesInUnit(scs[..n]) by {
        assert forall i :: 0 <= i < n ==> scs[..n][i] == scs[i];
      }
      FoldProbabilityInUnit(init, scs[..n], sds[..n], counter, issuer, payMethod);
      ApplyProbabilityInUnit(FoldScenarios(init, scs[..n], sds[..n], counter, issuer, payMethod),
                             scs[n], counter, issuer, payMethod, sds[n]);
    }
  }

  /** One scenario with severity in [0, 1] keeps the probability in [0, 1]. */
  lemma ApplyProbabilityInUnit(d: Draft, sc: Scenario, counter: int, issuer: string, payMethod: string,
                               sd: ScenarioDraw)
    requires 0.0 <= sc.severity <= 1.0 && 0.0 <= d.successProb <= 1.0
    ensures 0.0 <= ApplyScenario(d, sc, counter, issuer, payMethod, sd).successProb <= 1.0
  {
    ProductInUnit(d.successProb, 0.7);
  }

  lemma ProductInUnit(a: real, b: real)
    requires 0.0 <= a <= 1.0 && 0.0 <= b <= 1.0
    ensures 0.0 <= a * b <= 1.0
  {
    assert 0.0 <= a * b;
    assert a * b <= a by {
      assert a * b + a * (1.0 - b) == a;
      assert 0.0 <= a * (1.0 - b);
    }
  }

  /** With non-negative severities, no scenario lowers the base latency. */
  lemma {:induction false} FoldLatencyNotLowered(init: Draft, scs: seq<Scenario>, sds: seq<ScenarioDraw>,
                                                 counter: int, issuer: string, payMethod: string)
    requires |sds| == |scs|
    requires forall i :: 0 <= i < |scs| ==> 0.0 <= scs[i].severity
    ensures FoldScenarios(init, scs, sds, counter, issuer, payMethod).baseLatency >= init.baseLatency
  {
    if scs != [] {
      var n := |scs| - 1;
      assert forall i :: 0 <= i < n ==> scs[..n][i] == scs[i];
      FoldLatencyNotLowered(init, scs[..n], sds[..n], counter, issuer, payMethod);
    }
  }

  /**
   * Registration order matters: error clustering overwrites the probability
   * with 0.1, discarding the method-fatigue multiplier before it, while a
   * method fatigue registered after it multiplies the 0.1.
   */
  lemma ClusteringOrderSensitive(counter: int, issuer: string, base: int)
    ensures var fatigue := Scenario("method_fatigue", "visa", counter, counter, 0.4);
            var cluster := Scenario("error_clustering", "E005_FRAUD_SUSPECTED", counter, counter, 0.25);
            var sds := [ScenarioDraw(0.1, 1), ScenarioDraw(0.1, 1)];
            FoldScenarios(InitialDraft(base), [fatigue, cluster], sds, counter, issuer, "visa").successProb == 0.1
            && FoldScenarios(InitialDraft(base), [cluster, fatigue], sds, counter, issuer, "visa").successProb == 0.06
  {
    var fatigue := Scenario("method_fatigue", "visa", counter, counter, 0.4);
    var cluster := Scenario("error_clustering", "E005_FRAUD_SUSPECTED", counter, counter, 0.25);
    var sds := [ScenarioDraw(0.1, 1), ScenarioDraw(0.1, 1)];
    assert [fatigue, cluster][..1] == [fatigue] && [cluster, fatigue][..1] == [cluster];
    assert sds[..1] == [ScenarioDraw(0.1, 1)];
    assert [fatigue][..0] == [] && [cluster][..0] == [];
  }

  /** Two drafts that agree on everything except, possibly, the success probability. */
  predicate SameButProbability(a: Draft, b: Draft) {
    a.(successProb := b.successProb) == b
  }

  /** One scenario keeps two such drafts alike, and a fired clustering makes them equal. */
  lemma ApplySameButProbability(a: Draft, b: Draft, sc: Scenario, counter: int, issuer: string,
                                payMethod: string, sd: ScenarioDraw)
    requires SameButProbability(a, b)
    ensures SameButProbability(ApplyScenario(a, sc, counter, issuer, payMethod, sd),
                               ApplyScenario(b, sc, counter, issuer, payMethod, sd))
    ensures ClusterFires(sc, counter, sd)
            ==> ApplyScenario(a, sc, counter, issuer, payMethod, sd) == ApplyScenario(b, sc, counter, issuer, payMethod, sd)
  {
  }

  /**
   * Error clustering overwrites the probability rather than scaling it: once a
   * clustering has fired, the result no longer depends on the success
   * probability the loop started from (`ClusteringForgetsPrefix` extends this
   * to different scenario prefixes ahead of it).
   */
  lemma {:induction false} ClusteringForgetsProbability(a: Draft, b: Draft, scs: seq<Scenario>,
                                                        sds: seq<ScenarioDraw>, counter: int,
                                                        issuer: string, payMethod: string)
    requires |sds| == |scs| && SameButProbability(a, b)
    ensures SameButProbability(FoldScenarios(a, scs, sds, counter, issuer, payMethod),
                               FoldScenarios(b, scs, sds, counter, issuer, payMethod))
    ensures (exists i :: ClusterFiredAt(scs, sds, counter, i))
            ==> FoldScenarios(a, scs, sds, counter, issuer, payMethod)
                == FoldScenarios(b, scs, sds, counter, issuer, payMethod)
  {
    if scs != [] {
      var n := |scs| - 1;
      var preA := FoldScenarios(a, scs[..n], sds[..n], counter, issuer, payMethod);
      var preB := FoldScenarios(b, scs[..n], sds[..n], counter, issuer, payMethod);
      ClusteringForgetsProbability(a, b, scs[..n], sds[..n], counter, issuer, payMethod);
      ApplySameButProbability(preA, preB, scs[n], counter, issuer, payMethod, sds[n]);
      ClusterFiredPrefix(scs, sds, counter, n);
    }
  }

  /** The last element of `p + s` is that of `s`, and dropping it drops it from `s`. */
  lemma AppendDropLast<T>(p: seq<T>, s: seq<T>)
    requires s != []
    ensures (p + s)[..|p + s| - 1] == p + s[..|s| - 1]
    ensures (p + s)[|p + s| - 1] == s[|s| - 1]
  {
  }

  /** Folding the scenarios `P + S` folds `S` over the result of folding `P`. */
  lemma {:induction false} FoldAppend(init: Draft, pre: seq<Scenario>, pds: seq<ScenarioDraw>,
                                      scs: seq<Scenario>, sds: seq<ScenarioDraw>, counter: int,
                                      issuer: string, payMethod: string)
    requires |pds| == |pre| && |sds| == |scs|
    ensures FoldScenarios(init, pre + scs, pds + sds, counter, issuer, payMethod)
            == FoldScenarios(FoldScenarios(init, pre, pds, counter, issuer, payMethod), scs, sds, counter, issuer, payMethod)
  {
    if scs == [] {
      assert pre + scs == pre && pds + sds == pds;
    } else {
      var n := |scs| - 1;
      FoldAppend(init, pre, pds, scs[..n], sds[..n], counter, issuer, payMethod);
      AppendDropLast(pre, scs);
      AppendDropLast(pds, sds);
    }
  }

  /**
   * Two runs whose scenario prefixes leave drafts that differ only in the
   * success probability (for instance by different multipliers) end equal once
   * a clustering fires in the common rest.
   */
  lemma {:induction false} ClusteringForgetsPrefix(init: Draft, pre1: seq<Scenario>, pds1: seq<ScenarioDraw>,
                                                  pre2: seq<Scenario>, pds2: seq<ScenarioDraw>,
                                                  scs: seq<Scenario>, sds: seq<ScenarioDraw>, counter: int,
                                                  issuer: string, payMethod: string)
    requires |pds1| == |pre1| && |pds2| == |pre2| && |sds| == |scs|
    requires SameButProbability(FoldScenarios(init, pre1, pds1, counter, issuer, payMethod),
                                FoldScenarios(init, pre2, pds2, counter, issuer, payMethod))
    requires exists i :: ClusterFiredAt(scs, sds, counter, i)
    ensures FoldScenarios(init, pre1 + scs, pds1 + sds, counter, issuer, payMethod)
            == FoldScenarios(init, pre2 + scs, pds2 + sds, counter, issuer, payMethod)
  {
    var a := FoldScenarios(init, pre1, pds1, counter, issuer, payMethod);
    var b := FoldScenarios(init, pre2, pds2, counter, issuer, payMethod);
    FoldAppend(init, pre1, pds1, scs, sds, counter, issuer, payMethod);
    FoldAppend(init, pre2, pds2, scs, sds, counter, issuer, payMethod);
    ClusteringForgetsProbability(a, b, scs, sds, counter, issuer, payMethod);
  }

  // ---------------------------------------------------------------------------
  // Transaction identifiers
  // ---------------------------------------------------------------------------

  predicate IsDigit(c: char) {
    '0' <= c <= '9'
  }

  predicate AllDigits(s: string) {
    forall i :: 0 <= i < |s| ==> IsDigit(s[i])
  }

  function DigitChar(k: nat): (c: char)
    requires k < 10
    ensures IsDigit(c)
  {
    ('0' as int + k) as char
  }

  /** The decimal representation of `n`, without leading zeros. */
  function Decimal(n: nat): (s: string)
    ensures |s| >= 1 && AllDigits(s)
    decreases n
  {
    if n < 10 then [DigitChar(n)] else Decimal(n / 10) + [DigitChar(n % 10)]
  }

  /** `s` padded on the left with '0' up to `width` characters. */
  function ZeroPad(s: string, width: nat): (r: string)
    ensures |r| == if |s| >= width then |s| else width
    ensures r[|r| - |s|..] == s
    ensures forall i :: 0 <= i < |r| - |s| ==> r[i] == '0'
  {
    if |s| >= width then s else seq(width - |s|, _ => '0') + s
  }

  /** `f"txn_{counter:06d}"`. */
  function TxnId(counter: nat): string {
    "txn_" + ZeroPad(Decimal(counter), 6)
  }

  /** The value of a string of decimal digits (leading zeros allowed). */
  function ParseDecimal(s: string): nat
    requires AllDigits(s)
  {
    if s == [] then 0
    else ParseDecimal(s[..|s| - 1]) * 10 + (s[|s| - 1] as int - '0' as int)
  }

  /** Reading back the digits written by Decimal gives the number. */
  lemma {:induction false} ParseDecimalOfDecimal(n: nat)
    ensures ParseDecimal(Decimal(n)) == n
    decreases n
  {
    if n >= 10 {
      ParseDecimalOfDecimal(n / 10);
      var s := Decimal(n);
      assert s[..|s| - 1] == Decimal(n / 10);
    }
  }

  /** Leading zeros do not change the value. */
  lemma {:induction false} ParseIgnoresLeadingZeros(k: nat, s: string)
    requires AllDigits(s)
    ensures AllDigits(seq(k, _ => '0') + s)
    ensures ParseDecimal(seq(k, _ => '0') + s) == ParseDecimal(s)
    decreases |s|, k
  {
    var z := seq(k, _ => '0');
    if s != [] {
      var t := s[..|s| - 1];
      assert (z + s)[..|z + s| - 1] == z + t;
      ParseIgnoresLeadingZeros(k, t);
    } else if k > 0 {
      assert (z + s)[..|z + s| - 1] == seq(k - 1, _ => '0') + s;
      ParseIgnoresLeadingZeros(k - 1, s);
    }
  }

  /** The inverse of TxnId: the counter a `txn_<digits>` identifier names. */
  function ParseTxnId(id: string): Option<nat> {
    if |id| > 4 && id[..4] == "txn_" && AllDigits(id[4..]) then Some(ParseDecimal(id[4..]))
    else None
  }

  /** The identifier of a transaction names its counter. */
  lemma TxnIdRoundTrip(counter: nat)
    ensures ParseTxnId(TxnId(counter)) == Some(counter)
  {
    var digits := Decimal(counter);
    var padded := ZeroPad(digits, 6);
    var id := TxnId(counter);
    assert id[..4] == "txn_" && id[4..] == padded;
    if |digits| < 6 {
      ParseIgnoresLeadingZeros(6 - |digits|, digits);
    }
    ParseDecimalOfDecimal(counter);
  }

  /** Distinct counters give distinct identifiers. */
  lemma TxnIdInjective(a: nat, b: nat)
    ensures TxnId(a) == TxnId(b) ==> a == b
  {
    TxnIdRoundTrip(a);
    TxnIdRoundTrip(b);
  }

  /** Consecutive counters give a batch of pairwise distinct identifiers. */
  lemma BatchIdsDistinct(start: nat, batch: seq<Signal>)
    requires forall j :: 0 <= j < |batch| ==> batch[j].transactionId == TxnId(start + j + 1)
    ensures forall j, k :: 0 <= j < k < |batch| ==> batch[j].transactionId != batch[k].transactionId
  {
    forall j, k | 0 <= j < k < |batch|
      ensures batch[j].transactionId != batch[k].transactionId
    {
      var a, b := start + j + 1, start + k + 1;
      assert batch[j].transactionId == TxnId(a) && batch[k].transactionId == TxnId(b);
      TxnIdInjective(a, b);
    }
  }

  function Pow10(k: nat): nat {
    if k == 0 then 1 else 10 * Pow10(k - 1)
  }

  lemma {:induction false} DecimalLength(n: nat, k: nat)
    requires k >= 1 && n < Pow10(k)
    ensures |Decimal(n)| <= k
    decreases n
  {
    if n >= 10 {
      assert k >= 2;
      DecimalLength(n / 10, k - 1);
    }
  }

  /** The identifier is "txn_" and then at least six digits; exactly six below one million. */
  lemma TxnIdShape(counter: nat)
    ensures |TxnId(counter)| >= 10 && TxnId(counter)[..4] == "txn_" && AllDigits(TxnId(counter)[4..])
    ensures counter < 1000000 ==> |TxnId(counter)| == 10
  {
    var id := TxnId(counter);
    assert id[4..] == ZeroPad(Decimal(counter), 6);
    if counter < 1000000 {
      assert Pow10(6) == 1000000;
      DecimalLength(counter, 6);
    }
  }

  // ---------------------------------------------------------------------------
  // One generated payment
  // ---------------------------------------------------------------------------

  /** The six value pools the simulator draws from. */
  datatype Pools = Pools(paymentMethods: seq<string>, issuerBanks: seq<string>,
                         processors: seq<string>, errorCodes: seq<string>,
                         currencies: seq<string>, merchantCategories: seq<string>)

  /** What every `random.*` call of one generate_payment returned. */
  datatype Draws = Draws(
    methodIx: nat,        // random.choice(self.payment_methods)
    issuerIx: nat,        // random.choice(self.issuer_banks)
    processorIx: nat,     // random.choice(self.processors)
    baseLatency: int,     // random.randint(200, 800)
    perScenario: seq<ScenarioDraw>,  // one entry per registered scenario
    outcomeRoll: real,    // random.random() against the success probability
    errorIx: nat,         // random.choice(self.error_codes)
    noise: int,           // random.randint(-100, 100)
    amount: real,         // round(random.uniform(10, 1000), 2)
    currencyIx: nat,      // random.choice(self.currencies)
    categoryIx: nat,      // random.choice(self.merchant_categories)
    riskScore: real)      // random.random()

  /** The draws are values the corresponding calls can return. */
  predicate DrawsFit(d: Draws, p: Pools, scenarioCount: nat) {
    && d.methodIx < |p.paymentMethods| && d.issuerIx < |p.issuerBanks|
    && d.processorIx < |p.processors| && d.errorIx < |p.errorCodes|
    && d.currencyIx < |p.currencies| && d.categoryIx < |p.merchantCategories|
    && 200 <= d.baseLatency <= 800 && -100 <= d.noise <= 100
    && |d.perScenario| == scenarioCount
    && (forall i :: 0 <= i < scenarioCount ==> 0.0 <= d.perScenario[i].roll < 1.0)
    && RetriesInRange(d.perScenario)
    && 0.0 <= d.outcomeRoll < 1.0 && 0.0 <= d.riskScore < 1.0
    && 10.0 <= d.amount <= 1000.0
  }

  /** The keyword arguments generate_payment passes to PaymentSignal. */
  datatype PaymentCall = PaymentCall(
    transactionId: string, timestamp: real, status: StatusArg,
    paymentMethod: string, issuerBank: string, processor: string,
    amount: real, currency: string, latencyMs: int, errorCode: Option<string>,
    retryCount: int, merchantCategory: string, riskScore: real)

  /** The draft after every scenario, for the drawn issuer and method. */
  function FinalDraft(counter: nat, scs: seq<Scenario>, p: Pools, d: Draws): Draft
    requires DrawsFit(d, p, |scs|)
  {
    FoldScenarios(InitialDraft(d.baseLatency), scs, d.perScenario, counter,
                  p.issuerBanks[d.issuerIx], p.paymentMethods[d.methodIx])
  }

  /** Python truthiness of `error_code`: None and the empty string are false. */
  function Truthy(e: Option<string>): (b: bool)
    ensures b <==> e != None && e != Some("")
  {
    match e
    case None => false
    case Some(code) => |code| > 0
  }

  /**
   * generate_payment for a counter that has already been incremented. The
   * outcome PaymentStatus.FAILED of the source is read as FAILURE.
   */
  function GenerateSpec(counter: nat, scs: seq<Scenario>, p: Pools, d: Draws, now: real): (c: PaymentCall)
    requires DrawsFit(d, p, |scs|)
    ensures c.transactionId == TxnId(counter)
  {
    var payMethod := p.paymentMethods[d.methodIx];
    var issuer := p.issuerBanks[d.issuerIx];
    var draft := FinalDraft(counter, scs, p, d);
    var success := d.outcomeRoll < draft.successProb;
    var errorCode :=
      if success then None
      else if Truthy(draft.errorCode) then draft.errorCode
      else Some(p.errorCodes[d.errorIx]);
    var latency := draft.baseLatency + d.noise;
    PaymentCall(TxnId(counter), now, Member(if success then SUCCESS else FAILURE),
                payMethod, issuer, p.processors[d.processorIx], d.amount,
                p.currencies[d.currencyIx], if latency > 100 then latency else 100,
                errorCode, draft.retryCount, p.merchantCategories[d.categoryIx], d.riskScore)
  }

  /** The signal PaymentSignal builds from the simulator's arguments. */
  function ToSignal(c: PaymentCall): (s: Signal)
    ensures s.transactionId == c.transactionId
  {
    NewPaymentSignal(c.transactionId, amount := c.amount, currency := c.currency,
                     status := c.status, latencyMs := c.latencyMs as real,
                     errorCode := c.errorCode, timestamp := c.timestamp,
                     paymentMethod := Some(c.paymentMethod), processor := Some(c.processor),
                     issuerBank := Some(c.issuerBank),
                     kwargs := map["retry_count" := IntArg(c.retryCount),
                                   "merchant_category" := StrArg(c.merchantCategory),
                                   "risk_score" := RealArg(c.riskScore)])
  }

  /**
   * The shape of every generated payment: latency at least 100 ms, a status
   * that is SUCCESS exactly when the outcome roll is under the final success
   * probability, an error code exactly on failure, and method and issuer
   * taken from their pools.
   */
  lemma GeneratedPayment(counter: nat, scs: seq<Scenario>, p: Pools, d: Draws, now: real)
    requires DrawsFit(d, p, |scs|)
    ensures var c := GenerateSpec(counter, scs, p, d, now);
            && c.latencyMs >= 100
            && (c.status == Member(SUCCESS) || c.status == Member(FAILURE))
            && (c.status == Member(SUCCESS) <==> d.outcomeRoll < FinalDraft(counter, scs, p, d).successProb)
            && (c.status == Member(SUCCESS) ==> c.errorCode == None)
            && (c.status == Member(FAILURE) ==> c.errorCode.Some?)
            && c.paymentMethod in p.paymentMethods && c.issuerBank in p.issuerBanks
            && 10.0 <= c.amount <= 1000.0
  {
  }

  /**
   * On failure the error code is the forced clustering code when one was set
   * and is non-empty, that is the dimension of the last clustering that fired;
   * otherwise it is one of the configured error codes.
   */
  lemma FailureErrorCode(counter: nat, scs: seq<Scenario>, p: Pools, d: Draws, now: real)
    requires DrawsFit(d, p, |scs|)
    ensures var c := GenerateSpec(counter, scs, p, d, now);
            var forced := FinalDraft(counter, scs, p, d).errorCode;
            c.status == Member(FAILURE) ==>
              (Truthy(forced) ==> c.errorCode == forced)
              && (!Truthy(forced) ==> c.errorCode.Some? && c.errorCode.value in p.errorCodes)
    ensures var c := GenerateSpec(counter, scs, p, d, now);
            c.status == Member(FAILURE) ==>
              (forall j :: LastClusterAt(scs, d.perScenario, counter, j) && scs[j].affected != ""
                           ==> c.errorCode == Some(scs[j].affected))
              && ((!exists i :: ClusterFiredAt(scs, d.perScenario, counter, i)) ==> c.errorCode.value in p.errorCodes)
  {
    FoldErrorCode(InitialDraft(d.baseLatency), scs, d.perScenario, counter,
                  p.issuerBanks[d.issuerIx], p.paymentMethods[d.methodIx]);
  }

  /** The retry count passed along is 0 unless a retry storm fired, and then in 1..4. */
  lemma GeneratedRetryCount(counter: nat, scs: seq<Scenario>, p: Pools, d: Draws, now: real)
    requires DrawsFit(d, p, |scs|)
    ensures var r := GenerateSpec(counter, scs, p, d, now).retryCount;
            (r == 0 <==> !exists i :: StormFiredAt(scs, d.perScenario, counter, i))
            && 0 <= r <= 4
  {
    FoldRetryCount(InitialDraft(d.baseLatency), scs, d.perScenario, counter,
                   p.issuerBanks[d.issuerIx], p.paymentMethods[d.methodIx]);
  }

  /** The generated signal's status is the enum's qualified name, so the metrics count it as neither. */
  lemma GeneratedStatusUnrecognized(counter: nat, scs: seq<Scenario>, p: Pools, d: Draws, now: real)
    requires DrawsFit(d, p, |scs|)
    ensures var s := ToSignal(GenerateSpec(counter, scs, p, d, now));
            (s.status == "PaymentStatus.SUCCESS" || s.status == "PaymentStatus.FAILURE")
            && !Recognized(s.status)
  {
    var c := GenerateSpec(counter, scs, p, d, now);
    assert c.status == Member(SUCCESS) || c.status == Member(FAILURE);
    assert ToSignal(c).status == StatusText(c.status);
    OutcomeStatusTexts();
  }

  /** Without any active scenario of a known type the payment succeeds iff the roll is under 0.85. */
  lemma BaselineOutcome(counter: nat, scs: seq<Scenario>, p: Pools, d: Draws, now: real)
    requires DrawsFit(d, p, |scs|)
    requires forall i :: 0 <= i < |scs| ==> Inert(scs[i], counter)
    ensures var c := GenerateSpec(counter, scs, p, d, now);
            (c.status == Member(SUCCESS) <==> d.outcomeRoll < 0.85)
            && c.latencyMs == (if d.baseLatency + d.noise > 100 then d.baseLatency + d.noise else 100)
            && c.retryCount == 0
  {
    FoldInert(InitialDraft(d.baseLatency), scs, d.perScenario, counter,
              p.issuerBanks[d.issuerIx], p.paymentMethods[d.methodIx]);
  }

  /** Every draw record of a batch fits the pools and the scenario list. */
  predicate AllDrawsFit(draws: seq<Draws>, p: Pools, scenarioCount: nat) {
    forall k :: 0 <= k < |draws| ==> DrawsFit(draws[k], p, scenarioCount)
  }

  /**
   * The payments of generate_batch from counter `start`: the k-th (from 0) is
   * the one generated for counter `start + k + 1` with the k-th clock reading
   * and draw record.
   */
  ghost function NthPayment(start: nat, scs: seq<Scenario>, p: Pools, draws: seq<Draws>, clock: seq<real>)
    : nat --> Signal
    requires |clock| == |draws|
  {
    (k: nat) requires k < |draws| && DrawsFit(draws[k], p, |scs|) =>
      ToSignal(GenerateSpec(start + k + 1, scs, p, draws[k], clock[k]))
  }

  lemma NthPaymentAt(start: nat, scs: seq<Scenario>, p: Pools, draws: seq<Draws>, clock: seq<real>, k: nat)
    requires |clock| == |draws| && k < |draws| && DrawsFit(draws[k], p, |scs|)
    ensures NthPayment(start, scs, p, draws, clock).requires(k)
    ensures NthPayment(start, scs, p, draws, clock)(k)
            == ToSignal(GenerateSpec(start + k + 1, scs, p, draws[k], clock[k]))
  {
  }

  /**
   * A batch produced this way holds, at position k, the payment generated for
   * counter `start + k + 1`; so its identifiers are consecutive and pairwise distinct.
   */
  lemma BatchPayments(start: nat, scs: seq<Scenario>, p: Pools, draws: seq<Draws>, clock: seq<real>,
                      batch: seq<Signal>)
    requires |clock| == |draws| && AllDrawsFit(draws, p, |scs|) && |batch| <= |draws|
    requires Produced(batch, NthPayment(start, scs, p, draws, clock))
    ensures forall k :: 0 <= k < |batch| ==>
              batch[k] == ToSignal(GenerateSpec(start + k + 1, scs, p, draws[k], clock[k]))
    ensures forall k :: 0 <= k < |batch| ==> batch[k].transactionId == TxnId(start + k + 1)
    ensures forall j, k :: 0 <= j < k < |batch| ==> batch[j].transactionId != batch[k].transactionId
  {
    forall k | 0 <= k < |batch|
      ensures batch[k] == ToSignal(GenerateSpec(start + k + 1, scs, p, draws[k], clock[k]))
      ensures batch[k].transactionId == TxnId(start + k + 1)
    {
      ProducedAt(batch, NthPayment(start, scs, p, draws, clock), k);
      NthPaymentAt(start, scs, p, draws, clock, k);
    }
    BatchIdsDistinct(start, batch);
  }

  /** `xs` lists the first |xs| values of `f`, in order. */
  ghost predicate Produced<T>(xs: seq<T>, f: nat --> T)
    decreases |xs|
  {
    xs == [] || (Produced(xs[..|xs| - 1], f) && f.requires(|xs| - 1) && xs[|xs| - 1] == f(|xs| - 1))
  }

  lemma ProducedAppend<T>(xs: seq<T>, x: T, f: nat --> T)
    requires Produced(xs, f) && f.requires(|xs|) && x == f(|xs|)
    ensures Produced(xs + [x], f)
  {
    assert (xs + [x])[..|xs|] == xs;
  }

  lemma {:induction false} ProducedAt<T>(xs: seq<T>, f: nat --> T, k: nat)
    requires Produced(xs, f) && k < |xs|
    ensures f.requires(k) && xs[k] == f(k)
    decreases |xs|
  {
    if k < |xs| - 1 {
      ProducedAt(xs[..|xs| - 1], f, k);
    }
  }

  // ---------------------------------------------------------------------------
  // The demonstration scenarios
  // ---------------------------------------------------------------------------

  /** The five scenarios setup_realistic_scenarios registers, in order. */
  function RealisticScenarios(): (r: seq<Scenario>)
    ensures |r| == 5 && SeveritiesInUnit(r)
    ensures forall i :: 0 <= i < |r| ==> r[i].start <= r[i].end && KindOf(r[i].kind) != Unrecognized
    ensures forall i, j :: 0 <= i < j < |r| ==> KindOf(r[i].kind) != KindOf(r[j].kind)
  {
    [NewScenario("issuer_degradation", "chase", 50, 100, 0.6),
     NewScenario("retry_storm", "global", 100, 50, 0.5),
     NewScenario("method_fatigue", "visa", 80, 80, 0.4),
     NewScenario("latency_spike", "global", 150, 30, 0.7),
     NewScenario("error_clustering", "E005_FRAUD_SUSPECTED", 180, 40, 0.25)]
  }

  /** The counters at which a scenario is active. */
  function ActiveCounters(sc: Scenario): (r: set<int>)
    ensures forall c :: c in r <==> Active(sc, c)
  {
    set c | sc.start <= c <= sc.end && Active(sc, c)
  }

  /** A window covers `end - start + 1` transactions; both ends count. */
  lemma {:induction false} WindowSize(sc: Scenario)
    requires sc.start <= sc.end
    ensures |ActiveCounters(sc)| == sc.end - sc.start + 1
    decreases sc.end - sc.start
  {
    if sc.start < sc.end {
      var shorter := sc.(end := sc.end - 1);
      WindowSize(shorter);
      assert ActiveCounters(sc) == ActiveCounters(shorter) + {sc.end};
    } else {
      assert ActiveCounters(sc) == {sc.start};
    }
  }

  /** The chase degradation covers transactions 50..150, that is 101 of them. */
  lemma ChaseWindow()
    ensures forall c :: Active(RealisticScenarios()[0], c) <==> 50 <= c <= 150
    ensures |ActiveCounters(RealisticScenarios()[0])| == 101
  {
    WindowSize(RealisticScenarios()[0]);
  }

  /**
   * Between transactions 80 and 99 only the chase degradation and the visa
   * fatigue are active, so for a chase+visa payment the two compound:
   * 0.85 * (1 - 0.6) * (1 - 0.4), with 180 ms added to the base latency.
   */
  lemma RealisticCompounding(counter: int, base: int, sds: seq<ScenarioDraw>)
    requires 80 <= counter <= 99 && |sds| == 5
    ensures var r := FoldScenarios(InitialDraft(base), RealisticScenarios(), sds, counter, "chase", "visa");
            r.successProb == 0.85 * (1.0 - 0.6) * (1.0 - 0.4) && r.baseLatency == base + 180
            && r.retryCount == 0 && r.errorCode == None
  {
    var scs := RealisticScenarios();
    var init := InitialDraft(base);
    assert Trunc(300.0 * 0.6) == 180;
    var d1 := ApplyScenario(init, scs[0], counter, "chase", "visa", sds[0]);
    var d2 := ApplyScenario(d1, scs[1], counter, "chase", "visa", sds[1]);
    var d3 := ApplyScenario(d2, scs[2], counter, "chase", "visa", sds[2]);
    assert FoldScenarios(init, scs[..1], sds[..1], counter, "chase", "visa") == d1 by {
      assert scs[..1][..0] == [];
    }
    assert FoldScenarios(init, scs[..2], sds[..2], counter, "chase", "visa") == d2 by {
      assert scs[..2][..1] == scs[..1] && sds[..2][..1] == sds[..1];
    }
    assert FoldScenarios(init, scs[..3], sds[..3], counter, "chase", "visa") == d3 by {
      assert scs[..3][..2] == scs[..2] && sds[..3][..2] == sds[..2];
    }
    assert FoldScenarios(init, scs[..4], sds[..4], counter, "chase", "visa") == d3 by {
      assert scs[..4][..3] == scs[..3] && sds[..4][..3] == sds[..3];
    }
    assert scs[..5] == scs && sds[..5] == sds;
    assert scs[..5][..4] == scs[..4] && sds[..5][..4] == sds[..4];
  }

  // ---------------------------------------------------------------------------
  // The simulator object
  // ---------------------------------------------------------------------------

  class PaymentSimulator {
    var paymentMethods: seq<string>
    var issuerBanks: seq<string>
    var processors: seq<string>
    var errorCodes: seq<string>
    var currencies: seq<string>
    var merchantCategories: seq<string>
    var degradationScenarios: seq<Scenario>
    var transactionCounter: nat

    function CurrentPools(): Pools
      reads this
    {
      Pools(paymentMethods, issuerBanks, processors, errorCodes, currencies, merchantCategories)
    }

    constructor ()
      ensures paymentMethods == ["visa", "mastercard", "amex", "discover", "paypal"]
      ensures issuerBanks == ["chase", "bofa", "wells_fargo", "citi", "capital_one"]
      ensures processors == ["stripe", "adyen", "braintree", "square"]
      ensures errorCodes == ["E001_INSUFFICIENT_FUNDS", "E002_CARD_DECLINED", "E003_NETWORK_ERROR",
                             "E004_TIMEOUT", "E005_FRAUD_SUSPECTED", "E006_INVALID_CARD"]
      ensures currencies == ["USD", "EUR", "GBP", "CAD"]
      ensures merchantCategories == ["retail", "travel", "food", "entertainment", "services"]
      ensures degradationScenarios == [] && transactionCounter == 0
    {
      paymentMethods := ["visa", "mastercard", "amex", "discover", "paypal"];
      issuerBanks := ["chase", "bofa", "wells_fargo", "citi", "capital_one"];
      processors := ["stripe", "adyen", "braintree", "square"];
      errorCodes := ["E001_INSUFFICIENT_FUNDS", "E002_CARD_DECLINED", "E003_NETWORK_ERROR",
                     "E004_TIMEOUT", "E005_FRAUD_SUSPECTED", "E006_INVALID_CARD"];
      currencies := ["USD", "EUR", "GBP", "CAD"];
      merchantCategories := ["retail", "travel", "food", "entertainment", "services"];
      degradationScenarios := [];
      transactionCounter := 0;
    }

    /** add_degradation_scenario: append one record; nothing is validated. */
    method AddDegradationScenario(scenarioType: string, affectedDimension: string,
                                  startAfter: int, duration: int, severity: real)
      modifies this`degradationScenarios
      ensures degradationScenarios
              == old(degradationScenarios) + [NewScenario(scenarioType, affectedDimension, startAfter, duration, severity)]
    {
      degradationScenarios := degradationScenarios + [Scenario(scenarioType, affectedDimension,
                                                               startAfter, startAfter + duration, severity)];
    }

    /**
     * The body of generate_payment's scenario loop: one scenario updates the
     * probability, latency, retry count and forced error code when the counter
     * is in its window. The if/elif chain on the type string is a match on KindOf.
     */
    static method ApplyDegradation(scenario: Scenario, sd: ScenarioDraw, counter: int,
                                   issuer: string, paymentMethod: string,
                                   successProb0: real, baseLatency0: int, retryCount0: int,
                                   errorCode0: Option<string>)
      returns (successProb: real, baseLatency: int, retryCount: int, errorCode: Option<string>)
      ensures Draft(successProb, baseLatency, retryCount, errorCode)
              == ApplyScenario(Draft(successProb0, baseLatency0, retryCount0, errorCode0),
                               scenario, counter, issuer, paymentMethod, sd)
    {
      successProb, baseLatency, retryCount, errorCode := successProb0, baseLatency0, retryCount0, errorCode0;
      if scenario.start <= counter <= scenario.end {
        match KindOf(scenario.kind)
        case IssuerDegradation =>
          if scenario.affected == issuer {
            successProb := successProb * (1.0 - scenario.severity);
            baseLatency := baseLatency + Trunc(300.0 * scenario.severity);
          }
        case MethodFatigue =>
          if scenario.affected == paymentMethod {
            successProb := successProb * (1.0 - scenario.severity);
          }
        case RetryStorm =>
          if sd.roll < scenario.severity {
            retryCount := sd.retries;
            successProb := successProb * 0.7;
          }
        case LatencySpike =>
          baseLatency := baseLatency + Trunc(1000.0 * scenario.severity);
        case ErrorClustering =>
          if sd.roll < scenario.severity {
            errorCode := Some(scenario.affected);
            successProb := 0.1;
          }
        case Unrecognized =>
      }
    }

    /** generate_payment's scenario loop: every registered scenario, in order. */
    static method ApplyDegradations(scs: seq<Scenario>, sds: seq<ScenarioDraw>, counter: int,
                                    issuer: string, paymentMethod: string,
                                    successProb0: real, baseLatency0: int, retryCount0: int,
                                    errorCode0: Option<string>)
      returns (successProb: real, baseLatency: int, retryCount: int, errorCode: Option<string>)
      requires |sds| == |scs|
      ensures Draft(successProb, baseLatency, retryCount, errorCode)
              == FoldScenarios(Draft(successProb0, baseLatency0, retryCount0, errorCode0),
                               scs, sds, counter, issuer, paymentMethod)
    {
      ghost var init := Draft(successProb0, baseLatency0, retryCount0, errorCode0);
      successProb, baseLatency, retryCount, errorCode := successProb0, baseLatency0, retryCount0, errorCode0;
      for i := 0 to |scs|
        invariant Draft(successProb, baseLatency, retryCount, errorCode)
                  == FoldScenarios(init, scs[..i], sds[..i], counter, issuer, paymentMethod)
      {
        FoldStep(init, scs, sds, i, counter, issuer, paymentMethod);
        successProb, baseLatency, retryCount, errorCode :=
          ApplyDegradation(scs[i], sds[i], counter, issuer, paymentMethod,
                           successProb, baseLatency, retryCount, errorCode);
      }
      assert scs[..|scs|] == scs && sds[..|scs|] == sds;
    }

    /** generate_payment: advance the counter, fold the scenarios, draw the outcome. */
    method GeneratePayment(now: real, d: Draws) returns (s: Signal)
      requires DrawsFit(d, CurrentPools(), |degradationScenarios|)
      modifies this`transactionCounter
      ensures CurrentPools() == old(CurrentPools()) && degradationScenarios == old(degradationScenarios)
      ensures transactionCounter == old(transactionCounter) + 1
      ensures s == ToSignal(GenerateSpec(transactionCounter, degradationScenarios, CurrentPools(), d, now))
    {
      transactionCounter := transactionCounter + 1;
      var counter := transactionCounter;

      var paymentMethod := paymentMethods[d.methodIx];
      var issuer := issuerBanks[d.issuerIx];
      var processor := processors[d.processorIx];

      var successProb := 0.85;
      var baseLatency := d.baseLatency;
      var retryCount := 0;
      var errorCode: Option<string> := None;

      var scs := degradationScenarios;
      successProb, baseLatency, retryCount, errorCode :=
        ApplyDegradations(scs, d.perScenario, counter, issuer, paymentMethod,
                          successProb, baseLatency, retryCount, errorCode);
      ghost var draft := FinalDraft(counter, scs, CurrentPools(), d);
      assert draft == Draft(successProb, baseLatency, retryCount, errorCode);

      var status;
      if d.outcomeRoll < successProb {
        status := SUCCESS;
        errorCode := None;
      } else {
        status := FAILURE;
        if !Truthy(errorCode) {
          errorCode := Some(errorCodes[d.errorIx]);
        }
      }

      var latency := baseLatency + d.noise;
      s := NewPaymentSignal(
        TxnId(counter),
        timestamp := now,
        status := Member(status),
        paymentMethod := Some(paymentMethod),
        issuerBank := Some(issuer),
        processor := Some(processor),
        amount := d.amount,
        currency := currencies[d.currencyIx],
        latencyMs := (if latency > 100 then latency else 100) as real,
        errorCode := errorCode,
        kwargs := map["retry_count" := IntArg(retryCount),
                      "merchant_category" := StrArg(merchantCategories[d.categoryIx]),
                      "risk_score" := RealArg(d.riskScore)]);
    }

    /**
     * generate_batch: `count` payments in a row (none when `count` is not
     * positive), with one clock reading and one draw record per payment.
     */
    method GenerateBatch(count: int, clock: seq<real>, draws: seq<Draws>) returns (batch: seq<Signal>)
      requires |clock| == |draws| == (if count > 0 then count else 0)
      requires AllDrawsFit(draws, CurrentPools(), |degradationScenarios|)
      modifies this`transactionCounter
      ensures CurrentPools() == old(CurrentPools()) && degradationScenarios == old(degradationScenarios)
      ensures transactionCounter == old(transactionCounter) + |draws|
      ensures |batch| == |draws|
      ensures Produced(batch, NthPayment(old(transactionCounter), degradationScenarios, CurrentPools(), draws, clock))
      ensures forall j, k :: 0 <= j < k < |batch| ==> batch[j].transactionId != batch[k].transactionId
    {
      ghost var start := transactionCounter;
      ghost var pools := CurrentPools();
      ghost var scs := degradationScenarios;
      ghost var nth := NthPayment(start, scs, pools, draws, clock);
      batch := [];
      for k := 0 to |draws|
        invariant CurrentPools() == pools && degradationScenarios == scs
        invariant transactionCounter == start + k
        invariant |batch| == k && Produced(batch, nth)
      {
        var s := GeneratePayment(clock[k], draws[k]);
        NthPaymentAt(start, scs, pools, draws, clock, k);
        ProducedAppend(batch, s, nth);
        batch := batch + [s];
      }
      BatchPayments(start, scs, pools, draws, clock, batch);
    }

    /** setup_realistic_scenarios: register the five demonstration scenarios. */
    method SetupRealisticScenarios()
      modifies this`degradationScenarios
      ensures degradationScenarios == old(degradationScenarios) + RealisticScenarios()
    {
      AddDegradationScenario("issuer_degradation", "chase", 50, 100, 0.6);
      AddDegradationScenario("retry_storm", "global", 100, 50, 0.5);
      AddDegradationScenario("method_fatigue", "visa", 80, 80, 0.4);
      AddDegradationScenario("latency_spike", "global", 150, 30, 0.7);
      AddDegradationScenario("error_clustering", "E005_FRAUD_SUSPECTED", 180, 40, 0.25);
    }
  }
}
