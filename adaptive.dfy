/**
 * The adaptive success threshold: one real-valued field that tightens by 5%
 * when the observed success rate is below 0.7, loosens by 5% when it is above
 * 0.9, and is left alone in between. Nothing clamps it.
 */
module Adaptive {

  const InitialThreshold := 0.8
  const LowRate := 0.7
  const HighRate := 0.9
  const Tighten := 0.95
  const Loosen := 1.05

  /** `metrics.get("success_rate", 0)`. */
  function SuccessRateOf(metrics: map<string, real>): (sr: real)
    ensures "success_rate" in metrics ==> sr == metrics["success_rate"]
    ensures "success_rate" !in metrics ==> sr == 0.0
  {
    if "success_rate" in metrics then metrics["success_rate"] else 0.0
  }

  /** The new threshold after one update with success rate `sr`. */
  function Step(t: real, sr: real): real {
    if sr < LowRate then t * Tighten
    else if sr > HighRate then t * Loosen
    else t
  }

  /**
   * For a positive threshold: a low rate strictly lowers it and keeps it
   * positive, a high rate strictly raises it, and the band from 0.7 to 0.9,
   * both ends included, leaves it as it is.
   */
  lemma StepDirection(t: real, sr: real)
    requires t > 0.0
    ensures sr < 0.7 ==> 0.0 < Step(t, sr) < t
    ensures sr > 0.9 ==> Step(t, sr) > t
    ensures 0.7 <= sr <= 0.9 ==> Step(t, sr) == t
    ensures Step(t, sr) > 0.0
  {
  }

  /** A missing success rate reads as 0, so the threshold tightens. */
  lemma MissingRateTightens(t: real, metrics: map<string, real>)
    requires "success_rate" !in metrics
    ensures Step(t, SuccessRateOf(metrics)) == t * 0.95
  {
  }

  /** `n` updates in a row, all with the same success rate. */
  function Repeat(t: real, sr: real, n: nat): real {
    if n == 0 then t else Step(Repeat(t, sr, n - 1), sr)
  }

  function Pow(b: real, n: nat): real {
    if n == 0 then 1.0 else Pow(b, n - 1) * b
  }

  /** Repeated low rates give exactly `t * 0.95^n`; from the start, `0.8 * 0.95^n`. */
  lemma {:induction false} RepeatLow(t: real, sr: real, n: nat)
    requires sr < 0.7
    ensures Repeat(t, sr, n) == t * Pow(0.95, n)
  {
    if n > 0 {
      RepeatLow(t, sr, n - 1);
      assert Repeat(t, sr, n) == (t * Pow(0.95, n - 1)) * 0.95;
    }
  }

  /** Repeated high rates give exactly `t * 1.05^n`. */
  lemma {:induction false} RepeatHigh(t: real, sr: real, n: nat)
    requires sr > 0.9
    ensures Repeat(t, sr, n) == t * Pow(1.05, n)
  {
    if n > 0 {
      RepeatHigh(t, sr, n - 1);
      assert Repeat(t, sr, n) == (t * Pow(1.05, n - 1)) * 1.05;
    }
  }

  /** Within the band the threshold never moves. */
  lemma {:induction false} RepeatInBand(t: real, sr: real, n: nat)
    requires 0.7 <= sr <= 0.9
    ensures Repeat(t, sr, n) == t
  {
    if n > 0 {
      RepeatInBand(t, sr, n - 1);
    }
  }

  /** Whatever the repeated rate, a positive threshold stays positive. */
  lemma {:induction false} RepeatPositive(t: real, sr: real, n: nat)
    requires t > 0.0
    ensures Repeat(t, sr, n) > 0.0
  {
    if n > 0 {
      RepeatPositive(t, sr, n - 1);
      StepDirection(Repeat(t, sr, n - 1), sr);
    }
  }

  /** Under low rates a positive threshold strictly decreases with every update and stays positive. */
  lemma {:induction false} LowRatesDecrease(t: real, sr: real, n: nat)
    requires t > 0.0 && sr < 0.7
    ensures 0.0 < Repeat(t, sr, n + 1) < Repeat(t, sr, n)
  {
    RepeatPositive(t, sr, n);
    StepDirection(Repeat(t, sr, n), sr);
  }

  /** Under high rates a positive threshold strictly increases with every update. */
  lemma HighRatesIncrease(t: real, sr: real, n: nat)
    requires t > 0.0 && sr > 0.9
    ensures Repeat(t, sr, n + 1) > Repeat(t, sr, n)
  {
    RepeatPositive(t, sr, n);
    StepDirection(Repeat(t, sr, n), sr);
  }

  /** Successive updates with the rates of `rates`, oldest first. */
  function Run(t: real, rates: seq<real>): real
    decreases |rates|
  {
    if rates == [] then t else Run(Step(t, rates[0]), rates[1..])
  }

  /** Whatever the rates, a positive threshold stays positive. */
  lemma {:induction false} RunPositive(t: real, rates: seq<real>)
    requires t > 0.0
    ensures Run(t, rates) > 0.0
    decreases |rates|
  {
    if rates != [] {
      StepDirection(t, rates[0]);
      RunPositive(Step(t, rates[0]), rates[1..]);
    }
  }

  /** Running over `rates` and then one more rate is one more update. */
  lemma {:induction false} RunSnoc(t: real, rates: seq<real>, sr: real)
    ensures Run(t, rates + [sr]) == Step(Run(t, rates), sr)
    decreases |rates|
  {
    if rates == [] {
      assert Run(t, [sr]) == Run(Step(t, sr), []);
    } else {
      assert (rates + [sr])[1..] == rates[1..] + [sr];
      RunSnoc(Step(t, rates[0]), rates[1..], sr);
    }
  }

  /** How many of the rates are below 0.7. */
  function CountLow(rates: seq<real>): (n: nat)
    ensures n <= |rates|
    decreases |rates|
  {
    if rates == [] then 0 else (if rates[0] < LowRate then 1 else 0) + CountLow(rates[1..])
  }

  /** How many of the rates are above 0.9. */
  function CountHigh(rates: seq<real>): (n: nat)
    ensures n <= |rates|
    decreases |rates|
  {
    if rates == [] then 0 else (if rates[0] > HighRate then 1 else 0) + CountHigh(rates[1..])
  }

  /** Two updates give the same threshold in either order. */
  lemma StepsCommute(t: real, s1: real, s2: real)
    ensures Step(Step(t, s1), s2) == Step(Step(t, s2), s1)
  {
  }

  /** An update before a repeated run is the same as one after it. */
  lemma {:induction false} StepRepeatCommute(t: real, sr: real, n: nat, s2: real)
    ensures Repeat(Step(t, s2), sr, n) == Step(Repeat(t, sr, n), s2)
  {
    if n > 0 {
      StepRepeatCommute(t, sr, n - 1, s2);
      StepsCommute(Repeat(t, sr, n - 1), sr, s2);
    }
  }

  /**
   * Order does not matter: a run ends where the low rates applied first,
   * all together, and then the high rates would leave the threshold.
   */
  lemma {:induction false} RunRegroups(t: real, rates: seq<real>)
    ensures Run(t, rates) == Repeat(Repeat(t, 0.0, CountLow(rates)), 1.0, CountHigh(rates))
    decreases |rates|
  {
    if rates != [] {
      var sr, rest := rates[0], rates[1..];
      var l, h := CountLow(rest), CountHigh(rest);
      RunRegroups(Step(t, sr), rest);
      if sr < LowRate {
        assert Step(t, sr) == Step(t, 0.0);
        StepRepeatCommute(t, 0.0, l, 0.0);
      } else if sr > HighRate {
        assert Step(t, sr) == Step(t, 1.0);
        StepRepeatCommute(t, 0.0, l, 1.0);
        StepRepeatCommute(Repeat(t, 0.0, l), 1.0, h, 1.0);
      }
    }
  }

  /** The closed form `t * 0.95^low * 1.05^high`. */
  function Scaled(t: real, low: nat, high: nat): real {
    t * Pow(0.95, low) * Pow(1.05, high)
  }

  /** `low` lowering updates and then `high` raising ones reach the closed form. */
  lemma RepeatsScale(t: real, low: nat, high: nat)
    ensures Repeat(Repeat(t, 0.0, low), 1.0, high) == Scaled(t, low, high)
  {
    RepeatLow(t, 0.0, low);
    RepeatHigh(Repeat(t, 0.0, low), 1.0, high);
  }

  /**
   * Whatever the rates and their order, the threshold ends at
   * `t * 0.95^low * 1.05^high`, counting the low and the high rates.
   */
  lemma RunExact(t: real, rates: seq<real>)
    ensures Run(t, rates) == Scaled(t, CountLow(rates), CountHigh(rates))
  {
    RunRegroups(t, rates);
    RepeatsScale(t, CountLow(rates), CountHigh(rates));
  }

  /** `0.95^n * (19 + n) <= 19`, that is `0.95^n <= 1 / (1 + n/19)`. */
  lemma {:induction false} TightenBound(n: nat)
    ensures 0.0 <= Pow(0.95, n) && Pow(0.95, n) * (19.0 + n as real) <= 19.0
  {
    if n > 0 {
      TightenBound(n - 1);
      var p := Pow(0.95, n - 1);
      assert Pow(0.95, n) * (19.0 + n as real) == p * (18.05 + 0.95 * n as real);
      assert p * (18.05 + 0.95 * n as real) <= p * (18.0 + n as real);
    }
  }

  /** Bernoulli's inequality for 1.05: `1.05^n >= 1 + n/20`. */
  lemma {:induction false} LoosenBound(n: nat)
    ensures Pow(1.05, n) >= 1.0 + n as real / 20.0
  {
    if n > 0 {
      LoosenBound(n - 1);
      var p := Pow(1.05, n - 1);
      assert Pow(1.05, n) == p + p / 20.0;
      assert p / 20.0 >= 1.0 / 20.0;
    }
  }

  /** There is no positive floor: repeated low rates drive the threshold below any positive bound. */
  lemma NoPositiveFloor(t: real, sr: real, eps: real)
    requires t > 0.0 && sr < 0.7 && eps > 0.0
    ensures exists n: nat :: Repeat(t, sr, n) < eps
  {
    var n: nat := (19.0 * t / eps).Floor + 1;
    TightenBound(n);
    RepeatLow(t, sr, n);
    var p := Pow(0.95, n);
    assert eps * (19.0 + n as real) > 19.0 * t by {
      assert n as real > 19.0 * t / eps;
      assert eps * (n as real) > 19.0 * t;
    }
    assert t * p * (19.0 + n as real) <= 19.0 * t;
    assert Repeat(t, sr, n) < eps;
  }

  /** There is no ceiling: repeated high rates drive the threshold above any bound. */
  lemma NoCeiling(t: real, sr: real, bound: real)
    requires t > 0.0 && sr > 0.9
    ensures exists n: nat :: Repeat(t, sr, n) > bound
  {
    if bound < t {
      assert Repeat(t, sr, 0) > bound;
    } else {
      var m := 20.0 * bound / t;
      assert m > 0.0;
      var n: nat := m.Floor + 1;
      LoosenBound(n);
      RepeatHigh(t, sr, n);
      var q := n as real / 20.0;
      assert t * q > bound by {
        assert n as real > m;
        assert q > m / 20.0;
        assert t * q > t * (m / 20.0);
        assert t * (m / 20.0) == bound;
      }
      var p := Pow(1.05, n);
      assert p - (1.0 + q) >= 0.0;
      assert t * p - t * (1.0 + q) == t * (p - (1.0 + q));
      assert Repeat(t, sr, n) > bound;
    }
  }

  /** AdaptivePolicy: the threshold the agent steers by. */
  class AdaptivePolicy {
    var successThreshold: real

    constructor ()
      ensures successThreshold == InitialThreshold
    {
      successThreshold := 0.8;
    }

    /** update: adjust the threshold from the metrics' success rate and return the new value. */
    method Update(metrics: map<string, real>) returns (threshold: real)
      modifies this
      ensures successThreshold == Step(old(successThreshold), SuccessRateOf(metrics))
      ensures threshold == successThreshold
    {
      var sr := if "success_rate" in metrics then metrics["success_rate"] else 0.0;
      if sr < 0.7 {
        successThreshold := successThreshold * 0.95;
      } else if sr > 0.9 {
        successThreshold := successThreshold * 1.05;
      }
      return successThreshold;
    }
  }
}
