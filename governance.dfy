/**
 * The governance guardrail: a rate limit and a high-risk veto in front of every
 * autonomous action, over an append-only log of approval times.
 *
 * Clock readings are whole seconds (`int`); the window test reads only the
 * within-day seconds component of the difference, as `timedelta.seconds` does.
 */
module Governance {

  const SecondsPerDay := 86400
  const SecondsPerHour := 3600

  const RateLimited := "Rate limit exceeded"
  const NeedsApproval := "High-risk action requires approval"
  const Allowed := "Allowed"

  /** The part of a decision the guardrail reads: `decision.action_type.value`. */
  datatype ActionType = ActionType(value: string)
  datatype Decision = Decision(actionType: ActionType)

  /** `(now - a).seconds`: the seconds component of the difference, always in 0..86399. */
  function DeltaSeconds(now: int, a: int): (s: int)
    ensures 0 <= s < SecondsPerDay
    ensures (now - a - s) % SecondsPerDay == 0
  {
    (now - a) % SecondsPerDay
  }

  /** The comprehension filter's condition. */
  predicate InLastHour(now: int, a: int) {
    DeltaSeconds(now, a) < SecondsPerHour
  }

  /** `last_hour`: the log entries, in order, that pass the window test. */
  function LastHour(log: seq<int>, now: int): (r: seq<int>)
    ensures |r| <= |log|
    ensures forall a :: a in r <==> a in log && InLastHour(now, a)
  {
    if log == [] then []
    else
      var init := LastHour(log[..|log| - 1], now);
      var a := log[|log| - 1];
      assert log == log[..|log| - 1] + [a];
      if InLastHour(now, a) then init + [a] else init
  }

  /**
   * The window keeps every occurrence of a counted entry and drops every
   * occurrence of the others, so `len(last_hour)` counts approvals sharing one
   * instant once each.
   */
  lemma {:induction false} LastHourCounts(log: seq<int>, now: int)
    ensures forall a :: multiset(LastHour(log, now))[a] == if InLastHour(now, a) then multiset(log)[a] else 0
  {
    if log != [] {
      var init := log[..|log| - 1];
      var e := log[|log| - 1];
      assert log == init + [e];
      LastHourCounts(init, now);
      assert multiset(log) == multiset(init) + multiset{e};
      if InLastHour(now, e) {
        assert LastHour(log, now) == LastHour(init, now) + [e];
        assert multiset(LastHour(log, now)) == multiset(LastHour(init, now)) + multiset{e};
      } else {
        assert LastHour(log, now) == LastHour(init, now);
      }
    }
  }

  // ---------------------------------------------------------------------------
  // The window test
  // ---------------------------------------------------------------------------

  /** An entry from the last 3600 seconds is counted; one 3600 to 86399 seconds old is not. */
  lemma WindowWithinDay(now: int, a: int)
    requires 0 <= now - a < SecondsPerDay
    ensures InLastHour(now, a) <==> now - a < SecondsPerHour
  {
  }

  /**
   * Only the within-day part of the difference is read, so an entry exactly
   * one day older than a counted entry is counted again.
   */
  lemma {:induction false} WindowRepeatsDaily(now: int, a: int, days: nat)
    ensures InLastHour(now, a - days * SecondsPerDay) <==> InLastHour(now, a)
  {
    if days > 0 {
      WindowRepeatsDaily(now, a, days - 1);
      assert now - (a - days * SecondsPerDay) == (now - (a - (days - 1) * SecondsPerDay)) + SecondsPerDay;
    }
  }

  /**
   * An entry stamped in the future by at most 23 hours is not counted: its
   * negative difference wraps to 3600 seconds or more.
   */
  lemma FutureEntryNotCounted(now: int, a: int)
    requires 0 < a - now <= SecondsPerDay - SecondsPerHour
    ensures !InLastHour(now, a)
  {
    assert DeltaSeconds(now, a) == now - a + SecondsPerDay;
  }

  // ---------------------------------------------------------------------------
  // One call of allow
  // ---------------------------------------------------------------------------

  /** The pair `allow` returns, together with the log after the call. */
  datatype Outcome = Outcome(approved: bool, reason: string, log: seq<int>)

  /**
   * `allow` on a log, with the configured quota and high-risk set: the rate
   * limit is checked first, then the high-risk set, and only an approval is
   * recorded.
   */
  function Decide(log: seq<int>, maxPerHour: int, highRisk: set<string>, decision: Decision, now: int)
    : (o: Outcome)
    ensures o.approved <==> |LastHour(log, now)| < maxPerHour && decision.actionType.value !in highRisk
    ensures o.approved ==> o.reason == Allowed && o.log == log + [now]
    ensures !o.approved ==> o.log == log
    ensures |LastHour(log, now)| >= maxPerHour ==> o.reason == RateLimited
    ensures |LastHour(log, now)| < maxPerHour && decision.actionType.value in highRisk
            ==> o.reason == NeedsApproval
  {
    if |LastHour(log, now)| >= maxPerHour then Outcome(false, RateLimited, log)
    else if decision.actionType.value in highRisk then Outcome(false, NeedsApproval, log)
    else Outcome(true, Allowed, log + [now])
  }

  /** The three reasons are distinct, so the reason tells which test rejected. */
  lemma ReasonsDistinct()
    ensures RateLimited != NeedsApproval && RateLimited != Allowed && NeedsApproval != Allowed
  {
    assert RateLimited[0] != NeedsApproval[0] && RateLimited[0] != Allowed[0];
    assert NeedsApproval[0] != Allowed[0];
  }

  /** A high-risk action is never approved, whatever the log and the clock. */
  lemma HighRiskNeverApproved(log: seq<int>, maxPerHour: int, highRisk: set<string>, decision: Decision,
                              now: int)
    requires decision.actionType.value in highRisk
    ensures !Decide(log, maxPerHour, highRisk, decision, now).approved
    ensures Decide(log, maxPerHour, highRisk, decision, now).log == log
  {
  }

  /** At quota even a high-risk action is reported as rate-limited: the rate limit is checked first. */
  lemma RateLimitPrecedesHighRisk(log: seq<int>, maxPerHour: int, highRisk: set<string>, now: int)
    requires |LastHour(log, now)| >= maxPerHour && "DISABLE_PAYMENT_METHOD" in highRisk
    ensures Decide(log, maxPerHour, highRisk, Decision(ActionType("DISABLE_PAYMENT_METHOD")), now).reason
            == RateLimited
  {
  }

  // ---------------------------------------------------------------------------
  // A sequence of calls
  // ---------------------------------------------------------------------------

  /** One call of allow: the decision and the clock reading at that moment. */
  datatype Call = Call(decision: Decision, now: int)

  /** The log after the calls, one after the other, starting from `log`. */
  function LogAfter(log: seq<int>, maxPerHour: int, highRisk: set<string>, calls: seq<Call>): (r: seq<int>)
    ensures |log| <= |r| <= |log| + |calls|
    ensures r[..|log|] == log
  {
    if calls == [] then log
    else
      var n := |calls| - 1;
      var before := LogAfter(log, maxPerHour, highRisk, calls[..n]);
      Decide(before, maxPerHour, highRisk, calls[n].decision, calls[n].now).log
  }

  /** The outcome of call `k` of the sequence. */
  function OutcomeOf(log: seq<int>, maxPerHour: int, highRisk: set<string>, calls: seq<Call>, k: nat): Outcome
    requires k < |calls|
  {
    Decide(LogAfter(log, maxPerHour, highRisk, calls[..k]), maxPerHour, highRisk,
           calls[k].decision, calls[k].now)
  }

  /** The number of approved calls in the sequence. */
  function Approvals(log: seq<int>, maxPerHour: int, highRisk: set<string>, calls: seq<Call>): (n: nat)
    ensures n <= |calls|
  {
    if calls == [] then 0
    else
      var k := |calls| - 1;
      Approvals(log, maxPerHour, highRisk, calls[..k])
      + (if OutcomeOf(log, maxPerHour, highRisk, calls, k).approved then 1 else 0)
  }

  lemma LogAfterStep(log: seq<int>, maxPerHour: int, highRisk: set<string>, calls: seq<Call>, k: nat)
    requires k < |calls|
    ensures LogAfter(log, maxPerHour, highRisk, calls[..k + 1])
            == OutcomeOf(log, maxPerHour, highRisk, calls, k).log
  {
    assert calls[..k + 1][..k] == calls[..k];
  }

  /** Rejected attempts never consume quota: the log grows by exactly the number of approvals. */
  lemma {:induction false} LogCountsApprovals(log: seq<int>, maxPerHour: int, highRisk: set<string>,
                                              calls: seq<Call>)
    ensures |LogAfter(log, maxPerHour, highRisk, calls)| == |log| + Approvals(log, maxPerHour, highRisk, calls)
  {
    if calls != [] {
      var k := |calls| - 1;
      LogCountsApprovals(log, maxPerHour, highRisk, calls[..k]);
      LogAfterStep(log, maxPerHour, highRisk, calls, k);
      assert calls[..k + 1] == calls;
    }
  }

  /** With one clock reading throughout, every logged entry falls in the window. */
  lemma {:induction false} SameInstantAllCounted(log: seq<int>, now: int)
    requires forall i :: 0 <= i < |log| ==> log[i] == now
    ensures LastHour(log, now) == log
  {
    if log != [] {
      var init := log[..|log| - 1];
      SameInstantAllCounted(init, now);
      assert log == init + [now];
    }
  }

  /** `n` calls at the one instant `now`. */
  predicate AtInstant(calls: seq<Call>, now: int) {
    forall i :: 0 <= i < |calls| ==> calls[i].now == now
  }

  /** No call of the sequence is a high-risk action. */
  predicate NoneHighRisk(calls: seq<Call>, highRisk: set<string>) {
    forall i :: 0 <= i < |calls| ==> calls[i].decision.actionType.value !in highRisk
  }

  /** At a fixed instant and from an empty log, the log fills up to the quota with that instant. */
  lemma {:induction false} QuotaLogAtOneInstant(maxPerHour: nat, highRisk: set<string>, calls: seq<Call>,
                                                now: int)
    requires AtInstant(calls, now) && NoneHighRisk(calls, highRisk)
    ensures var r := LogAfter([], maxPerHour, highRisk, calls);
            (forall i :: 0 <= i < |r| ==> r[i] == now)
            && |r| == (if |calls| < maxPerHour then |calls| else maxPerHour)
  {
    if calls != [] {
      var k := |calls| - 1;
      var init := calls[..k];
      assert AtInstant(init, now) && NoneHighRisk(init, highRisk) by {
        assert forall i :: 0 <= i < k ==> init[i] == calls[i];
      }
      QuotaLogAtOneInstant(maxPerHour, highRisk, init, now);
      var before := LogAfter([], maxPerHour, highRisk, init);
      SameInstantAllCounted(before, now);
      var o := Decide(before, maxPerHour, highRisk, calls[k].decision, now);
      assert o.approved <==> |before| < maxPerHour;
      assert LogAfter([], maxPerHour, highRisk, calls) == o.log;
    }
  }

  /**
   * At a fixed instant and from an empty log, ordinary calls are approved
   * until the quota is reached and rate-limited from then on.
   */
  lemma QuotaAtOneInstant(maxPerHour: nat, highRisk: set<string>, calls: seq<Call>, now: int, k: nat)
    requires AtInstant(calls, now) && NoneHighRisk(calls, highRisk) && k < |calls|
    ensures OutcomeOf([], maxPerHour, highRisk, calls, k).approved <==> k < maxPerHour
    ensures k >= maxPerHour ==> OutcomeOf([], maxPerHour, highRisk, calls, k).reason == RateLimited
  {
    var init := calls[..k];
    assert AtInstant(init, now) && NoneHighRisk(init, highRisk) by {
      assert forall i :: 0 <= i < k ==> init[i] == calls[i];
    }
    QuotaLogAtOneInstant(maxPerHour, highRisk, init, now);
    SameInstantAllCounted(LogAfter([], maxPerHour, highRisk, init), now);
  }

  /** The default quota of five: five approvals at one instant, and the sixth call is rate-limited. */
  lemma SixthCallRateLimited(calls: seq<Call>, now: int)
    requires |calls| == 6 && AtInstant(calls, now) && NoneHighRisk(calls, {"DISABLE_PAYMENT_METHOD"})
    ensures forall k :: 0 <= k < 5 ==> OutcomeOf([], 5, {"DISABLE_PAYMENT_METHOD"}, calls, k).approved
    ensures OutcomeOf([], 5, {"DISABLE_PAYMENT_METHOD"}, calls, 5).reason == RateLimited
    ensures LogAfter([], 5, {"DISABLE_PAYMENT_METHOD"}, calls) == [now, now, now, now, now]
  {
    forall k | 0 <= k < 6
      ensures OutcomeOf([], 5, {"DISABLE_PAYMENT_METHOD"}, calls, k).approved <==> k < 5
      ensures k == 5 ==> OutcomeOf([], 5, {"DISABLE_PAYMENT_METHOD"}, calls, k).reason == RateLimited
    {
      QuotaAtOneInstant(5, {"DISABLE_PAYMENT_METHOD"}, calls, now, k);
    }
    QuotaLogAtOneInstant(5, {"DISABLE_PAYMENT_METHOD"}, calls, now);
    ghost var r := LogAfter([], 5, {"DISABLE_PAYMENT_METHOD"}, calls);
    assert r == [r[0], r[1], r[2], r[3], r[4]];
  }

  /**
   * A rejected high-risk attempt on an empty log leaves the whole quota: a
   * following ordinary action at the same moment is approved and is then the
   * only entry.
   */
  lemma HighRiskAttemptKeepsQuota(maxPerHour: int, highRisk: set<string>, risky: Decision, ordinary: Decision,
                                  now: int)
    requires maxPerHour >= 1
    requires risky.actionType.value in highRisk && ordinary.actionType.value !in highRisk
    ensures var first := Decide([], maxPerHour, highRisk, risky, now);
            var second := Decide(first.log, maxPerHour, highRisk, ordinary, now);
            first.reason == NeedsApproval && first.log == []
            && second.approved && second.log == [now]
  {
  }

  // ---------------------------------------------------------------------------
  // The guardrail object
  // ---------------------------------------------------------------------------

  class GovernanceGuardrails {
    var maxAutonomousActionsPerHour: int
    var highRiskActions: set<string>
    var actionLog: seq<int>

    constructor ()
      ensures maxAutonomousActionsPerHour == 5
      ensures highRiskActions == {"DISABLE_PAYMENT_METHOD"}
      ensures actionLog == []
    {
      maxAutonomousActionsPerHour := 5;
      highRiskActions := {"DISABLE_PAYMENT_METHOD"};
      actionLog := [];
    }

    /** allow: the verdict and reason for `decision` at clock reading `now`. */
    method Allow(decision: Decision, now: int) returns (approved: bool, reason: string)
      modifies this`actionLog
      ensures Outcome(approved, reason, actionLog)
              == Decide(old(actionLog), maxAutonomousActionsPerHour, highRiskActions, decision, now)
      ensures old(actionLog) <= actionLog
    {
      var lastHour := LastHour(actionLog, now);
      if |lastHour| >= maxAutonomousActionsPerHour {
        return false, RateLimited;
      }
      if decision.actionType.value in highRiskActions {
        return false, NeedsApproval;
      }
      actionLog := actionLog + [now];
      return true, Allowed;
    }
  }
}
