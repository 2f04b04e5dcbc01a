# Payment-operations feedback loop, modelled in Dafny

This project models the core of a payment-operations agent. The core has four parts:

- a degradation-scenario simulator that generates synthetic payment signals;
- an observer that stores those signals and turns them into health metrics;
- an adaptive policy that moves a success threshold according to the observed success rate;
- a governance guardrail that rate-limits autonomous actions and vetoes high-risk ones.

There is one Dafny module per source file:

- `Agent` (core/agent.py): the `PaymentSignal` record, `calculate_metrics`, and the `AgentMemory`, `PaymentObserver` and `PaymentOpsAgent` classes.
- `Simulator` (simulation/simulator.py): `PaymentSimulator`, with its scenario loop, transaction identifiers and demonstration scenarios.
- `Governance` (governance.py): `GovernanceGuardrails.allow`.
- `Adaptive` (adaptive.py): `AdaptivePolicy.update`.
- `Feedback` joins them and states what happens when the simulator's output is fed through the observer into the policy.

Objects whose fields the source updates in place are Dafny classes:

- `PaymentSimulator`: its scenario list and transaction counter.
- `PaymentObserver`: the signal history.
- `AgentMemory`: the recent signals.
- `PaymentOpsAgent`: its `running` flag.
- `GovernanceGuardrails`: the action log.
- `AdaptivePolicy`: the threshold.

What each method's contract is stated against:

- `PaymentSimulator.AddDegradationScenario`: `NewScenario`.
- `PaymentSimulator.ApplyDegradation`: `ApplyScenario`.
- `PaymentSimulator.ApplyDegradations`: `FoldScenarios`.
- `PaymentSimulator.GeneratePayment`: `GenerateSpec` and `ToSignal`.
- `PaymentSimulator.GenerateBatch`: `NthPayment`.
- `PaymentSimulator.SetupRealisticScenarios`: `RealisticScenarios`.
- `GovernanceGuardrails.Allow`: `Decide`.
- `AdaptivePolicy.Update`: `Step`.
- `PaymentObserver.Observe` and `PaymentOpsAgent.ProcessPaymentSignal`: the new state directly, as the old lists with the signal appended.
- `PaymentOpsAgent.Start` and `Stop`: the new state directly, as the `running` flag.

`PaymentObserver.CalculateMetrics` is a function that returns `MetricsOf` of the history. The properties of all these functions are proved as lemmas about them.

Randomness and the clock are inputs:

- Every `random.*` call of one `generate_payment` is a field of a `Draws` record. `DrawsFit` constrains each field to the range that call can return, for example the pool indices to the pool sizes and `10.0 <= amount <= 1000.0`.
- Each registered scenario has its own `ScenarioDraw` slot, used only when that scenario consumes a draw.
- `datetime.now()` is a `now` parameter. It is a real in the simulator and whole seconds in the guardrail.

Behaviour of the code that the model keeps, where it differs from what the names, comments and docstrings suggest:

- **Status is stored as `str(status)`.** The code stores `str(status)` (core/agent.py:39). `PaymentStatus` is a `(str, Enum)` mix-in, so `str(PaymentStatus.SUCCESS)` is `"PaymentStatus.SUCCESS"`, not `"success"`. The model represents a status argument either as plain text or as an enum member (`StatusArg`).
  - `calculate_metrics` compares the stored status with `"success"` and `"failure"` (core/agent.py:76-77). It therefore counts neither status on signals built from enum members, which includes every simulated payment and the default status.
  - `Feedback.SimulatedHistoryTightens` proves the consequence: over any simulated batch, the success rate is 0 and the adaptive policy tightens its threshold.
- **Extra keyword arguments are dropped.** `PaymentSignal.__init__` swallows extra keyword arguments (core/agent.py:34). So the `retry_count`, `merchant_category` and `risk_score` the simulator passes (simulation/simulator.py:103-105) are not part of the stored signal. The retry count is still modelled inside the generator (`PaymentCall`), and its properties are stated there.
- **Scenarios are not validated.** `add_degradation_scenario` accepts any severity and any duration. A scenario with an unknown type is silently ignored. Lemmas that need a severity in [0, 1] take it as a precondition.
- **The clustering order matters.** `error_clustering` overwrites the success probability with 0.1 and does not multiply it, so the order in which scenarios are registered matters (`ClusteringOrderSensitive`).
- **Truncation and the error-code test.** `int(300 * severity)` truncates toward zero (`Trunc`). `if not error_code` also treats a forced empty code as unset (`Truthy`).
- **The one-hour window.** The guardrail's window test is `(now - a).seconds < 3600`. `timedelta.seconds` is the seconds component of the difference modulo one day, so entries that are a whole number of days old count again. Entries that lie in the future usually do not count (`DeltaSeconds`, `WindowRepeatsDaily`, `FutureEntryNotCounted`).
- **The action log.** Only approved actions are appended to the log, and it is never pruned.
- **No clamping.** The adaptive threshold has no floor and no ceiling (`NoPositiveFloor`, `NoCeiling`).

## Model

| member | source | states |
|---|---|---|
| Agent.NewPaymentSignal | core/agent.py:22-45 | The signal keeps the transaction id, and its status is the `str()` of the status argument (for an enum member, its qualified name) |
| Agent.StatusText | core/agent.py:39 | `str(status)`: plain text is kept as it is; an enum member's text differs from the member's value and is neither "success" nor "failure" |
| Agent.OutcomeStatusTexts | core/agent.py:39 | The members SUCCESS and FAILURE are stored as "PaymentStatus.SUCCESS" and "PaymentStatus.FAILURE" |
| Agent.TextStatusKept | core/agent.py:39 | A status given as plain text is stored unchanged |
| Agent.ExtraArgumentsDropped | core/agent.py:34-45 | Extra keyword arguments leave the signal exactly as it is without them |
| Agent.DefaultSignal | core/agent.py:22-45 | The defaults: amount 0, "USD", latency 0, timestamp 0, no error, method, processor or issuer, and a default status that is not recognized |
| Agent.CountStatus | core/agent.py:76-77 | The number of signals with a given status is at most the number of signals |
| Agent.CountUnrecognized | core/agent.py:76-77 | The number of signals counted as neither success nor failure is at most the number of signals |
| Agent.CountPartition | core/agent.py:76-77 | Success count plus failure count plus unrecognized count is the total |
| Agent.NoneUnrecognized | core/agent.py:76-77 | When every status is "success" or "failure", no signal is unrecognized |
| Agent.SumLatencyBounds | core/agent.py:85 | When every latency lies between lo and hi, the latency sum lies between n·lo and n·hi |
| Agent.MetricsOf | core/agent.py:62-87 | Volume is the history length; an empty history gives the zero metrics; the counts are the status counts and partition the volume with the unrecognized ones; both rates lie in [0, 1]; the retry rate is 0 |
| Agent.CountsCoverVolumeIff | core/agent.py:76-82 | Success plus failure counts equal the volume exactly when every status is recognized |
| Agent.RatesSumToOne | core/agent.py:83-84 | On a non-empty history of recognized statuses, success rate plus failure rate is 1 |
| Agent.AvgLatencyWithinBounds | core/agent.py:85 | The average latency lies between any lower and any upper bound of the individual latencies |
| Agent.MetricsAfterAppend | core/agent.py:58-87 | Observing one more signal adds 1 to the volume, 1 to the success count exactly when its status is "success", and 1 to the failure count exactly when it is "failure" |
| Agent.AgentMemory.constructor | core/agent.py:48-50 | Memory starts with no recent signals |
| Agent.PaymentObserver.constructor | core/agent.py:54-56 | The observer shares the given memory and starts with no signals |
| Agent.PaymentObserver.Observe | core/agent.py:58-60 | The signal is appended both to the observer's history and to the shared memory |
| Agent.PaymentOpsAgent.constructor | core/agent.py:91-94 | A fresh memory, an observer wired to it, both empty, and not running |
| Agent.PaymentOpsAgent.ProcessPaymentSignal | core/agent.py:96-97 | The signal reaches the observer and the memory; the wiring invariant is kept |
| Agent.PaymentOpsAgent.Start | core/agent.py:99-100 | The agent is running |
| Agent.PaymentOpsAgent.Stop | core/agent.py:102-103 | The agent is not running |
| Simulator.NewScenario | simulation/simulator.py:31-37 | The registered window ends `duration` after it starts |
| Simulator.Trunc | simulation/simulator.py:60 | `int()` on a float truncates toward zero: within 1 of the argument, and never beyond it away from zero |
| Simulator.KindOf | simulation/simulator.py:57-74 | The type string is one of the five known kinds exactly when it is one of the five strings the if/elif chain compares with |
| Simulator.Degraded | simulation/simulator.py:59-64 | `success_prob * (1 - severity)` stays between 0 and the old probability when the probability is non-negative and the severity is in [0, 1] |
| Simulator.ApplyScenario | simulation/simulator.py:56-77 | An inactive or unknown scenario changes nothing; an issuer degradation for another issuer and a method fatigue for another method change nothing; only a retry storm sets retries; the error code changes only when a clustering fires, and then it is the affected dimension and the probability is 0.1; only issuer degradation and latency spikes add latency; a latency spike keeps the probability; otherwise, with severity in [0, 1], the probability never rises and stays non-negative |
| Simulator.FoldStep | simulation/simulator.py:55-77 | The loop is a left fold in registration order: folding one more scenario applies it to the fold of the ones before |
| Simulator.FoldInert | simulation/simulator.py:55-77 | With no active known scenario, the draft is the initial one |
| Simulator.FoldRetryCount | simulation/simulator.py:66-69 | With retry draws in 1..4, the retry count is 0 exactly when no retry storm fired, and otherwise in 1..4 |
| Simulator.FoldErrorCode | simulation/simulator.py:52-76 | There is a forced error code exactly when some error clustering fired, and it is the affected dimension of the last one that fired |
| Simulator.FoldProbabilityInUnit | simulation/simulator.py:55-77 | With severities in [0, 1], the success probability stays in [0, 1] |
| Simulator.FoldLatencyNotLowered | simulation/simulator.py:57-72 | With non-negative severities, scenarios never lower the base latency |
| Simulator.ApplySameButProbability | simulation/simulator.py:56-77 | Two drafts that differ at most in probability stay so after one scenario, and become equal when a clustering fires |
| Simulator.ClusteringForgetsProbability | simulation/simulator.py:74-77 | After the whole loop, two drafts that differ only in probability still differ only in probability, and once any clustering has fired the result does not depend on the starting probability |
| Simulator.FoldAppend | simulation/simulator.py:55-77 | Running the loop over scenarios `P + S` is running it over `S` from where `P` left the draft |
| Simulator.ClusteringForgetsPrefix | simulation/simulator.py:55-77 | Two scenario prefixes whose drafts differ only in probability, for instance by different multipliers, lead to the same result once a clustering fires in the common rest |
| Simulator.ClusteringOrderSensitive | simulation/simulator.py:55-77 | Method fatigue then error clustering leaves probability 0.1; the reverse order leaves 0.06 |
| Simulator.Decimal | simulation/simulator.py:93 | The decimal representation is a non-empty string of digits |
| Simulator.ZeroPad | simulation/simulator.py:93 | The padded string has the width (or the original length if longer), ends with the original and is zeros before it |
| Simulator.ParseDecimalOfDecimal | simulation/simulator.py:93 | Parsing a number's decimal representation gives the number back |
| Simulator.TxnIdRoundTrip | simulation/simulator.py:93 | The counter can be recovered from its transaction id |
| Simulator.TxnIdInjective | simulation/simulator.py:93 | Distinct counters give distinct transaction ids |
| Simulator.TxnIdShape | simulation/simulator.py:93 | `TxnId`: the id is "txn_" followed by at least six digits, exactly six below one million |
| Simulator.BatchIdsDistinct | simulation/simulator.py:108-110 | Ids from consecutive counters are pairwise distinct |
| Simulator.GenerateSpec | simulation/simulator.py:39-106 | The generated call carries the id for the incremented counter |
| Simulator.Truthy | simulation/simulator.py:85 | `not error_code` is false exactly for a present, non-empty code |
| Simulator.GeneratedPayment | simulation/simulator.py:79-101 | Latency is at least 100; the status is SUCCESS exactly when the outcome roll is below the final probability, otherwise FAILURE; success has no error code, failure has one; method and issuer come from their pools; the amount is in [10, 1000] |
| Simulator.FailureErrorCode | simulation/simulator.py:80-86 | On failure, a truthy forced code is kept and otherwise the code is drawn from the pool; so the code is the dimension of the last clustering that fired when that dimension is non-empty, and a pool code when no clustering fired |
| Simulator.GeneratedRetryCount | simulation/simulator.py:51-69 | The retry count passed along is 0 exactly when no retry storm fired, and at most 4 |
| Simulator.GeneratedStatusUnrecognized | simulation/simulator.py:80-95 | The stored status of a generated payment is "PaymentStatus.SUCCESS" or "PaymentStatus.FAILURE", never "success" or "failure" |
| Simulator.BaselineOutcome | simulation/simulator.py:48-89 | With no active known scenario, the payment succeeds exactly when the roll is below 0.85, the latency is the base draw plus the variance but at least 100, and there are no retries |
| Simulator.ToSignal | simulation/simulator.py:92-106 | The signal's transaction id is the call's |
| Simulator.NthPaymentAt | simulation/simulator.py:110 | The k-th payment of a batch is the generated payment for counter start+k+1 with the k-th draws and clock reading |
| Simulator.BatchPayments | simulation/simulator.py:108-110 | Each batch element is the payment for its counter, its id is that counter's id, and all ids are distinct |
| Simulator.ActiveCounters | simulation/simulator.py:56 | A counter is in the set exactly when the scenario is active at it |
| Simulator.WindowSize | simulation/simulator.py:56 | A window from start to end covers end − start + 1 transactions |
| Simulator.RealisticScenarios | simulation/simulator.py:112-158 | Five scenarios, severities in [0, 1], each window starts no later than it ends, and each has a different known type |
| Simulator.ChaseWindow | simulation/simulator.py:115-122 | The chase degradation is active exactly for transactions 50 to 150, which is 101 transactions |
| Simulator.RealisticCompounding | simulation/simulator.py:112-140 | For transactions 80 to 99, a chase+visa payment gets probability 0.85·0.4·0.6 and 180 ms extra latency, with no retries and no forced error |
| Simulator.PaymentSimulator.constructor | simulation/simulator.py:15-26 | The six pools as listed, no scenarios, counter 0 |
| Simulator.PaymentSimulator.AddDegradationScenario | simulation/simulator.py:28-37 | The new scenario is appended and nothing else changes |
| Simulator.PaymentSimulator.ApplyDegradation | simulation/simulator.py:55-77 | One scenario's effect on the loop variables equals ApplyScenario |
| Simulator.PaymentSimulator.ApplyDegradations | simulation/simulator.py:55-77 | The loop over the registered scenarios leaves the variables at the fold of ApplyScenario over them |
| Simulator.PaymentSimulator.GeneratePayment | simulation/simulator.py:39-106 | The counter goes up by one, the pools and scenarios are unchanged, and the signal is the specified payment for the new counter |
| Simulator.PaymentSimulator.GenerateBatch | simulation/simulator.py:108-110 | One payment per requested element, each the specified payment for consecutive counters; the counter advances by the batch size; ids are distinct |
| Simulator.PaymentSimulator.SetupRealisticScenarios | simulation/simulator.py:112-158 | The five demonstration scenarios are appended in order and nothing else changes |
| Governance.DeltaSeconds | governance.py:12 | The `.seconds` of a difference lies in [0, 86400) and is congruent to it modulo one day |
| Governance.LastHour | governance.py:12 | An entry is in the window exactly when it is in the log and its seconds are below 3600 |
| Governance.LastHourCounts | governance.py:12-14 | The window holds each entry that passes the test as many times as the log does, and no other entry, so its length counts every approval, including several at one instant |
| Governance.WindowWithinDay | governance.py:12 | For entries less than a day old, the window is exactly the last 3600 seconds |
| Governance.WindowRepeatsDaily | governance.py:12 | An entry a whole number of days older counts exactly as the entry itself |
| Governance.FutureEntryNotCounted | governance.py:12 | A future entry, up to 23 hours ahead, is not counted |
| Governance.Decide | governance.py:10-21 | Approved exactly when under quota and not high risk; approval is "Allowed" and appends now; a rejection leaves the log alone; at quota the reason is the rate limit; otherwise a high-risk action needs approval |
| Governance.ReasonsDistinct | governance.py:15-21 | The three reason strings are distinct |
| Governance.HighRiskNeverApproved | governance.py:17-18 | A high-risk action is never approved and never logged |
| Governance.RateLimitPrecedesHighRisk | governance.py:14-18 | At quota, a high-risk action is reported as rate-limited |
| Governance.LogAfter | governance.py:10-21 | A run of calls only ever extends the log, by at most one entry per call |
| Governance.Approvals | governance.py:20 | At most one approval per call |
| Governance.LogAfterStep | governance.py:10-21 | The log after k+1 calls is the log after the (k+1)-th call's decision on the log after k calls |
| Governance.LogCountsApprovals | governance.py:14-21 | The log grows by exactly the number of approvals |
| Governance.SameInstantAllCounted | governance.py:12 | Entries made at the current instant are all in the window |
| Governance.QuotaLogAtOneInstant | governance.py:12-20 | Calls at one instant, none high risk, log min(calls, max) entries, all at that instant |
| Governance.QuotaAtOneInstant | governance.py:12-20 | The k-th such call is approved exactly when k < max, otherwise rate-limited |
| Governance.SixthCallRateLimited | governance.py:6-20 | With the default quota of 5, five calls at one instant are approved and the sixth is rate-limited |
| Governance.HighRiskAttemptKeepsQuota | governance.py:7-21 | A rejected high-risk attempt does not use up quota: an ordinary action right after it is approved |
| Governance.GovernanceGuardrails.constructor | governance.py:5-8 | Quota 5, high-risk set {"DISABLE_PAYMENT_METHOD"}, empty log |
| Governance.GovernanceGuardrails.Allow | governance.py:10-21 | The verdict, reason and new log are Decide's on the old log; the old log is a prefix of the new one |
| Adaptive.SuccessRateOf | adaptive.py:7 | The success rate is the dictionary's entry when present, otherwise 0 |
| Adaptive.StepDirection | adaptive.py:8-9 | For a positive threshold: below 0.7 it strictly drops and stays positive, above 0.9 it strictly rises, and from 0.7 to 0.9 it stays |
| Adaptive.MissingRateTightens | adaptive.py:7-8 | Metrics without a success rate tighten the threshold by 5% |
| Adaptive.RepeatLow | adaptive.py:8 | n low-rate updates give exactly t·0.95ⁿ |
| Adaptive.RepeatHigh | adaptive.py:9 | n high-rate updates give exactly t·1.05ⁿ |
| Adaptive.RepeatInBand | adaptive.py:8-9 | Updates with a rate from 0.7 to 0.9 never move the threshold |
| Adaptive.LowRatesDecrease | adaptive.py:8 | Under low rates a positive threshold strictly decreases at every update and stays positive |
| Adaptive.RepeatPositive | adaptive.py:8-9 | A positive threshold stays positive under any number of updates with one rate |
| Adaptive.HighRatesIncrease | adaptive.py:9 | Under high rates a positive threshold strictly increases at every update |
| Adaptive.RunPositive | adaptive.py:6-10 | A positive threshold stays positive under any sequence of updates, whatever their rates |
| Adaptive.RunSnoc | adaptive.py:6-10 | A run over the rates and one more rate is one more update after the run |
| Adaptive.StepRepeatCommute | adaptive.py:8-9 | An update before a run of equal-rate updates ends where the same update after it does |
| Adaptive.RunRegroups | adaptive.py:8-9 | Order does not matter: any sequence of updates ends where all its low-rate updates, then all its high-rate updates, would |
| Adaptive.RepeatsScale | adaptive.py:8-9 | `low` tightening updates and then `high` loosening ones give exactly t·0.95^low·1.05^high |
| Adaptive.RunExact | adaptive.py:6-10 | Any sequence of updates gives exactly t·0.95^low·1.05^high, counting the rates below 0.7 and above 0.9 |
| Adaptive.TightenBound | adaptive.py:8 | 0.95ⁿ·(19 + n) ≤ 19 |
| Adaptive.LoosenBound | adaptive.py:9 | 1.05ⁿ ≥ 1 + n/20 |
| Adaptive.NoPositiveFloor | adaptive.py:8 | Repeated low rates drive the threshold below any positive bound |
| Adaptive.NoCeiling | adaptive.py:9 | Repeated high rates drive the threshold above any bound |
| Adaptive.AdaptivePolicy.constructor | adaptive.py:3-4 | The threshold starts at 0.8 |
| Adaptive.AdaptivePolicy.Update | adaptive.py:6-10 | The new threshold is one step from the old one by the metrics' success rate, and it is returned |
| Feedback.NothingRecognized | core/agent.py:76-84 | A history with no recognized status has zero success and failure counts and rates |
| Feedback.DictSuccessRate | adaptive.py:7 | The policy reads exactly the metrics' success rate from the metrics dictionary |
| Feedback.UnrecognizedHistoryTightens | adaptive.py:7-8 | Metrics over a history with no recognized status make the policy tighten by 5% |
| Feedback.BatchStatusesUnrecognized | simulation/simulator.py:95 | No payment of a generated batch has a recognized status |
| Feedback.SimulatedHistoryTightens | adaptive.py:7-8 | Over any generated batch the metrics count no success or failure, and the policy fed them tightens by 5% |

## Left out

- Random number generation: draws are inputs constrained to their ranges. Uniformity, independence and any statistical claim (for example "the chase success rate is measurably lower inside the window") are not modelled.
- Clock: `datetime.now()` is a parameter. The guardrail works in whole seconds, so the sub-second part of the timestamps and of `timedelta` is not modelled. The signal timestamp is a real.
- Floating point: probabilities, thresholds and latencies are exact reals, so `0.95ⁿ` never rounds and never underflows. A latency increment such as `int(300 * 0.57)` can differ by 1 ms: IEEE doubles give 170, the exact product gives 171. `round(random.uniform(10, 1000), 2)` is an amount draw, and its rounding is not modelled.
- `PaymentStatus.FAILED`: simulation/simulator.py:84 names `PaymentStatus.FAILED`, which the enum does not define (its members are SUCCESS, FAILURE and PENDING). As written, every failing payment raises `AttributeError` there. The model reads the name as `FAILURE`. So the failure half of `GeneratedPayment`, all of `FailureErrorCode`, and the FAILURE case of `GeneratedStatusUnrecognized` describe that reading, not the code as written.
- Concurrency: `async`/`await` of `observe` and `process_payment_signal` is modelled as sequential calls, and logging is omitted.
- Simulator.PaymentSimulator.GenerateBatch: a negative `count` gives an empty batch, as `range(count)` does. The draws are positional: the k-th `Draws` record serves the k-th payment, rather than modelling one shared random stream.
- Agent.PaymentObserver.CalculateMetrics: it returns `MetricsOf` of the observer's history, and its properties are stated on `MetricsOf`. The dictionary form is `Metrics.AsDict`, whose counts are carried as reals.
- Simulator.FoldProbabilityInUnit: stated only for severities in [0, 1], because the code does not validate severity (a severity above 1 makes the probability negative).
- The PENDING status is never produced by the simulator and has no metric of its own: a pending signal counts as neither success nor failure.
- Dashboards, the front end and presentation code are not part of this model.
