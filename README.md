# Vehicle test agent: the diagnostic rule engine in Dafny

This project models the rule engine of `VehicleTestAgent` (agent/vehicle_test_agent.py).
The agent takes one drive session: named sensor channels, each a column of readings.
When it is built, it detects the vehicle kind (EV, Fuel or Unknown) from the column names.
`run_all_tests` runs eight checks in a fixed order. Each check appends one verdict to the
agent's `results` list. The run then overwrites `health_score` with the truncated
percentage of counted verdicts that did not fail.

Modules:

- `Wrappers`: `Option`, standing in for Python's `None`.
- `Stats`: the pandas statistics the checks use, over real readings. It holds the sum, the
  mean, the sample variance (pandas `std` uses ddof=1), the maximum and the minimum, and
  sqrt-free predicates that compare a statistic with a threshold. Where pandas returns NaN
  (a std of fewer than two readings, or the mean, max or min of an empty column), the
  comparison is false.
- `Verdicts`: the closed outcome type `Passed | Failed | NotImplemented`, in place of the
  source's `True`/`False`/`None`. It also holds the verdict record, the priority
  derivation, the outcome labels, `MakeVerdict` (the entry `record_result` builds), and
  the as-written priority code described under Findings. The model's verdicts carry the
  corrected priority (`Priority`), so a Failed check always gets "Medium"; `PriorityAsWritten`
  is `get_priority` as written, which gives a NumPy `False` no priority.
- `Checks`: vehicle-kind detection, the seven threshold checks, the efficiency check, and
  `Battery`, the eight verdicts of one run in their fixed order.
- `HealthScores`: the score formula over the verdict list, and the lemmas about it.
- `Agent`: the class `VehicleTestAgent`. It has an immutable `data` and `vehicleType`, a
  `results` sequence that each check method extends, and a `healthScore` field. That field
  is set to 100 by the constructor and overwritten only by `CalculateHealthScore`.
  `RunTwice` shows that a second run appends eight more verdicts and keeps the score.

In these degenerate cases the model follows what the code does:

- A std over fewer than two readings is NaN in pandas, not 0. Every comparison with it is
  false, so the Stability check (`std < 0.05`) also fails on such a column.
- The efficiency ratio is not guarded against a zero denominator. NumPy float division
  does not raise here: x/0 is +inf for x > 0, -inf for x < 0, and NaN for 0.
  `RatioExceeds` models this, so zero usage passes exactly when the distance total is
  positive.
- A missing threshold-check channel raises `KeyError` in the source. The model makes the
  five channels a precondition (`RequiredChannels`) instead of adding a recovery policy.

## Model

| member | source | states |
|---|---|---|
| `Checks.DetectVehicleKind` | agent/vehicle_test_agent.py:12-17 | EV iff `battery_voltage` or `ev_flag` is present; Fuel iff neither is present and `fuel_consumed` or `fuel_type` is; Unknown iff none of the four indicator columns is present |
| `Checks.DetectionReadsOnlyIndicators` | agent/vehicle_test_agent.py:12-17 | two column sets that agree on the four indicator columns get the same kind |
| `Checks.EvWinsTieBreak` | agent/vehicle_test_agent.py:13-14 | adding any columns, fuel columns included, to an EV column set leaves it EV |
| `Agent.VehicleTestAgent.constructor` | agent/vehicle_test_agent.py:6-10 | the session is stored, `results` is empty, the score is 100, and the kind is the detected one |
| `Verdicts.OutcomeOf` | agent/vehicle_test_agent.py:34 | the tri-state label choice: NotImplemented exactly for `None`, Passed exactly for a true boolean |
| `Verdicts.Label` | agent/vehicle_test_agent.py:34 | the label written into 'result' for each outcome: "✅ Passed", "❌ Failed", "⚠️ Not Implemented" |
| `Verdicts.LabelInjective` | agent/vehicle_test_agent.py:34 | the three result labels are pairwise distinct, so counting labels is counting outcomes |
| `Verdicts.Priority` | agent/vehicle_test_agent.py:40-43 | priority is "Medium" exactly when the outcome is Failed or NotImplemented, and absent exactly when it is Passed |
| `Verdicts.PriorityAsWritten` | agent/vehicle_test_agent.py:40-43 | as written, the only priority is "Medium", and a NumPy boolean, true or false, never gets one |
| `Verdicts.MakeVerdict` | agent/vehicle_test_agent.py:31-38 | the entry keeps the name and outcome, derives the priority, and keeps reason and suggestion exactly when the outcome is not Passed |
| `Verdicts.PriorityAsWrittenOnPythonValues` | agent/vehicle_test_agent.py:40-43 | for Python's own `None`/`True`/`False`, the identity test as written gives the intended priority |
| `Verdicts.FailedThresholdCheckLosesPriority` | agent/vehicle_test_agent.py:40-43 | as written, a NumPy `False` is labelled Failed but gets no priority |
| `Agent.VehicleTestAgent.RecordResult` | agent/vehicle_test_agent.py:31-38 | appends exactly one verdict, leaves earlier ones unchanged, and keeps every verdict well formed |
| `Stats.StdComparison` | agent/vehicle_test_agent.py:46-47 | for s the sample std, comparing the variance with t² is the same as comparing s with t, for `>` and for `<` |
| `Stats.ConstantVariance` | agent/vehicle_test_agent.py:46 | a column of equal readings has sample variance 0 |
| `Stats.MeanBetweenMinMax` | agent/vehicle_test_agent.py:64 | the mean lies between the minimum and the maximum reading |
| `Stats.RangeAboveWitness` | agent/vehicle_test_agent.py:82-83 | max − min exceeds t iff some two readings differ by more than t |
| `Stats.StdAbove` | agent/vehicle_test_agent.py:46-47 | `std > t` compared as variance > t²; false below two readings, where pandas' std is NaN |
| `Stats.StdBelow` | agent/vehicle_test_agent.py:58-59 | `std < t` compared as variance < t²; false below two readings, where pandas' std is NaN |
| `Stats.MeanAbove` | agent/vehicle_test_agent.py:64-65 | `mean > t`; false on an empty column, where pandas' mean is NaN |
| `Stats.RangeAbove` | agent/vehicle_test_agent.py:82-83 | `max − min > t`; false on an empty column, where pandas' max and min are NaN |
| `Stats.MeanAgainstSum` | agent/vehicle_test_agent.py:64-65 | for a non-empty column, mean > t iff sum > t·n |
| `Checks.BrakingOutcome` | agent/vehicle_test_agent.py:45-49 | never NotImplemented; Failed on fewer than two readings (NaN std) |
| `Checks.AccelerationOutcome` | agent/vehicle_test_agent.py:51-55 | never NotImplemented; Failed on fewer than two readings |
| `Checks.StabilityOutcome` | agent/vehicle_test_agent.py:57-61 | never NotImplemented; Failed on fewer than two readings even though the test is `<` |
| `Checks.SpeedOutcome` | agent/vehicle_test_agent.py:63-67 | never NotImplemented; Failed on an empty column |
| `Checks.SuspensionOutcome` | agent/vehicle_test_agent.py:69-73 | never NotImplemented; Failed on fewer than two readings |
| `Checks.CorneringOutcome` | agent/vehicle_test_agent.py:75-79 | never NotImplemented; Failed on an empty column |
| `Checks.TorqueOutcome` | agent/vehicle_test_agent.py:81-85 | never NotImplemented; Passed iff some two speed readings differ by more than 3 |
| `Checks.BrakingVerdict` | agent/vehicle_test_agent.py:45-49 | the entry named "Braking Test" with the braking outcome, well formed; its reason and suggestion are present exactly when it failed |
| `Checks.AccelerationVerdict` | agent/vehicle_test_agent.py:51-55 | the entry named "Acceleration Test" with the acceleration outcome, well formed; reason and suggestion present exactly when it failed |
| `Checks.StabilityVerdict` | agent/vehicle_test_agent.py:57-61 | the entry named "Stability Test" with the stability outcome, well formed; reason and suggestion present exactly when it failed |
| `Checks.SpeedVerdict` | agent/vehicle_test_agent.py:63-67 | the entry named "Speed Test" with the speed outcome, well formed; reason and suggestion present exactly when it failed |
| `Checks.SuspensionVerdict` | agent/vehicle_test_agent.py:69-73 | the entry named "Suspension Test" with the suspension outcome, well formed; reason and suggestion present exactly when it failed |
| `Checks.CorneringVerdict` | agent/vehicle_test_agent.py:75-79 | the entry named "Cornering Grip Test" with the cornering outcome, well formed; reason and suggestion present exactly when it failed |
| `Checks.TorqueVerdict` | agent/vehicle_test_agent.py:81-85 | the entry named "Torque Test" with the torque outcome, well formed; reason and suggestion present exactly when it failed |
| `Checks.SpreadChecksCompareStd` | agent/vehicle_test_agent.py:45-73 | for s the sample std of a column: Braking and Acceleration pass iff s > 0.03, Stability iff s < 0.05, Suspension iff s > 0.01 |
| `Checks.ConstantColumnSpread` | agent/vehicle_test_agent.py:45-73 | a constant column fails Braking, Acceleration and Suspension whatever its value, and passes Stability iff it has two or more readings |
| `Checks.MeanChecksBounds` | agent/vehicle_test_agent.py:63-79 | Speed (1.5) and Cornering (0.9) pass only if some reading exceeds the threshold, and always pass when every reading of a non-empty column does |
| `Checks.MeanChecksPassCondition` | agent/vehicle_test_agent.py:63-79 | Speed passes iff the column is non-empty and its sum exceeds 1.5·n; Cornering the same with 0.9 |
| `Checks.EfficiencyVerdict` | agent/vehicle_test_agent.py:87-111 | the name follows the kind; the outcome is NotImplemented iff the kind is Unknown or a needed column is missing; the verdict is well formed |
| `Checks.UsageColumn` | agent/vehicle_test_agent.py:88-100 | `fuel_consumed` for Fuel, `battery_used` for EV; a usage column exists exactly when the kind is known |
| `Checks.EfficiencyThreshold` | agent/vehicle_test_agent.py:88-103 | 10 km/l for Fuel and 5 km/kWh for EV, a positive threshold, defined only for a known kind |
| `Checks.EfficiencyName` | agent/vehicle_test_agent.py:88-111 | "Fuel Efficiency Test", "Battery Efficiency Test" or "Efficiency Test" by kind |
| `Checks.EfficiencyInputsPresent` | agent/vehicle_test_agent.py:88-99 | the ratio can be computed: the kind is known and its usage column and `distance` are present |
| `Checks.RatioExceeds` | agent/vehicle_test_agent.py:90-91 | `num / den > t` under NumPy division: num > t·den for den > 0, num < t·den for den < 0, and num > 0 for den = 0 (±inf or NaN) |
| `Checks.RatioAgainstProduct` | agent/vehicle_test_agent.py:90-91 | for a nonzero denominator, ratio > t iff num > t·den (den > 0) or num < t·den (den < 0) |
| `Checks.EfficiencyPassCondition` | agent/vehicle_test_agent.py:88-103 | with the inputs present: passes iff distance/usage > 10 (Fuel) or > 5 (EV); division-free forms for positive and negative usage; zero usage passes iff the distance total is positive |
| `Checks.FuelEfficiencyExamples` | agent/vehicle_test_agent.py:89-93 | distance [100] with fuel [5] passes; with fuel [50] it fails |
| `Checks.ThresholdVerdicts` | agent/vehicle_test_agent.py:20-26 | seven well-formed verdicts named Braking, Acceleration, Stability, Speed, Suspension, Cornering Grip, Torque, in that order, none NotImplemented |
| `Checks.Battery` | agent/vehicle_test_agent.py:19-27 | eight well-formed verdicts in the fixed order, the efficiency verdict last; only the last can be NotImplemented, exactly when its inputs are missing |
| `Agent.VehicleTestAgent.BrakingTest` | agent/vehicle_test_agent.py:45-49 | appends the braking verdict of the `gFx` column |
| `Agent.VehicleTestAgent.AccelerationTest` | agent/vehicle_test_agent.py:51-55 | appends the acceleration verdict of the `gFy` column |
| `Agent.VehicleTestAgent.StabilityTest` | agent/vehicle_test_agent.py:57-61 | appends the stability verdict of the `wy` column |
| `Agent.VehicleTestAgent.SpeedTest` | agent/vehicle_test_agent.py:63-67 | appends the speed verdict of the `speed` column |
| `Agent.VehicleTestAgent.SuspensionTest` | agent/vehicle_test_agent.py:69-73 | appends the suspension verdict of the `gFz` column |
| `Agent.VehicleTestAgent.CorneringTest` | agent/vehicle_test_agent.py:75-79 | appends the cornering verdict of the `gFz` column |
| `Agent.VehicleTestAgent.TorqueTest` | agent/vehicle_test_agent.py:81-85 | appends the torque verdict of the `speed` column |
| `Agent.VehicleTestAgent.EfficiencyTest` | agent/vehicle_test_agent.py:87-111 | appends the efficiency verdict for the detected kind |
| `Agent.VehicleTestAgent.CalculateHealthScore` | agent/vehicle_test_agent.py:113-116 | counts over `results` without changing it and sets the score to `HealthScore(results)` |
| `Agent.VehicleTestAgent.RunAllTests` | agent/vehicle_test_agent.py:19-29 | appends exactly the eight battery verdicts to the earlier ones, sets the score over all recorded verdicts, and returns both |
| `Agent.RunTwice` | agent/vehicle_test_agent.py:19-29 | running an agent twice returns the eight verdicts twice over and the same score both times |
| `HealthScores.FailedCount` | agent/vehicle_test_agent.py:114-115 | the failed count never exceeds the counted (Passed or Failed) count |
| `HealthScores.CountedCount` | agent/vehicle_test_agent.py:114 | the number of Passed or Failed verdicts, never more than the number of verdicts |
| `HealthScores.Score` | agent/vehicle_test_agent.py:116 | the score lies in [0, 100] and is 0 when nothing is counted |
| `HealthScores.HealthScore` | agent/vehicle_test_agent.py:113-116 | the score of a verdict list lies in [0, 100] and is 0 when no verdict is Passed or Failed |
| `HealthScores.Trunc` | agent/vehicle_test_agent.py:116 | Python's `int()` on a float: truncation toward zero, within one below a non-negative argument and within one above a negative one |
| `HealthScores.SourceScore` | agent/vehicle_test_agent.py:116 | the expression `100 - (failed/total)*100`, or 0 when total is 0, over exact reals; it lies in [0, 100] |
| `HealthScores.SourceExpressionIsScore` | agent/vehicle_test_agent.py:116 | `int(100 - (failed/total)*100)`, read over exact reals, equals `floor(100·(total−failed)/total)` |
| `HealthScores.CountsAppend` | agent/vehicle_test_agent.py:114-115 | both counts of a concatenation are the sums of the parts' counts |
| `HealthScores.AllPassedScore` | agent/vehicle_test_agent.py:116 | the score is 100 when no verdict failed and one passed |
| `HealthScores.NonePassedScore` | agent/vehicle_test_agent.py:116 | the score is 0 when no verdict passed |
| `HealthScores.HalfFailedScore` | agent/vehicle_test_agent.py:116 | the score is 50 when exactly half of the counted verdicts failed |
| `HealthScores.NotImplementedIgnored` | agent/vehicle_test_agent.py:114 | inserting a NotImplemented verdict anywhere leaves the score unchanged |
| `HealthScores.CountsOfPermutation` | agent/vehicle_test_agent.py:114-115 | two verdict lists with the same multiset of verdicts have the same counted and failed counts |
| `HealthScores.ScoreOrderIndependent` | agent/vehicle_test_agent.py:114-116 | two verdict lists that are permutations of each other (equal multisets) get the same score |
| `HealthScores.RepeatedVerdictsKeepScore` | agent/vehicle_test_agent.py:113-116 | recording the same verdicts twice, as a second run does, leaves the score unchanged |

## Left out

- `visualize_metrics` (plotting), agent/pdf_report_generator.py (PDF drawing), main.py (CSV loading and printing) and api/index.py (the HTTP layer) are input/output or presentation. They are not part of this model.
- main.py's loop that re-derives each priority from the outcome label is caller glue. It is not modelled.
- pandas itself: readings are exact reals. A column is a `seq<real>`, and NaN readings inside a column, which pandas would skip, are not modelled. Column dtypes and equal column lengths are not modelled either.
- Floating-point rounding: the statistics, the efficiency ratio and the score are computed over exact reals.
- HealthScores.SourceExpressionIsScore: reads the float expression of line 116 over exact reals. The model does not capture a double-precision result that rounds just below an integer before `int()` truncates it.
- Checks.EfficiencyVerdict: the efficiency reasons keep their fixed text but leave out the ratio that the source formats into them with two decimals.
- The square root of `std`: each spread check compares the sample variance with the squared threshold. `Stats.StdComparison` shows that this is the same as comparing the standard deviation.
- A missing threshold-check channel raises `KeyError` in the source. The model requires the five channels instead.
- `record_result` defaults `reason` and `suggestion` to `None`. Every caller passes both, so the model takes them as strings.
- `run_all_tests` returns the agent's own list object, and a caller's later changes to it show up in the agent. The model returns a copy of the sequence. In the source, the list a first `run_all_tests` returned is the same object the second call extends, so after a second run it holds sixteen verdicts; `Agent.RunTwice`'s `first` is the model's copy of the eight.
- `VehicleTestAgent.data` is a DataFrame that a caller could mutate. The model holds the session as an immutable value.

## Findings

| source | as written | input that shows it | evidently intended | confidence | as-written member | corrected member |
|---|---|---|---|---|---|---|
| agent/vehicle_test_agent.py:40-43 | `get_priority` tests `passed is None or passed is False`. A threshold check passes the result of comparing a pandas statistic with a number, which is a NumPy boolean rather than Python's `False`, so the identity test misses it. A Failed verdict then gets priority `None`. | any session whose `gFx` column is constant: std 0, so the Braking Test is Failed, yet its priority is `None` | priority "Medium" for every Failed verdict. main.py:14-20 re-derives the priority in exactly this way. | not executed; depends on pandas reductions returning NumPy scalars | `Verdicts.FailedThresholdCheckLosesPriority` | `Verdicts.Priority` |
