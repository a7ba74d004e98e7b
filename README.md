# META-SPRINT method comparison, modelled in Dafny

This project models the Monte Carlo comparison in `compare_methods.py`. The comparison covers three ways of organising a meta-analysis:

- traditional ad-hoc;
- structured checklist;
- META-SPRINT, which uses Definition-of-Done gates and audits.

Each trial produces one `QualityMetrics` record per method. A record holds:

- five fractional quality fields;
- a duration in days;
- two flags: GRADE completed and deviations logged.

Each record also has a capped composite score from 0 to 100. The trial loop collects one list per method. The aggregator reduces each list to means, population variances, a 2.5/97.5 percentile interval and a GRADE-completion percentage. The comparator reports four relative deltas of META-SPRINT against the traditional baseline.

The randomness of the original is passed in as explicit draws:

- every `uniform(a, b)` is a `real` in `[a, b]`;
- every `randint(a, b)` is an `int` in `[a, b]`;
- every `random() < p` is a `real` `u` in `[0, 1)` compared with `p`.

Each generator is a function of its draw record, and the draws' ranges are its precondition (`InRange`). `RunSimulation` takes one `TrialDraws` per iteration; only the draws of the iterations that run need to be in range.

The draw records and their supports:

- `TraditionalDraws` (compare_methods.py:83-93): drift in [0.3,0.5], adherence in [0.5,0.8], accuracy in [0.7,0.9], reproducibility in [0.3,0.6], audit in [0.2,0.5], error rate in [0.1,0.3], days in 90..365, and one `random()` draw per flag.
- `StructuredDraws` (compare_methods.py:110-117): one uniform draw per fraction, days in 60..180, and one `random()` draw per flag.
- `MetasprintDraws` (compare_methods.py:138-176): one `random()` draw per gate, the two audit catch rates, the red-team bonus, the base fractions, the initial error rate and the conditional-go draw.

`Summary` (compare_methods.py:217-227) is the per-method dictionary of the aggregator, with variances in place of standard deviations. Arithmetic uses exact `real`s, not binary floating point.

Files and modules:

- `metrics.dfy` (`Metrics`): `Method`, `QualityMetrics`, the composite score.
- `generators.dfy` (`Generators`): the three generators, their output profiles, and `Generate`, which dispatches on the method.
- `simulation.dfy` (`Simulation`): the trial loop, as a method over a map from method to list.
- `statistics.dfy` (`Statistics`): mean, population variance, insertion sort, and the percentile by linear interpolation (numpy's default rule).
- `analysis.dfy` (`Analysis`): the per-method summary and the error on an empty list.
- `comparison.dfy` (`Comparison`): the four deltas and the end-to-end lemmas.

Proved beyond the single-call contracts:

- Every META-SPRINT record scores at least 95.4.
- Every traditional record scores at most 84.2, and every structured record at most 94.5.
- So in every run of at least one iteration, all four deltas are strictly positive and the baseline means they divide by are non-zero (`EveryRunFavoursMetasprint`). This holds for every run, not just on average.

Two behaviours of the code are worth stating:

- `n_iterations <= 0` is not an error. The loop runs zero times and returns three empty lists. Analysing that result then raises a division by zero at the GRADE percentage (line 215), before numpy is reached (`EmptyRunCannotBeAnalysed`).
- The deltas at lines 380-383 divide without a guard. With numpy floats a zero baseline gives inf/nan, which `real` cannot represent. So `RelativeDeltas` requires non-zero baselines, and `EveryRunFavoursMetasprint` proves that every non-empty run meets this requirement.

## Model

| member | source | states |
|---|---|---|
| Metrics.Label | compare_methods.py:25-28 | each method has a non-empty display label whose first letter identifies the method |
| Metrics.LabelInjective | compare_methods.py:25-28 | two methods with the same label are the same method |
| Metrics.OverallQuality | compare_methods.py:42-64 | the score is at most 100; it equals 100 × (0.20·adherence + 0.25·accuracy + 0.20·reproducibility + 0.15·audit + 0.20·(1−error) + 0.05·[grade] + 0.05·[deviations]) when that is ≤ 100, and 100 otherwise; it is ≥ 0 when the fractions are in [0,1] |
| Metrics.WeightsSumToOne | compare_methods.py:45-51 | the five weights sum to 1, so a perfect record without flags scores exactly 100 |
| Metrics.UncappedAtMost110 | compare_methods.py:52-64 | with fractions in [0,1] the uncapped score lies in [0,110], and the cap removes at most 10 points |
| Metrics.FlagsMonotone | compare_methods.py:59-64 | setting either flag to true never lowers the score |
| Metrics.FieldsMonotone | compare_methods.py:52-64 | raising any quality field, lowering the error rate or setting flags never lowers the score |
| Generators.SimulateTraditional | compare_methods.py:83-93 | all fractions are in [0,1]; adherence is in [0.35,0.71] and at least 0.09 below its base draw; accuracy, reproducibility, audit and error keep their draw ranges; time is in [90,365]; each flag is set exactly when its draw is below 0.4 or 0.3 |
| Generators.TraditionalQualityBound | compare_methods.py:83-93 | every traditional record scores between 47.5 and 84.2 |
| Generators.SimulateStructured | compare_methods.py:109-117 | all fractions are in [0,1] and within their draw ranges; time is in [60,180]; each flag is set exactly when its draw is below 0.6 or 0.5 |
| Generators.StructuredQualityBound | compare_methods.py:109-117 | every structured record scores at most 94.5 |
| Generators.ResidualErrors | compare_methods.py:170-172 | the error left after audit 1 and then audit 2 is initial·(1−c1)·(1−c2), and with the draw ranges it lies in [0, 0.03] |
| Generators.SimulateMetasprint | compare_methods.py:137-183 | adherence is its base draw, minus exactly 0.1 when gate A fails; reproducibility likewise for gate D; accuracy is ≤ 0.99 and equals base + red-team when that sum is ≤ 0.99; error = max(initial·(1−c1)·(1−c2), 0.01), so it is in [0.01,0.03]; time is 45 exactly when the conditional-go draw fires and 40 otherwise; both flags are always true; all fractions are in [0,1] |
| Generators.GatesBAndCIrrelevant | compare_methods.py:139-140 | changing the gate B and gate C draws leaves the record unchanged |
| Generators.MetasprintQualityBound | compare_methods.py:150-181 | every META-SPRINT record scores at least 95.4 |
| Generators.MetasprintDominates | compare_methods.py:71-183 | every META-SPRINT record scores strictly above every traditional and every structured record |
| Generators.Generate | compare_methods.py:199-201 | each method's generator gives a record in that method's profile, with fractions in [0,1] and score in [0,100] |
| Simulation.RunSimulation | compare_methods.py:190-203 | the result has exactly the three method keys, each list has length max(n,0), and the i-th entry of each list is that method's generator applied to the i-th iteration's draws |
| Simulation.RunRecordsInProfile | compare_methods.py:198-201 | every record of a run lies in its method's profile, has fractions in [0,1] and scores in [0,100] |
| Statistics.SumBounds | compare_methods.py:218 | the sum of n values in [lo,hi] lies between n·lo and n·hi |
| Statistics.SumNonNegative | compare_methods.py:219 | a sum of non-negative values is non-negative |
| Statistics.Mean | compare_methods.py:218 | the mean times the length is the sum; the mean of one value is that value |
| Statistics.MeanBounds | compare_methods.py:218 | the mean of values in [lo,hi] lies in [lo,hi] |
| Statistics.SquaredDeviations | compare_methods.py:219 | one entry per value, the square of its distance from the given centre |
| Statistics.Variance | compare_methods.py:219 | the population variance is non-negative and is 0 for a single value |
| Statistics.Sort | compare_methods.py:220 | the sorted list is sorted and is a permutation of the input |
| Statistics.Insert | compare_methods.py:220 | inserting into a sorted list gives a sorted list one longer, holding the old values plus the new one |
| Statistics.Rank | compare_methods.py:220 | the rank q/100·(n−1) of a percentile in [0,100] lies between the first and last index |
| Statistics.RankMonotone | compare_methods.py:220 | a higher percentile sits at a rank no lower |
| Statistics.Lerp | compare_methods.py:220 | interpolating a fraction in [0,1] of the way from a to b gives a value between a and b |
| Statistics.LerpMonotone | compare_methods.py:220 | interpolating further along the way from a to b never gives a lower value |
| Statistics.InterpolateBetween | compare_methods.py:220 | the two neighbouring indices of a rank are in range, and the interpolated value lies between the values at them |
| Statistics.InterpolateMonotone | compare_methods.py:220 | in a sorted list, interpolating at a higher rank never gives a lower value |
| Statistics.Below | compare_methods.py:220 | the lower neighbouring index of a rank is the largest integer not above it |
| Statistics.Above | compare_methods.py:220 | the upper neighbouring index is at most one past the lower one; for a rank inside the list it is a valid index not below the rank, clipped to the last index |
| Statistics.Interpolate | compare_methods.py:220 | at a whole-number rank the interpolated value is the value at that rank |
| Statistics.Percentile | compare_methods.py:220 | the percentile of a single value is that value |
| Statistics.PercentileBetween | compare_methods.py:220 | a percentile of values in [lo,hi] lies in [lo,hi] |
| Statistics.PercentileMonotone | compare_methods.py:220 | a lower percentile never exceeds a higher one, so the 95% interval is well formed |
| Analysis.Qualities | compare_methods.py:211 | one score per record, in record order, each its composite score |
| Analysis.ErrorRates | compare_methods.py:212 | one entry per record, in record order, each its error rate times 100 |
| Analysis.Times | compare_methods.py:213 | one entry per record, in record order, each its duration in days |
| Analysis.Reproducibilities | compare_methods.py:214 | one entry per record, in record order, each its reproducibility times 100 |
| Analysis.CountGraded | compare_methods.py:215 | the count of GRADE-completed records is at most the length; it equals the length exactly when all are completed, and is 0 exactly when none are |
| Analysis.GradeCompletion | compare_methods.py:215 | an empty list fails with a division by zero; otherwise the percentage is in [0,100], is 100 exactly when every record completed GRADE, and is 0 exactly when none did |
| Analysis.Summarize | compare_methods.py:211-227 | fails exactly on an empty list; low percentile ≤ high percentile; variances are ≥ 0; grade completion is in [0,100]; for one record every mean and both percentiles equal that record's values and every variance is 0 |
| Analysis.SummaryBounds | compare_methods.py:211-227 | when all fractions are in [0,1], the quality mean and interval lie in [0,100], and the error-rate and reproducibility means (in percent) lie in [0,100] |
| Analysis.Analyze | compare_methods.py:206-229 | fails exactly when some method's list is empty; otherwise it has the same methods as its input, and each method's summary is the summary of its list |
| Comparison.Increase | compare_methods.py:380 | value = baseline·(1 + r/100); for a positive baseline r > 0 exactly when the value exceeds the baseline |
| Comparison.Reduction | compare_methods.py:381-382 | value = baseline·(1 − r/100); for a positive baseline r > 0 exactly when the value is below the baseline, and r ≤ 100 when the value is non-negative |
| Comparison.RelativeDeltas | compare_methods.py:380-383 | each META-SPRINT mean is recovered from the baseline mean and its delta (quality and reproducibility as increases, error rate and time as reductions) |
| Comparison.TraditionalColumns | compare_methods.py:211-214 | for traditional records the score list lies in [47.5,84.2], the error-rate list in [10,30] %, the time list in [90,365] and the reproducibility list in [30,60] % |
| Comparison.MetasprintColumns | compare_methods.py:211-214 | for META-SPRINT records the score list lies in [95.4,100], the error-rate list in [1,3] %, the time list in [40,45] and the reproducibility list in [75,98] % |
| Comparison.TraditionalSummaryBounds | compare_methods.py:211-225 | a non-empty list of traditional records has quality mean in [47.5,84.2], error mean in [10,30] %, time mean in [90,365] and reproducibility mean in [30,60] % |
| Comparison.MetasprintSummaryBounds | compare_methods.py:211-226 | a non-empty list of META-SPRINT records has quality mean ≥ 95.4, error mean in [1,3] %, time mean in [40,45], reproducibility mean in [75,98] % and grade completion 100 % |
| Comparison.DeltasPositive | compare_methods.py:380-383 | with baseline and META-SPRINT means in those ranges, no baseline is zero and all four deltas are strictly positive |
| Comparison.EveryRunFavoursMetasprint | compare_methods.py:377-383 | for every run of n ≥ 1 iterations, the analysis succeeds, the baseline means are non-zero, and all four deltas are strictly positive |
| Comparison.EmptyRunCannotBeAnalysed | compare_methods.py:198-215 | a run of n ≤ 0 iterations leaves the lists empty, and analysing it fails with a division by zero |

## Left out

- `plot_comparison` (compare_methods.py:236-336): chart rendering and writing a PNG file. This is presentation and I/O.
- `print_comparison_table` and `main` (compare_methods.py:343-413): console formatting. Only the delta arithmetic at lines 380-383 is modelled.
- The random number generator. Draws are parameters constrained to their distributions' supports; the distributions themselves are not modelled.
- Standard deviations (`np.std`, compare_methods.py:219, 222, 224) need a square root. `Summary` holds the population variances, and the standard deviation is their square root.
- Binary floating-point rounding. All arithmetic is exact over `real`. One consequence: `uniform(a, b)` is taken to return a value in the closed interval `[a, b]`.
- The distributional claim that META-SPRINT is better on average is not modelled as such. The per-run statement `EveryRunFavoursMetasprint` implies it for these draw ranges.
- The parameters `n_studies` and `team_size` (compare_methods.py:71, 98, 122) are never read, so the generators do not take them.
- The default `n_iterations = 1000` of `run_simulation` (compare_methods.py:190): `RunSimulation` takes the iteration count as a parameter, and a Dafny parameter has no default.
- `QualityMetrics`' default field values (compare_methods.py:33-40): every generator assigns every field, so no record keeps a default.
- Python dict iteration order in `analyze_results`: the only failure is the same division by zero for any empty list, so the order cannot be observed.
- debug_test.py is not part of this model. It drives a browser over an HTML page.
