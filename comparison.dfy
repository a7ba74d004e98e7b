/** The relative changes reported between the traditional baseline and META-SPRINT. */
module Comparison {
  import opened Metrics
  import opened Generators
  import opened Statistics
  import opened Analysis
  import opened Simulation

  /** Percentage increase of `value` over a non-zero `baseline`. */
  function Increase(baseline: real, value: real): (r: real)
    requires baseline != 0.0
    ensures value == baseline * (1.0 + r / 100.0)
    ensures baseline > 0.0 ==> (r > 0.0 <==> value > baseline)
  {
    (value - baseline) / baseline * 100.0
  }

  /** Percentage reduction of `value` below a non-zero `baseline`. */
  function Reduction(baseline: real, value: real): (r: real)
    requires baseline != 0.0
    ensures value == baseline * (1.0 - r / 100.0)
    ensures baseline > 0.0 ==> (r > 0.0 <==> value < baseline)
    ensures baseline > 0.0 && value >= 0.0 ==> r <= 100.0
  {
    (baseline - value) / baseline * 100.0
  }

  datatype Deltas = Deltas(
    qualityImprovement: real,
    errorReduction: real,
    timeReduction: real,
    reproducibilityImprovement: real)

  /** The baseline means every delta divides by are non-zero. */
  predicate NonZeroBaseline(s: Summary)
  {
    s.qualityMean != 0.0 && s.errorRateMean != 0.0 && s.timeMean != 0.0 && s.reproducibilityMean != 0.0
  }

  /** The four relative deltas of META-SPRINT against the traditional baseline. */
  function RelativeDeltas(traditional: Summary, sprint: Summary): (d: Deltas)
    requires NonZeroBaseline(traditional)
    ensures sprint.qualityMean == traditional.qualityMean * (1.0 + d.qualityImprovement / 100.0)
    ensures sprint.errorRateMean == traditional.errorRateMean * (1.0 - d.errorReduction / 100.0)
    ensures sprint.timeMean == traditional.timeMean * (1.0 - d.timeReduction / 100.0)
    ensures sprint.reproducibilityMean == traditional.reproducibilityMean * (1.0 + d.reproducibilityImprovement / 100.0)
  {
    Deltas(
      qualityImprovement := Increase(traditional.qualityMean, sprint.qualityMean),
      errorReduction := Reduction(traditional.errorRateMean, sprint.errorRateMean),
      timeReduction := Reduction(traditional.timeMean, sprint.timeMean),
      reproducibilityImprovement := Increase(traditional.reproducibilityMean, sprint.reproducibilityMean))
  }

  /** The columns the aggregator averages, for a list of traditional records. */
  lemma TraditionalColumns(ms: seq<QualityMetrics>)
    requires forall i :: 0 <= i < |ms| ==> TraditionalProfile(ms[i])
    ensures AllBetween(Qualities(ms), 47.5, 84.2) && AllBetween(ErrorRates(ms), 10.0, 30.0)
    ensures AllBetween(Times(ms), 90.0, 365.0) && AllBetween(Reproducibilities(ms), 30.0, 60.0)
  {
    forall i | 0 <= i < |ms| ensures 47.5 <= OverallQuality(ms[i]) <= 84.2 {
      TraditionalQualityBound(ms[i]);
    }
    QualitiesBetween(ms, 47.5, 84.2);
  }

  /** The columns the aggregator averages, for a list of META-SPRINT records. */
  lemma MetasprintColumns(ms: seq<QualityMetrics>)
    requires forall i :: 0 <= i < |ms| ==> MetasprintProfile(ms[i])
    ensures AllBetween(Qualities(ms), 95.4, 100.0) && AllBetween(ErrorRates(ms), 1.0, 3.0)
    ensures AllBetween(Times(ms), 40.0, 45.0) && AllBetween(Reproducibilities(ms), 75.0, 98.0)
  {
    forall i | 0 <= i < |ms| ensures 95.4 <= OverallQuality(ms[i]) <= 100.0 {
      MetasprintQualityBound(ms[i]);
    }
    QualitiesBetween(ms, 95.4, 100.0);
  }

  /** The summary of any non-empty list of traditional records. */
  lemma TraditionalSummaryBounds(ms: seq<QualityMetrics>)
    requires |ms| > 0 && forall i :: 0 <= i < |ms| ==> TraditionalProfile(ms[i])
    ensures Summarize(ms).Ok?
    ensures var s := Summarize(ms).value;
      47.5 <= s.qualityMean <= 84.2 && 10.0 <= s.errorRateMean <= 30.0
      && 90.0 <= s.timeMean <= 365.0 && 30.0 <= s.reproducibilityMean <= 60.0
  {
    SummaryMeans(ms);
    TraditionalColumns(ms);
    MeanBounds(Qualities(ms), 47.5, 84.2);
    MeanBounds(ErrorRates(ms), 10.0, 30.0);
    MeanBounds(Times(ms), 90.0, 365.0);
    MeanBounds(Reproducibilities(ms), 30.0, 60.0);
  }

  /** The summary of any non-empty list of META-SPRINT records. */
  lemma MetasprintSummaryBounds(ms: seq<QualityMetrics>)
    requires |ms| > 0 && forall i :: 0 <= i < |ms| ==> MetasprintProfile(ms[i])
    ensures Summarize(ms).Ok?
    ensures var s := Summarize(ms).value;
      95.4 <= s.qualityMean <= 100.0 && 1.0 <= s.errorRateMean <= 3.0
      && 40.0 <= s.timeMean <= 45.0 && 75.0 <= s.reproducibilityMean <= 98.0
      && s.gradeCompletion == 100.0
  {
    SummaryMeans(ms);
    MetasprintColumns(ms);
    MeanBounds(Qualities(ms), 95.4, 100.0);
    MeanBounds(ErrorRates(ms), 1.0, 3.0);
    MeanBounds(Times(ms), 40.0, 45.0);
    MeanBounds(Reproducibilities(ms), 75.0, 98.0);
  }

  /** With the baseline and META-SPRINT means in their proved ranges, the baseline is
      non-zero and every delta is strictly positive. */
  lemma DeltasPositive(traditional: Summary, sprint: Summary)
    requires 47.5 <= traditional.qualityMean && 10.0 <= traditional.errorRateMean
    requires 90.0 <= traditional.timeMean && 30.0 <= traditional.reproducibilityMean <= 60.0
    requires traditional.qualityMean < sprint.qualityMean && 0.0 <= sprint.errorRateMean <= 3.0
    requires 0.0 <= sprint.timeMean <= 45.0 && 75.0 <= sprint.reproducibilityMean
    ensures NonZeroBaseline(traditional)
    ensures var d := RelativeDeltas(traditional, sprint);
      d.qualityImprovement > 0.0 && d.errorReduction > 0.0 && d.timeReduction > 0.0
      && d.reproducibilityImprovement > 0.0
  {
  }

  /** Every run of at least one iteration can be analysed, its baseline means are non-zero,
      META-SPRINT improves on the traditional method in all four deltas, and its GRADE
      completion is 100%. */
  lemma {:induction false} EveryRunFavoursMetasprint(results: map<Method, seq<QualityMetrics>>, n: int, draws: seq<TrialDraws>)
    requires 1 <= n <= |draws|
    requires forall i :: 0 <= i < Iterations(n) ==> draws[i].InRange()
    requires IsRun(results, n, draws)
    ensures Analyze(results).Ok?
    ensures var summary := Analyze(results).value;
      Traditional in summary && Metasprint in summary && NonZeroBaseline(summary[Traditional])
      && var d := RelativeDeltas(summary[Traditional], summary[Metasprint]);
      d.qualityImprovement > 0.0 && d.errorReduction > 0.0 && d.timeReduction > 0.0
      && d.reproducibilityImprovement > 0.0
      && summary[Metasprint].gradeCompletion == 100.0
  {
    RunIsAnalysable(results, n, draws);
    RecordsInProfile(results, n, draws);
    var summary := Analyze(results).value;
    TraditionalSummaryBounds(results[Traditional]);
    MetasprintSummaryBounds(results[Metasprint]);
    DeltasPositive(summary[Traditional], summary[Metasprint]);
  }

  /** A run of at least one iteration can be analysed; the traditional and META-SPRINT
      summaries are those of their non-empty lists. */
  lemma RunIsAnalysable(results: map<Method, seq<QualityMetrics>>, n: int, draws: seq<TrialDraws>)
    requires 1 <= n <= |draws|
    requires forall i :: 0 <= i < Iterations(n) ==> draws[i].InRange()
    requires IsRun(results, n, draws)
    ensures Analyze(results).Ok? && Traditional in results && Metasprint in results
    ensures |results[Traditional]| > 0 && |results[Metasprint]| > 0
    ensures Traditional in Analyze(results).value && Metasprint in Analyze(results).value
    ensures Analyze(results).value[Traditional] == Summarize(results[Traditional]).value
    ensures Analyze(results).value[Metasprint] == Summarize(results[Metasprint]).value
  {
    NoEmptyList(results, n, draws);
  }

  /** The traditional and META-SPRINT lists of a run hold records of each method's profile. */
  lemma RecordsInProfile(results: map<Method, seq<QualityMetrics>>, n: int, draws: seq<TrialDraws>)
    requires Iterations(n) <= |draws|
    requires forall i :: 0 <= i < Iterations(n) ==> draws[i].InRange()
    requires IsRun(results, n, draws)
    ensures Traditional in results && Metasprint in results
    ensures forall i :: 0 <= i < |results[Traditional]| ==> TraditionalProfile(results[Traditional][i])
    ensures forall i :: 0 <= i < |results[Metasprint]| ==> MetasprintProfile(results[Metasprint][i])
  {
    RunRecordsInProfile(results, n, draws, Traditional);
    RunRecordsInProfile(results, n, draws, Metasprint);
  }

  /** No list of a run of at least one iteration is empty. */
  lemma NoEmptyList(results: map<Method, seq<QualityMetrics>>, n: int, draws: seq<TrialDraws>)
    requires 1 <= n <= |draws|
    requires forall i :: 0 <= i < Iterations(n) ==> draws[i].InRange()
    requires IsRun(results, n, draws)
    ensures !exists m :: m in results && |results[m]| == 0
  {
  }

  /** A run of no iterations leaves every list empty, and analysing it divides by zero. */
  lemma EmptyRunCannotBeAnalysed(results: map<Method, seq<QualityMetrics>>, n: int, draws: seq<TrialDraws>)
    requires n <= 0
    requires IsRun(results, n, draws)
    ensures Analyze(results) == Err(ZeroDivision)
  {
    assert Traditional in results && |results[Traditional]| == 0;
  }
}
