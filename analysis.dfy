/** Summary statistics of each method's list of records. */
module Analysis {
  import opened Metrics
  import opened Statistics

  /** The one failure of the aggregator: the grade percentage divides by the list length. */
  datatype Error = ZeroDivision

  datatype Result<T> = Ok(value: T) | Err(error: Error)

  /** The statistics of one method. Standard deviations appear as population variances. */
  datatype Summary = Summary(
    qualityMean: real,
    qualityVariance: real,
    qualityLow: real,          // 2.5th percentile of the quality scores
    qualityHigh: real,         // 97.5th percentile of the quality scores
    errorRateMean: real,       // in percent
    errorRateVariance: real,
    timeMean: real,
    timeVariance: real,
    reproducibilityMean: real, // in percent
    gradeCompletion: real)     // percentage of records with GRADE completed

  function Qualities(ms: seq<QualityMetrics>): (r: seq<real>)
    ensures |r| == |ms| && forall i :: 0 <= i < |ms| ==> r[i] == OverallQuality(ms[i])
  {
    seq(|ms|, i requires 0 <= i < |ms| => OverallQuality(ms[i]))
  }

  function ErrorRates(ms: seq<QualityMetrics>): (r: seq<real>)
    ensures |r| == |ms| && forall i :: 0 <= i < |ms| ==> r[i] == ms[i].errorRate * 100.0
  {
    seq(|ms|, i requires 0 <= i < |ms| => ms[i].errorRate * 100.0)
  }

  function Times(ms: seq<QualityMetrics>): (r: seq<real>)
    ensures |r| == |ms| && forall i :: 0 <= i < |ms| ==> r[i] == ms[i].timeDays as real
  {
    seq(|ms|, i requires 0 <= i < |ms| => ms[i].timeDays as real)
  }

  function Reproducibilities(ms: seq<QualityMetrics>): (r: seq<real>)
    ensures |r| == |ms| && forall i :: 0 <= i < |ms| ==> r[i] == ms[i].reproducibility * 100.0
  {
    seq(|ms|, i requires 0 <= i < |ms| => ms[i].reproducibility * 100.0)
  }

  /** The number of records with GRADE completed. */
  function CountGraded(ms: seq<QualityMetrics>): (k: nat)
    ensures k <= |ms|
    ensures k == |ms| <==> forall i :: 0 <= i < |ms| ==> ms[i].gradeCompleted
    ensures k == 0 <==> forall i :: 0 <= i < |ms| ==> !ms[i].gradeCompleted
  {
    if ms == [] then 0
    else (if ms[0].gradeCompleted then 1 else 0) + CountGraded(ms[1..])
  }

  /** The percentage of records with GRADE completed; an empty list divides by zero. */
  function GradeCompletion(ms: seq<QualityMetrics>): (r: Result<real>)
    ensures r.Err? <==> |ms| == 0
    ensures r.Ok? ==> 0.0 <= r.value <= 100.0
    ensures r.Ok? ==> (r.value == 100.0 <==> forall i :: 0 <= i < |ms| ==> ms[i].gradeCompleted)
    ensures r.Ok? ==> (r.value == 0.0 <==> forall i :: 0 <= i < |ms| ==> !ms[i].gradeCompleted)
  {
    if |ms| == 0 then Err(ZeroDivision)
    else
      var k := CountGraded(ms);
      QuotientBounds(k as real, |ms| as real, 0.0, 1.0);
      assert k as real / |ms| as real == 1.0 ==> k == |ms|;
      Ok(k as real / |ms| as real * 100.0)
  }

  /** The summary of one method's records. */
  function Summarize(ms: seq<QualityMetrics>): (r: Result<Summary>)
    ensures r.Err? <==> |ms| == 0
    ensures r.Ok? ==> r.value.qualityLow <= r.value.qualityHigh
    ensures r.Ok? ==> 0.0 <= r.value.gradeCompletion <= 100.0
    ensures r.Ok? ==> 0.0 <= r.value.qualityVariance && 0.0 <= r.value.errorRateVariance && 0.0 <= r.value.timeVariance
    // a single record: every mean and both percentiles are its own values, every variance 0
    ensures |ms| == 1 ==> r.Ok? && r.value.qualityMean == r.value.qualityLow == r.value.qualityHigh == OverallQuality(ms[0])
    ensures |ms| == 1 ==> r.value.qualityVariance == r.value.errorRateVariance == r.value.timeVariance == 0.0
    ensures |ms| == 1 ==> r.value.errorRateMean == ms[0].errorRate * 100.0 && r.value.timeMean == ms[0].timeDays as real
    ensures |ms| == 1 ==> r.value.reproducibilityMean == ms[0].reproducibility * 100.0
  {
    match GradeCompletion(ms)
    case Err(e) => Err(e)
    case Ok(grade) =>
      var quality := Qualities(ms);
      PercentileMonotone(quality, 2.5, 97.5);
      Ok(Summary(
        qualityMean := Mean(quality),
        qualityVariance := Variance(quality),
        qualityLow := Percentile(quality, 2.5),
        qualityHigh := Percentile(quality, 97.5),
        errorRateMean := Mean(ErrorRates(ms)),
        errorRateVariance := Variance(ErrorRates(ms)),
        timeMean := Mean(Times(ms)),
        timeVariance := Variance(Times(ms)),
        reproducibilityMean := Mean(Reproducibilities(ms)),
        gradeCompletion := grade))
  }

  /** The means of a summary are the means of the record lists. */
  lemma SummaryMeans(ms: seq<QualityMetrics>)
    requires |ms| > 0
    ensures Summarize(ms).Ok?
    ensures var s := Summarize(ms).value;
      s.qualityMean == Mean(Qualities(ms)) && s.errorRateMean == Mean(ErrorRates(ms))
      && s.timeMean == Mean(Times(ms)) && s.reproducibilityMean == Mean(Reproducibilities(ms))
  {
  }

  /** Bounds on every record's score are bounds on the list of scores. */
  lemma QualitiesBetween(ms: seq<QualityMetrics>, lo: real, hi: real)
    requires forall i :: 0 <= i < |ms| ==> lo <= OverallQuality(ms[i]) <= hi
    ensures AllBetween(Qualities(ms), lo, hi)
  {
  }

  /** Records whose fractions are all in [0, 1] give a summary on the documented scales. */
  lemma SummaryBounds(ms: seq<QualityMetrics>)
    requires |ms| > 0 && forall i :: 0 <= i < |ms| ==> FractionsInUnit(ms[i])
    ensures Summarize(ms).Ok?
    ensures var s := Summarize(ms).value;
      0.0 <= s.qualityLow && 0.0 <= s.qualityMean <= 100.0 && s.qualityHigh <= 100.0
      && 0.0 <= s.errorRateMean <= 100.0 && 0.0 <= s.reproducibilityMean <= 100.0
  {
    var quality := Qualities(ms);
    var s := Summarize(ms).value;
    assert s.qualityMean == Mean(quality) && s.qualityLow == Percentile(quality, 2.5);
    assert s.qualityHigh == Percentile(quality, 97.5);
    assert s.errorRateMean == Mean(ErrorRates(ms)) && s.reproducibilityMean == Mean(Reproducibilities(ms));
    assert AllBetween(quality, 0.0, 100.0);
    MeanBounds(quality, 0.0, 100.0);
    PercentileBetween(quality, 2.5, 0.0, 100.0);
    PercentileBetween(quality, 97.5, 0.0, 100.0);
    MeanBounds(ErrorRates(ms), 0.0, 100.0);
    MeanBounds(Reproducibilities(ms), 0.0, 100.0);
  }

  /** The summary of every method; the first empty list fails with a division by zero. */
  function Analyze(results: map<Method, seq<QualityMetrics>>): (r: Result<map<Method, Summary>>)
    ensures r.Err? <==> exists m :: m in results && |results[m]| == 0
    ensures r.Ok? ==> r.value.Keys == results.Keys
    ensures r.Ok? ==> forall m :: m in results ==> Summarize(results[m]) == Ok(r.value[m])
  {
    if exists m :: m in results && |results[m]| == 0 then Err(ZeroDivision)
    else Ok(map m | m in results :: Summarize(results[m]).value)
  }
}
