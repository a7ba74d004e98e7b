/** The Monte Carlo trial loop: each iteration draws one record per method. */
module Simulation {
  import opened Metrics
  import opened Generators

  const AllMethods: set<Method> := {Traditional, Structured, Metasprint}

  /** The number of iterations of a loop over range(n): none when n is not positive. */
  function Iterations(n: int): (k: nat)
    ensures n <= 0 ==> k == 0
    ensures n > 0 ==> k == n
  {
    if n <= 0 then 0 else n
  }

  /** `results` is the outcome of n iterations over `draws`: one list per method, each of
      length Iterations(n), whose i-th record is that method's generator applied to the
      i-th iteration's draws. */
  predicate IsRun(results: map<Method, seq<QualityMetrics>>, n: int, draws: seq<TrialDraws>)
    requires Iterations(n) <= |draws|
    requires forall i :: 0 <= i < Iterations(n) ==> draws[i].InRange()
  {
    results.Keys == AllMethods
    && (forall m :: m in results ==> |results[m]| == Iterations(n))
    && forall m, i :: m in results && 0 <= i < |results[m]| ==>
         results[m][i] == Generate(m, draws[i])
  }

  /** Runs n iterations; iteration i consumes draws[i]. */
  method RunSimulation(n: int, draws: seq<TrialDraws>) returns (results: map<Method, seq<QualityMetrics>>)
    requires Iterations(n) <= |draws|
    requires forall i :: 0 <= i < Iterations(n) ==> draws[i].InRange()
    ensures IsRun(results, n, draws)
  {
    results := map[Traditional := [], Structured := [], Metasprint := []];
    var i := 0;
    while i < n
      invariant 0 <= i <= Iterations(n)
      invariant results.Keys == AllMethods
      invariant |results[Traditional]| == |results[Structured]| == |results[Metasprint]| == i
      invariant forall j :: 0 <= j < i ==> results[Traditional][j] == Generate(Traditional, draws[j])
      invariant forall j :: 0 <= j < i ==> results[Structured][j] == Generate(Structured, draws[j])
      invariant forall j :: 0 <= j < i ==> results[Metasprint][j] == Generate(Metasprint, draws[j])
    {
      var traditional := SimulateTraditional(draws[i].traditional);
      var structured := SimulateStructured(draws[i].structured);
      var sprint := SimulateMetasprint(draws[i].metasprint);
      results := results[Traditional := results[Traditional] + [traditional]];
      results := results[Structured := results[Structured] + [structured]];
      results := results[Metasprint := results[Metasprint] + [sprint]];
      i := i + 1;
    }
    PerMethodListsFormRun(results, n, draws);
  }

  /** Lists that hold, for each method, that method's generator applied to each iteration's
      draws make up a run. */
  lemma PerMethodListsFormRun(results: map<Method, seq<QualityMetrics>>, n: int, draws: seq<TrialDraws>)
    requires Iterations(n) <= |draws|
    requires forall i :: 0 <= i < Iterations(n) ==> draws[i].InRange()
    requires results.Keys == AllMethods
    requires |results[Traditional]| == |results[Structured]| == |results[Metasprint]| == Iterations(n)
    requires forall j :: 0 <= j < Iterations(n) ==> results[Traditional][j] == Generate(Traditional, draws[j])
    requires forall j :: 0 <= j < Iterations(n) ==> results[Structured][j] == Generate(Structured, draws[j])
    requires forall j :: 0 <= j < Iterations(n) ==> results[Metasprint][j] == Generate(Metasprint, draws[j])
    ensures IsRun(results, n, draws)
  {
    forall m, i | m in results && 0 <= i < |results[m]|
      ensures results[m][i] == Generate(m, draws[i])
    {
      match m
      case Traditional =>
      case Structured =>
      case Metasprint =>
    }
  }

  /** In a run every record lies in its method's profile, so in particular every fraction
      is in [0, 1] and every composite score in [0, 100]. */
  lemma {:induction false} RunRecordsInProfile(results: map<Method, seq<QualityMetrics>>, n: int, draws: seq<TrialDraws>, m: Method)
    requires Iterations(n) <= |draws|
    requires forall i :: 0 <= i < Iterations(n) ==> draws[i].InRange()
    requires IsRun(results, n, draws)
    ensures m in results
    ensures forall i :: 0 <= i < |results[m]| ==>
      Profile(m, results[m][i]) && FractionsInUnit(results[m][i]) && 0.0 <= OverallQuality(results[m][i]) <= 100.0
  {
    forall i | 0 <= i < |results[m]|
      ensures Profile(m, results[m][i]) && FractionsInUnit(results[m][i])
      ensures 0.0 <= OverallQuality(results[m][i]) <= 100.0
    {
      assert results[m][i] == Generate(m, draws[i]);
    }
  }
}
