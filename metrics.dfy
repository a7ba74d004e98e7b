/** The record of one simulated meta-analysis project and its composite score. */
module Metrics {

  /** The three workflow methods compared by the simulation; a closed set of identities. */
  datatype Method = Traditional | Structured | Metasprint

  /** The display label of each method. */
  function Label(m: Method): (s: string)
    ensures |s| > 0
    ensures s[0] == match m
      case Traditional => 'T'
      case Structured => 'S'
      case Metasprint => 'M'
  {
    match m
    case Traditional => "Traditional (Ad-hoc)"
    case Structured => "Structured (Checklist)"
    case Metasprint => "META-SPRINT (Gates+Audits)"
  }

  /** Labels identify methods: two methods with the same label are the same method. */
  lemma LabelInjective(m1: Method, m2: Method)
    requires Label(m1) == Label(m2)
    ensures m1 == m2
  {
    assert Label(m1)[0] == Label(m2)[0];
  }

  /** Quality outcomes of one project. The five scores are fractions (0-1) and
      errorRate is inverted: lower is better. */
  datatype QualityMetrics = QualityMetrics(
    protocolAdherence: real,
    dataAccuracy: real,
    reproducibility: real,
    auditReadiness: real,
    errorRate: real,
    timeDays: int,
    gradeCompleted: bool,
    deviationsLogged: bool)

  predicate InUnit(x: real) { 0.0 <= x <= 1.0 }

  /** Every fractional field lies in [0, 1]. */
  predicate FractionsInUnit(m: QualityMetrics)
  {
    InUnit(m.protocolAdherence) && InUnit(m.dataAccuracy) && InUnit(m.reproducibility)
    && InUnit(m.auditReadiness) && InUnit(m.errorRate)
  }

  // Weights of the composite score; the error-rate weight applies to (1 - errorRate).
  const AdherenceWeight: real := 0.20
  const AccuracyWeight: real := 0.25
  const ReproducibilityWeight: real := 0.20
  const AuditWeight: real := 0.15
  const ErrorWeight: real := 0.20
  /** Bonus added for each of the GRADE and deviation-logging flags. */
  const FlagBonus: real := 0.05

  function Indicator(b: bool): real { if b then 1.0 else 0.0 }

  /** The composite on the 0-100 scale before the cap, written in percentage points:
      each weight times 100, each flag worth five points. */
  ghost function UncappedScore(m: QualityMetrics): real
  {
    20.0 * m.protocolAdherence + 25.0 * m.dataAccuracy + 20.0 * m.reproducibility
    + 15.0 * m.auditReadiness + 20.0 * (1.0 - m.errorRate)
    + 5.0 * Indicator(m.gradeCompleted) + 5.0 * Indicator(m.deviationsLogged)
  }

  /** The composite quality score: weighted sum, flag bonuses, scaled by 100, capped at 100. */
  function OverallQuality(m: QualityMetrics): (r: real)
    ensures r <= 100.0
    ensures r == if UncappedScore(m) <= 100.0 then UncappedScore(m) else 100.0
    ensures FractionsInUnit(m) ==> 0.0 <= r
  {
    var weighted :=
      m.protocolAdherence * AdherenceWeight
      + m.dataAccuracy * AccuracyWeight
      + m.reproducibility * ReproducibilityWeight
      + m.auditReadiness * AuditWeight
      + (1.0 - m.errorRate) * ErrorWeight;
    var withGrade := if m.gradeCompleted then weighted + FlagBonus else weighted;
    var score := if m.deviationsLogged then withGrade + FlagBonus else withGrade;
    if score * 100.0 <= 100.0 then score * 100.0 else 100.0
  }

  /** The five weights add up to one, so a perfect project without flags scores exactly 100. */
  lemma WeightsSumToOne()
    ensures AdherenceWeight + AccuracyWeight + ReproducibilityWeight + AuditWeight + ErrorWeight == 1.0
    ensures OverallQuality(QualityMetrics(1.0, 1.0, 1.0, 1.0, 0.0, 0, false, false)) == 100.0
  {
  }

  /** With fractions in range the uncapped score is at most 110, so the cap removes at most ten points. */
  lemma UncappedAtMost110(m: QualityMetrics)
    requires FractionsInUnit(m)
    ensures 0.0 <= UncappedScore(m) <= 110.0
    ensures UncappedScore(m) - 10.0 <= OverallQuality(m) <= UncappedScore(m)
  {
  }

  /** Turning a flag on never lowers the score. */
  lemma FlagsMonotone(m: QualityMetrics)
    ensures OverallQuality(m) <= OverallQuality(m.(gradeCompleted := true))
    ensures OverallQuality(m) <= OverallQuality(m.(deviationsLogged := true))
  {
  }

  /** Raising a quality field or lowering the error rate never lowers the score. */
  lemma FieldsMonotone(m: QualityMetrics, n: QualityMetrics)
    requires m.protocolAdherence <= n.protocolAdherence && m.dataAccuracy <= n.dataAccuracy
    requires m.reproducibility <= n.reproducibility && m.auditReadiness <= n.auditReadiness
    requires n.errorRate <= m.errorRate
    requires m.gradeCompleted ==> n.gradeCompleted
    requires m.deviationsLogged ==> n.deviationsLogged
    ensures OverallQuality(m) <= OverallQuality(n)
  {
  }
}
