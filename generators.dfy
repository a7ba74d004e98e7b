/** The three trial generators. Each random call of compare_methods.py becomes an explicit draw:
    a uniform draw on [a, b] is a real in [a, b], an integer draw on [a, b] an int in [a, b],
    and a Bernoulli test `random() < p` a real u in [0, 1) compared with p. */
module Generators {
  import opened Metrics
  import opened Statistics

  predicate Between(x: real, lo: real, hi: real) { lo <= x <= hi }

  /** A draw of random() in [0, 1). */
  predicate Unit(u: real) { 0.0 <= u < 1.0 }

  // ---------------------------------------------------------------------------
  // Traditional (ad-hoc) method

  datatype TraditionalDraws = TraditionalDraws(
    drift: real,            // protocol drift severity, uniform(0.3, 0.5)
    adherence: real,        // uniform(0.5, 0.8), before the drift penalty
    accuracy: real,         // uniform(0.7, 0.9)
    reproducibility: real,  // uniform(0.3, 0.6)
    audit: real,            // uniform(0.2, 0.5)
    errorRate: real,        // uniform(0.1, 0.3)
    timeDays: int,          // randint(90, 365)
    gradeDraw: real,        // random(), GRADE done when < 0.4
    deviationsDraw: real)   // random(), deviations logged when < 0.3
  {
    predicate InRange()
    {
      Between(drift, 0.3, 0.5) && Between(adherence, 0.5, 0.8) && Between(accuracy, 0.7, 0.9)
      && Between(reproducibility, 0.3, 0.6) && Between(audit, 0.2, 0.5)
      && Between(errorRate, 0.1, 0.3) && 90 <= timeDays <= 365
      && Unit(gradeDraw) && Unit(deviationsDraw)
    }
  }

  /** The ranges every traditional record falls in. */
  predicate TraditionalProfile(m: QualityMetrics)
  {
    Between(m.protocolAdherence, 0.35, 0.71) && Between(m.dataAccuracy, 0.7, 0.9)
    && Between(m.reproducibility, 0.3, 0.6) && Between(m.auditReadiness, 0.2, 0.5)
    && Between(m.errorRate, 0.1, 0.3) && 90 <= m.timeDays <= 365
  }

  function SimulateTraditional(d: TraditionalDraws): (m: QualityMetrics)
    requires d.InRange()
    ensures FractionsInUnit(m) && TraditionalProfile(m)
    ensures m.gradeCompleted <==> d.gradeDraw < 0.4
    ensures m.deviationsLogged <==> d.deviationsDraw < 0.3
    ensures m.protocolAdherence <= d.adherence - 0.09
  {
    QualityMetrics(
      protocolAdherence := d.adherence - d.drift * 0.3,
      dataAccuracy := d.accuracy,
      reproducibility := d.reproducibility,
      auditReadiness := d.audit,
      errorRate := d.errorRate,
      timeDays := d.timeDays,
      gradeCompleted := d.gradeDraw < 0.4,
      deviationsLogged := d.deviationsDraw < 0.3)
  }

  /** No traditional record scores above 84.2. */
  lemma TraditionalQualityBound(m: QualityMetrics)
    requires TraditionalProfile(m)
    ensures 47.5 <= OverallQuality(m) <= 84.2
  {
  }

  // ---------------------------------------------------------------------------
  // Structured (checklist) method

  datatype StructuredDraws = StructuredDraws(
    adherence: real,        // uniform(0.65, 0.85)
    accuracy: real,         // uniform(0.75, 0.92)
    reproducibility: real,  // uniform(0.5, 0.75)
    audit: real,            // uniform(0.5, 0.7)
    errorRate: real,        // uniform(0.05, 0.2)
    timeDays: int,          // randint(60, 180)
    gradeDraw: real,        // random(), GRADE done when < 0.6
    deviationsDraw: real)   // random(), deviations logged when < 0.5
  {
    predicate InRange()
    {
      Between(adherence, 0.65, 0.85) && Between(accuracy, 0.75, 0.92)
      && Between(reproducibility, 0.5, 0.75) && Between(audit, 0.5, 0.7)
      && Between(errorRate, 0.05, 0.2) && 60 <= timeDays <= 180
      && Unit(gradeDraw) && Unit(deviationsDraw)
    }
  }

  /** The ranges every structured record falls in. */
  predicate StructuredProfile(m: QualityMetrics)
  {
    Between(m.protocolAdherence, 0.65, 0.85) && Between(m.dataAccuracy, 0.75, 0.92)
    && Between(m.reproducibility, 0.5, 0.75) && Between(m.auditReadiness, 0.5, 0.7)
    && Between(m.errorRate, 0.05, 0.2) && 60 <= m.timeDays <= 180
  }

  function SimulateStructured(d: StructuredDraws): (m: QualityMetrics)
    requires d.InRange()
    ensures FractionsInUnit(m) && StructuredProfile(m)
    ensures m.gradeCompleted <==> d.gradeDraw < 0.6
    ensures m.deviationsLogged <==> d.deviationsDraw < 0.5
  {
    QualityMetrics(
      protocolAdherence := d.adherence,
      dataAccuracy := d.accuracy,
      reproducibility := d.reproducibility,
      auditReadiness := d.audit,
      errorRate := d.errorRate,
      timeDays := d.timeDays,
      gradeCompleted := d.gradeDraw < 0.6,
      deviationsLogged := d.deviationsDraw < 0.5)
  }

  /** No structured record scores above 94.5. */
  lemma StructuredQualityBound(m: QualityMetrics)
    requires StructuredProfile(m)
    ensures OverallQuality(m) <= 94.5
  {
  }

  // ---------------------------------------------------------------------------
  // META-SPRINT method: four gates, two audits, red-team bonus, conditional extension

  datatype MetasprintDraws = MetasprintDraws(
    gateA: real,            // random(), gate A (protocol lock) passes when < 0.95
    gateB: real,            // random(), gate B (search lock) passes when < 0.92
    gateC: real,            // random(), gate C (extraction lock) passes when < 0.90
    gateD: real,            // random(), gate D (analysis lock) passes when < 0.88
    audit1Caught: real,     // uniform(0.6, 0.9), fraction of errors caught by audit 1
    audit2Caught: real,     // uniform(0.7, 0.95), fraction caught by audit 2
    redteam: real,          // uniform(0.05, 0.15), red-team accuracy improvement
    adherence: real,        // uniform(0.85, 0.98)
    baseAccuracy: real,     // uniform(0.85, 0.95)
    reproducibility: real,  // uniform(0.85, 0.98)
    audit: real,            // uniform(0.9, 0.99)
    initialErrors: real,    // uniform(0.15, 0.25)
    condGoDraw: real)       // random(), conditional go extends the timeline when < 0.15
  {
    predicate InRange()
    {
      Unit(gateA) && Unit(gateB) && Unit(gateC) && Unit(gateD)
      && Between(audit1Caught, 0.6, 0.9) && Between(audit2Caught, 0.7, 0.95)
      && Between(redteam, 0.05, 0.15) && Between(adherence, 0.85, 0.98)
      && Between(baseAccuracy, 0.85, 0.95) && Between(reproducibility, 0.85, 0.98)
      && Between(audit, 0.9, 0.99) && Between(initialErrors, 0.15, 0.25)
      && Unit(condGoDraw)
    }

    predicate GateAPasses() { gateA < 0.95 }
    predicate GateDPasses() { gateD < 0.88 }
    predicate CondGoTriggered() { condGoDraw < 0.15 }
  }

  /** Penalty applied to a field when the gate guarding it fails. */
  const GatePenalty: real := 0.1
  /** Irreducible residual error rate. */
  const ErrorFloor: real := 0.01
  /** Cap on data accuracy after the red-team improvement. */
  const AccuracyCap: real := 0.99

  /** The ranges every META-SPRINT record falls in. */
  predicate MetasprintProfile(m: QualityMetrics)
  {
    Between(m.protocolAdherence, 0.75, 0.98) && Between(m.dataAccuracy, 0.9, 0.99)
    && Between(m.reproducibility, 0.75, 0.98) && Between(m.auditReadiness, 0.9, 0.99)
    && Between(m.errorRate, 0.01, 0.03) && (m.timeDays == 40 || m.timeDays == 45)
    && m.gradeCompleted && m.deviationsLogged
  }

  /** The error rate left after the two audits, each catching a fraction of what remains. */
  function ResidualErrors(initial: real, caught1: real, caught2: real): (e: real)
    requires Between(initial, 0.15, 0.25) && Between(caught1, 0.6, 0.9) && Between(caught2, 0.7, 0.95)
    ensures e == initial * (1.0 - caught1) * (1.0 - caught2)
    ensures 0.0 <= e <= 0.03
  {
    var afterAudit1 := initial * (1.0 - caught1);
    ScaleMonotoneReal(initial, 0.25, 1.0 - caught1);
    assert 0.25 * (1.0 - caught1) <= 0.1;
    var afterAudit2 := afterAudit1 * (1.0 - caught2);
    ScaleMonotoneReal(afterAudit1, 0.1, 1.0 - caught2);
    assert 0.1 * (1.0 - caught2) <= 0.03;
    afterAudit2
  }

  function SimulateMetasprint(d: MetasprintDraws): (m: QualityMetrics)
    requires d.InRange()
    ensures FractionsInUnit(m) && MetasprintProfile(m)
    // gates A and D cost exactly the fixed penalty when they fail
    ensures m.protocolAdherence == if d.GateAPasses() then d.adherence else d.adherence - GatePenalty
    ensures m.reproducibility == if d.GateDPasses() then d.reproducibility else d.reproducibility - GatePenalty
    // accuracy is the base plus the red-team bonus, capped
    ensures m.dataAccuracy <= AccuracyCap && m.dataAccuracy <= d.baseAccuracy + d.redteam
    ensures m.dataAccuracy == AccuracyCap || m.dataAccuracy == d.baseAccuracy + d.redteam
    ensures d.baseAccuracy + d.redteam <= AccuracyCap ==> m.dataAccuracy == d.baseAccuracy + d.redteam
    // error rate: both audits applied in turn, floored
    ensures m.errorRate >= ErrorFloor
    ensures m.errorRate == ErrorFloor || m.errorRate == d.initialErrors * (1.0 - d.audit1Caught) * (1.0 - d.audit2Caught)
    ensures d.initialErrors * (1.0 - d.audit1Caught) * (1.0 - d.audit2Caught) <= m.errorRate
    // the conditional go extends 40 days to 45
    ensures m.timeDays == 45 <==> d.CondGoTriggered()
  {
    var adherence := if !d.GateAPasses() then d.adherence - GatePenalty else d.adherence;
    var accuracy := if d.baseAccuracy + d.redteam <= AccuracyCap then d.baseAccuracy + d.redteam else AccuracyCap;
    var reproducibility := if !d.GateDPasses() then d.reproducibility - GatePenalty else d.reproducibility;
    var residual := ResidualErrors(d.initialErrors, d.audit1Caught, d.audit2Caught);
    QualityMetrics(
      protocolAdherence := adherence,
      dataAccuracy := accuracy,
      reproducibility := reproducibility,
      auditReadiness := d.audit,
      errorRate := if residual >= ErrorFloor then residual else ErrorFloor,
      timeDays := if d.CondGoTriggered() then 45 else 40,
      gradeCompleted := true,
      deviationsLogged := true)
  }

  /** The outcomes of gates B and C affect no field of the record. */
  lemma GatesBAndCIrrelevant(d: MetasprintDraws, b: real, c: real)
    requires d.InRange() && Unit(b) && Unit(c)
    ensures d.(gateB := b, gateC := c).InRange()
    ensures SimulateMetasprint(d.(gateB := b, gateC := c)) == SimulateMetasprint(d)
  {
  }

  /** Every META-SPRINT record scores at least 95.4. */
  lemma MetasprintQualityBound(m: QualityMetrics)
    requires MetasprintProfile(m)
    ensures 95.4 <= OverallQuality(m)
  {
  }

  /** Every META-SPRINT record outscores every traditional and every structured record. */
  lemma MetasprintDominates(s: QualityMetrics, t: QualityMetrics, c: QualityMetrics)
    requires MetasprintProfile(s) && TraditionalProfile(t) && StructuredProfile(c)
    ensures OverallQuality(t) < OverallQuality(s)
    ensures OverallQuality(c) < OverallQuality(s)
  {
    MetasprintQualityBound(s);
    TraditionalQualityBound(t);
    StructuredQualityBound(c);
  }

  // ---------------------------------------------------------------------------
  // One generator interface over the three methods

  /** The draws consumed by one iteration of the trial loop, one record per method. */
  datatype TrialDraws = TrialDraws(
    traditional: TraditionalDraws,
    structured: StructuredDraws,
    metasprint: MetasprintDraws)
  {
    predicate InRange()
    {
      traditional.InRange() && structured.InRange() && metasprint.InRange()
    }
  }

  /** The ranges records of method `which` fall in. */
  predicate Profile(which: Method, m: QualityMetrics)
  {
    match which
    case Traditional => TraditionalProfile(m)
    case Structured => StructuredProfile(m)
    case Metasprint => MetasprintProfile(m)
  }

  /** The generator of each method, applied to that method's part of the draws. */
  function Generate(which: Method, d: TrialDraws): (m: QualityMetrics)
    requires d.InRange()
    ensures FractionsInUnit(m) && Profile(which, m)
  {
    match which
    case Traditional => SimulateTraditional(d.traditional)
    case Structured => SimulateStructured(d.structured)
    case Metasprint => SimulateMetasprint(d.metasprint)
  }
}
