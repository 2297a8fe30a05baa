/**
 * What the engine guarantees: ranges of the metrics, their monotonicity in
 * the dials, the precedence and strictness of the classification rules,
 * and the documented worked scenarios.
 */
module EngineProperties {
  import opened Types
  import opened Engine

  /** The verdict a configuration earns when its own sampling value is passed along. */
  function Verdict(c: Config): Outcome
  {
    GetOutcome(CalculateMetrics(c), Some(c.sampling))
  }

  // ---------------------------------------------------------------------
  // Ranges

  /**
   * For dials in 0–100 the battery lies between 2.0 and 10.0, so the floor
   * at zero never bites; neither clamp of the security formula fires, and
   * of the accessibility clamps only the lower one can.
   */
  lemma InRangeMetrics(c: Config)
    requires InRange(c)
    ensures 2.0 <= CalculateMetrics(c).batteryYears <= 10.0
    ensures CalculateMetrics(c).batteryYears == Round1(RawBattery(c))
    ensures CalculateMetrics(c).securityScore == MathRound(RawSecurity(c))
    ensures RawAccessibility(c) <= 90.0
    ensures CalculateMetrics(c).accessibilityScore == MathRound(Max(0.0, RawAccessibility(c)))
    ensures CalculateMetrics(c).accessibilityScore <= 90
  {
    var raw := RawBattery(c);
    assert 2.0 <= raw <= 10.0;
    assert 20 <= (10.0 * raw + 0.5).Floor <= 100;
  }

  /** No configuration in range reaches the surgical-failure verdict. */
  lemma SurgicalFailureUnreachable(c: Config)
    requires InRange(c)
    ensures Verdict(c) != SurgicalFailure
  {
    InRangeMetrics(c);
  }

  // ---------------------------------------------------------------------
  // Monotonicity

  lemma FloorMonotone(x: real, y: real)
    requires x <= y
    ensures x.Floor <= y.Floor
  {
  }

  lemma Round1Monotone(x: real, y: real)
    requires x <= y
    ensures Round1(x) <= Round1(y)
  {
    if x >= 0.0 {
      FloorMonotone(10.0 * x + 0.5, 10.0 * y + 0.5);
    } else if y < 0.0 {
      FloorMonotone(-10.0 * y + 0.5, -10.0 * x + 0.5);
    }
  }

  lemma ClampMonotone(x: real, y: real)
    requires x <= y
    ensures ClampPercent(x) <= ClampPercent(y)
  {
  }

  /**
   * Security rises with encryption and falls with access; accessibility
   * rises with access and falls with encryption.
   */
  lemma ScoresMonotone(c: Config, d: Config)
    requires c.encryption <= d.encryption && d.access <= c.access
    ensures CalculateMetrics(c).securityScore <= CalculateMetrics(d).securityScore
    ensures CalculateMetrics(d).accessibilityScore <= CalculateMetrics(c).accessibilityScore
  {
    ClampMonotone(RawSecurity(c), RawSecurity(d));
    FloorMonotone(ClampPercent(RawSecurity(c)) + 0.5, ClampPercent(RawSecurity(d)) + 0.5);
    ClampMonotone(RawAccessibility(d), RawAccessibility(c));
    FloorMonotone(ClampPercent(RawAccessibility(d)) + 0.5, ClampPercent(RawAccessibility(c)) + 0.5);
  }

  /** Battery life falls (weakly) as encryption or sampling rises. */
  lemma BatteryMonotone(c: Config, d: Config)
    requires c.encryption <= d.encryption && c.sampling <= d.sampling
    ensures CalculateMetrics(d).batteryYears <= CalculateMetrics(c).batteryYears
  {
    Round1Monotone(RawBattery(d), RawBattery(c));
  }

  // ---------------------------------------------------------------------
  // Classification: an independent description by decision regions

  /** Rules 1 and 2 did not fire. */
  predicate Live(m: Metrics, sampling: Option<real>)
  {
    !(sampling == Some(0.0)) && m.batteryYears >= 2.0
  }

  /**
   * The region of (metrics, sampling) pairs in which each outcome is the
   * verdict, written as disjoint conditions rather than as an ordered chain.
   */
  predicate Region(o: Outcome, m: Metrics, sampling: Option<real>)
  {
    var sec, acc := m.securityScore, m.accessibilityScore;
    match o
    case AlgorithmFailure => sampling == Some(0.0)
    case SurgicalFailure => sampling != Some(0.0) && m.batteryYears < 2.0
    case LockoutDeath => Live(m, sampling) && sec > 80 && acc < 30
    case Ransomware => Live(m, sampling) && acc > 70 && sec < 40
    case PrivacyLeak => Live(m, sampling) && acc > 60 && sec < 60 && (acc <= 70 || sec >= 40)
    case LatencyCritical => Live(m, sampling) && sec > 80 && 30 <= acc < 50
    case OptimalStabilization =>
      Live(m, sampling) && (sec <= 80 || acc >= 50) && (acc <= 60 || sec >= 60)
  }

  /** The ordered rule chain yields exactly the outcome whose region holds. */
  lemma ClassifierMatchesRegions(m: Metrics, sampling: Option<real>, o: Outcome)
    ensures GetOutcome(m, sampling) == o <==> Region(o, m, sampling)
  {
    match o
    case AlgorithmFailure =>
    case SurgicalFailure =>
    case LockoutDeath =>
    case Ransomware =>
    case PrivacyLeak =>
    case LatencyCritical =>
    case OptimalStabilization =>
  }

  /** Every pair lies in exactly one region, so the classifier is total and unambiguous. */
  lemma RegionsPartition(m: Metrics, sampling: Option<real>)
    ensures Region(GetOutcome(m, sampling), m, sampling)
    ensures forall o1: Outcome, o2: Outcome ::
      Region(o1, m, sampling) && Region(o2, m, sampling) ==> o1 == o2
  {
    ClassifierMatchesRegions(m, sampling, GetOutcome(m, sampling));
    forall o1: Outcome, o2: Outcome | Region(o1, m, sampling) && Region(o2, m, sampling)
      ensures o1 == o2
    {
      ClassifierMatchesRegions(m, sampling, o1);
      ClassifierMatchesRegions(m, sampling, o2);
    }
  }

  // ---------------------------------------------------------------------
  // Rule 1 and the optional sampling argument

  /** A supplied sampling of zero means algorithm failure, whatever the metrics. */
  lemma ZeroSamplingForcesAlgorithmFailure(m: Metrics)
    ensures GetOutcome(m, Some(0.0)) == AlgorithmFailure
  {
  }

  /**
   * Without the sampling argument rule 1 is skipped: the verdict is never
   * algorithm failure and equals the verdict for any non-zero sampling.
   */
  lemma MissingSamplingSkipsRuleOne(m: Metrics, s: real)
    requires s != 0.0
    ensures GetOutcome(m, None) != AlgorithmFailure
    ensures GetOutcome(m, None) == GetOutcome(m, Some(s))
  {
  }

  // ---------------------------------------------------------------------
  // Precedence and strict boundaries

  /** Where both the lockout and the latency tests hold, lockout wins. */
  lemma LockoutPrecedesLatency(m: Metrics, sampling: Option<real>)
    requires Live(m, sampling)
    requires LockoutTest(m)
    ensures LatencyTest(m)
    ensures GetOutcome(m, sampling) == LockoutDeath
  {
  }

  /** Every ransomware case also passes the privacy-leak test, but yields ransomware. */
  lemma RansomwarePrecedesPrivacyLeak(m: Metrics, sampling: Option<real>)
    requires Live(m, sampling)
    requires RansomwareTest(m)
    ensures PrivacyLeakTest(m)
    ensures GetOutcome(m, sampling) == Ransomware
  {
  }

  /** The comparisons are strict: values exactly at a threshold do not trigger its rule. */
  lemma StrictBoundaries(m: Metrics, sampling: Option<real>)
    ensures m.securityScore == 80 ==>
      GetOutcome(m, sampling) != LockoutDeath && GetOutcome(m, sampling) != LatencyCritical
    ensures m.accessibilityScore == 30 ==> GetOutcome(m, sampling) != LockoutDeath
    ensures m.batteryYears == 2.0 ==> GetOutcome(m, sampling) != SurgicalFailure
  {
  }

  /** The verdict is optimal exactly when rule 1 does not apply and none of the five tests holds. */
  lemma OptimalExactlyWhenNoTestHolds(m: Metrics, sampling: Option<real>)
    ensures GetOutcome(m, sampling) == OptimalStabilization <==>
      !NoSignal(sampling) && !BatteryDead(m) && !LockoutTest(m) && !RansomwareTest(m)
      && !PrivacyLeakTest(m) && !LatencyTest(m)
  {
  }

  /** Latency is the verdict only for security above 80 with accessibility in [30, 50). */
  lemma LatencyWindow(m: Metrics, sampling: Option<real>)
    ensures GetOutcome(m, sampling) == LatencyCritical <==>
      Live(m, sampling) && m.securityScore > 80 && 30 <= m.accessibilityScore < 50
  {
    ClassifierMatchesRegions(m, sampling, LatencyCritical);
  }

  // ---------------------------------------------------------------------
  // Worked scenarios

  /** The documented scenarios, computed through both stages. */
  lemma WorkedScenarios()
    ensures CalculateMetrics(Config(50.0, 50.0, 50.0)) == Metrics(6.0, 50, 40)
    ensures Verdict(Config(50.0, 50.0, 50.0)) == OptimalStabilization
    ensures CalculateMetrics(Config(100.0, 10.0, 100.0)) == Metrics(2.0, 97, 0)
    ensures Verdict(Config(100.0, 10.0, 100.0)) == LockoutDeath
    ensures CalculateMetrics(Config(0.0, 100.0, 50.0)).securityScore == 0
    ensures CalculateMetrics(Config(0.0, 100.0, 50.0)).accessibilityScore == 90
    ensures Verdict(Config(0.0, 100.0, 50.0)) == Ransomware
    ensures CalculateMetrics(Config(100.0, 100.0, 100.0)) == Metrics(2.0, 70, 80)
    ensures Verdict(Config(100.0, 100.0, 100.0)) == OptimalStabilization
    ensures Verdict(Config(100.0, 0.0, 0.0)) == AlgorithmFailure
  {
    assert (10.0 * 6.0 + 0.5).Floor == 60;
    assert (10.0 * 2.0 + 0.5).Floor == 20;
    assert (50.0 + 0.5).Floor == 50 && (40.0 + 0.5).Floor == 40;
    assert (97.0 + 0.5).Floor == 97 && (0.0 + 0.5).Floor == 0;
    assert (90.0 + 0.5).Floor == 90;
    assert (70.0 + 0.5).Floor == 70 && (80.0 + 0.5).Floor == 80;
  }

  /** Configurations in range that end in a privacy leak and in pacing latency. */
  lemma MoreScenarios()
    ensures CalculateMetrics(Config(50.0, 80.0, 50.0)) == Metrics(6.0, 41, 67)
    ensures Verdict(Config(50.0, 80.0, 50.0)) == PrivacyLeak
    ensures CalculateMetrics(Config(100.0, 50.0, 50.0)) == Metrics(4.0, 85, 35)
    ensures Verdict(Config(100.0, 50.0, 50.0)) == LatencyCritical
  {
    assert (10.0 * 6.0 + 0.5).Floor == 60;
    assert (41.0 + 0.5).Floor == 41 && (67.0 + 0.5).Floor == 67;
    assert (10.0 * 4.0 + 0.5).Floor == 40;
    assert (85.0 + 0.5).Floor == 85 && (35.0 + 0.5).Floor == 35;
  }

  /** Every verdict except surgical failure is reached by some configuration in range. */
  lemma EveryOtherVerdictReachable(o: Outcome)
    requires o != SurgicalFailure
    ensures exists c :: InRange(c) && Verdict(c) == o
  {
    WorkedScenarios();
    MoreScenarios();
    match o
    case AlgorithmFailure => assert InRange(Config(100.0, 0.0, 0.0));
    case LockoutDeath => assert InRange(Config(100.0, 10.0, 100.0));
    case Ransomware => assert InRange(Config(0.0, 100.0, 50.0));
    case OptimalStabilization => assert InRange(Config(50.0, 50.0, 50.0));
    case PrivacyLeak => assert InRange(Config(50.0, 80.0, 50.0));
    case LatencyCritical => assert InRange(Config(100.0, 50.0, 50.0));
  }
}
