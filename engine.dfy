/**
 * The pacemaker engine: the metrics derived from a configuration and the
 * first-match-wins classification of those metrics into an outcome.
 * Arithmetic is on exact reals.
 */
module Engine {
  import opened Types
  import opened Constants

  function Min(a: real, b: real): real { if a <= b then a else b }

  function Max(a: real, b: real): real { if a >= b then a else b }

  /** `Math.round`: the nearest integer, halves rounded up. */
  function MathRound(x: real): (r: int)
    ensures x - 0.5 < r as real <= x + 0.5
  {
    (x + 0.5).Floor
  }

  /** A real that is a whole number of tenths. */
  predicate IsTenths(x: real)
  {
    (10.0 * x).Floor as real == 10.0 * x
  }

  /**
   * `parseFloat(x.toFixed(1))`: the nearest tenth, halves rounded away
   * from zero.
   */
  function Round1(x: real): (r: real)
    ensures IsTenths(r)
    ensures x >= 0.0 ==> x - 0.05 < r <= x + 0.05
    ensures x < 0.0 ==> x - 0.05 <= r < x + 0.05
  {
    var n := if x >= 0.0 then (10.0 * x + 0.5).Floor else -((-10.0 * x + 0.5).Floor);
    assert 10.0 * (n as real / 10.0) == n as real;
    assert (n as real).Floor == n;
    n as real / 10.0
  }

  /** Battery life before rounding: ten years, less up to four for each of encryption and sampling. */
  function RawBattery(c: Config): real
  {
    10.0 - c.encryption / 100.0 * 4.0 - c.sampling / 100.0 * 4.0
  }

  /** Security before clamping and rounding. */
  function RawSecurity(c: Config): real
  {
    c.encryption * 0.7 + (100.0 - c.access) * 0.3
  }

  /** Accessibility before clamping and rounding. */
  function RawAccessibility(c: Config): real
  {
    c.access * 0.9 - c.encryption * 0.1
  }

  /** `Math.min(100, Math.max(0, x))`. */
  function ClampPercent(x: real): (r: real)
    ensures 0.0 <= r <= 100.0
    ensures 0.0 <= x <= 100.0 ==> r == x
    ensures x < 0.0 ==> r == 0.0
    ensures x > 100.0 ==> r == 100.0
  {
    Min(100.0, Max(0.0, x))
  }

  /**
   * `PacemakerEngine.calculateMetrics`: battery life rounded to a tenth
   * and never negative, and two integer percentage scores.
   */
  function CalculateMetrics(c: Config): (m: Metrics)
    ensures m.batteryYears >= 0.0 && IsTenths(m.batteryYears)
    ensures -0.05 <= m.batteryYears - Max(0.0, RawBattery(c)) <= 0.05
    ensures 0 <= m.securityScore <= 100
    ensures 0 <= m.accessibilityScore <= 100
    ensures -0.5 < m.securityScore as real - ClampPercent(RawSecurity(c)) <= 0.5
    ensures -0.5 < m.accessibilityScore as real - ClampPercent(RawAccessibility(c)) <= 0.5
  {
    Metrics(
      Max(0.0, Round1(RawBattery(c))),
      MathRound(ClampPercent(RawSecurity(c))),
      MathRound(ClampPercent(RawAccessibility(c))))
  }

  /** The test of rule 2: the battery will not outlast the next operation. */
  predicate BatteryDead(m: Metrics) { m.batteryYears < Thresholds.batteryDeath }

  /** The test of rule 3: emergency lockout. */
  predicate LockoutTest(m: Metrics)
  {
    m.securityScore > Thresholds.lockoutSecurity && m.accessibilityScore < Thresholds.lockoutAccess
  }

  /** The test of rule 4: ransomware. */
  predicate RansomwareTest(m: Metrics)
  {
    m.accessibilityScore > Thresholds.ransomwareAccess && m.securityScore < Thresholds.ransomwareSecurity
  }

  /** The test of rule 5: privacy leak (literal thresholds). */
  predicate PrivacyLeakTest(m: Metrics)
  {
    m.accessibilityScore > 60 && m.securityScore < 60
  }

  /** The test of rule 6: pacing latency (literal thresholds). */
  predicate LatencyTest(m: Metrics)
  {
    m.securityScore > 80 && m.accessibilityScore < 50
  }

  /** Rule 1: a supplied sampling value of exactly zero. */
  predicate NoSignal(sampling: Option<real>)
  {
    sampling.Some? && sampling.value == 0.0
  }

  /**
   * `PacemakerEngine.getOutcome`: the first rule whose test holds decides.
   * `sampling` is the optional `config` argument, reduced to its one field.
   */
  function GetOutcome(m: Metrics, sampling: Option<real>): Outcome
  {
    if NoSignal(sampling) then AlgorithmFailure
    else if BatteryDead(m) then SurgicalFailure
    else if LockoutTest(m) then LockoutDeath
    else if RansomwareTest(m) then Ransomware
    else if PrivacyLeakTest(m) then PrivacyLeak
    else if LatencyTest(m) then LatencyCritical
    else OptimalStabilization
  }
}
