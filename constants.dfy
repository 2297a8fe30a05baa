/**
 * The static tables: the display details of every outcome and the named
 * decision thresholds of the engine.
 */
module Constants {
  import opened Types

  /** Presentation details of one outcome. */
  datatype OutcomeDetail = OutcomeDetail(title: string, description: string, code: string, color: string)

  /** The outcome-to-details table, keyed by outcome. */
  const OutcomeDetails: map<Outcome, OutcomeDetail> := map[
    SurgicalFailure := OutcomeDetail(
      "SURGICAL FAILURE",
      "Battery depleted. Patient died on the table during re-operation.",
      "ERR_BAT", "text-neon-red"),
    LockoutDeath := OutcomeDetail(
      "EMERGENCY LOCKOUT",
      "First Responders locked out. Patient stabilization failed.",
      "ERR_AUTH", "text-neon-red"),
    Ransomware := OutcomeDetail(
      "SYSTEM COMPROMISED",
      "Device hacked. Ransomware deployed. Bitcoins demanded.",
      "ERR_HACK", "text-neon-yellow"),
    OptimalStabilization := OutcomeDetail(
      "VITAL STABILIZATION",
      "Firmware updated. Patient stable. Security nominal.",
      "SYS_OK", "text-neon-green"),
    PrivacyLeak := OutcomeDetail(
      "DATA HARVESTED",
      "Patient lived, but biometrics were scraped by 3rd parties.",
      "WARN_LEAK", "text-orange-500"),
    LatencyCritical := OutcomeDetail(
      "PACING LATENCY",
      "Encryption overhead caused missed beats. Chronic arrhythmia.",
      "ERR_LAG", "text-neon-red"),
    AlgorithmFailure := OutcomeDetail(
      "ALGORITHM FAILURE",
      "Zero data sampling. Pacemaker blind to arrhythmia. Patient died.",
      "ERR_NOSIG", "text-neon-red")
  ]

  /** The named thresholds of the decision rules. */
  datatype ThresholdTable = ThresholdTable(
    batteryDeath: real,
    lockoutSecurity: int,
    lockoutAccess: int,
    ransomwareAccess: int,
    ransomwareSecurity: int)

  const Thresholds: ThresholdTable := ThresholdTable(2.0, 80, 30, 70, 40)

  /** The details of an outcome: a lookup that never misses. */
  function Detail(o: Outcome): (d: OutcomeDetail)
    ensures o in OutcomeDetails && d == OutcomeDetails[o]
  {
    match o
    case SurgicalFailure => OutcomeDetails[o]
    case LockoutDeath => OutcomeDetails[o]
    case Ransomware => OutcomeDetails[o]
    case OptimalStabilization => OutcomeDetails[o]
    case PrivacyLeak => OutcomeDetails[o]
    case LatencyCritical => OutcomeDetails[o]
    case AlgorithmFailure => OutcomeDetails[o]
  }

  /** The table is total: every one of the seven outcomes has an entry, and nothing else does. */
  lemma DetailsCoverEveryOutcome()
    ensures forall o: Outcome :: o in OutcomeDetails
    ensures |OutcomeDetails| == 7
  {
    forall o: Outcome ensures o in OutcomeDetails {
      var _ := Detail(o);
    }
  }

  /** The short codes are pairwise distinct, so a code identifies its outcome. */
  lemma CodesAreDistinct(o1: Outcome, o2: Outcome)
    ensures Detail(o1).code == Detail(o2).code ==> o1 == o2
  {
  }

  /** Only the optimal outcome has a `SYS_` code, and only it is shown in green. */
  lemma OnlyOptimalIsNominal(o: Outcome)
    ensures "SYS_" <= Detail(o).code <==> o == OptimalStabilization
    ensures Detail(o).color == "text-neon-green" <==> o == OptimalStabilization
  {
    match o
    case SurgicalFailure => assert Detail(o).code[0] == 'E';
    case LockoutDeath => assert Detail(o).code[0] == 'E';
    case Ransomware => assert Detail(o).code[0] == 'E';
    case OptimalStabilization =>
    case PrivacyLeak => assert Detail(o).code[0] == 'W';
    case LatencyCritical => assert Detail(o).code[0] == 'E';
    case AlgorithmFailure => assert Detail(o).code[0] == 'E';
  }

  /** The threshold record holds the documented values. */
  lemma ThresholdValues()
    ensures Thresholds.batteryDeath == 2.0
    ensures Thresholds.lockoutSecurity == 80 && Thresholds.lockoutAccess == 30
    ensures Thresholds.ransomwareAccess == 70 && Thresholds.ransomwareSecurity == 40
  {
  }
}
