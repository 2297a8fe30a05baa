/**
 * The value types shared by the pacemaker engine and the dashboard:
 * the closed set of seven outcomes, the three-dial configuration, the
 * derived metrics and the game state a commit freezes.
 */
module Types {

  /** An optional value; `None` stands for a missing argument or a `null` field. */
  datatype Option<+T> = None | Some(value: T)

  /** The seven verdicts a commit can produce. */
  datatype Outcome =
    | SurgicalFailure
    | LockoutDeath
    | Ransomware
    | OptimalStabilization
    | PrivacyLeak
    | LatencyCritical
    | AlgorithmFailure

  /** The members of the enumeration, in declaration order. */
  const AllOutcomes: seq<Outcome> :=
    [SurgicalFailure, LockoutDeath, Ransomware, OptimalStabilization,
     PrivacyLeak, LatencyCritical, AlgorithmFailure]

  /** The string value of each member, which is also its key. */
  function Name(o: Outcome): string
  {
    match o
    case SurgicalFailure => "SURGICAL_FAILURE"
    case LockoutDeath => "LOCKOUT_DEATH"
    case Ransomware => "RANSOMWARE"
    case OptimalStabilization => "OPTIMAL_STABILIZATION"
    case PrivacyLeak => "PRIVACY_LEAK"
    case LatencyCritical => "LATENCY_CRITICAL"
    case AlgorithmFailure => "ALGORITHM_FAILURE"
  }

  /**
   * Membership in the string union type `Outcome`: the member whose value
   * is `s`, or `None` when `s` is none of the seven strings.
   */
  function Parse(s: string): (r: Option<Outcome>)
    ensures r.Some? ==> Name(r.value) == s
  {
    if s == "SURGICAL_FAILURE" then Some(SurgicalFailure)
    else if s == "LOCKOUT_DEATH" then Some(LockoutDeath)
    else if s == "RANSOMWARE" then Some(Ransomware)
    else if s == "OPTIMAL_STABILIZATION" then Some(OptimalStabilization)
    else if s == "PRIVACY_LEAK" then Some(PrivacyLeak)
    else if s == "LATENCY_CRITICAL" then Some(LatencyCritical)
    else if s == "ALGORITHM_FAILURE" then Some(AlgorithmFailure)
    else None
  }

  /** Parsing a member's string gives back that member, and only that one. */
  lemma ParseInvertsName(s: string, o: Outcome)
    ensures Parse(s) == Some(o) <==> Name(o) == s
  {
    match o
    case SurgicalFailure =>
    case LockoutDeath =>
    case Ransomware =>
    case OptimalStabilization =>
    case PrivacyLeak =>
    case LatencyCritical =>
    case AlgorithmFailure =>
  }

  /** The string union is closed: a string outside the seven names is no outcome. */
  lemma OutcomeTypeIsClosed(s: string)
    ensures Parse(s).None? <==> forall o: Outcome :: Name(o) != s
  {
    if Parse(s).None? {
      forall o: Outcome ensures Name(o) != s {
        ParseInvertsName(s, o);
      }
    } else {
      ParseInvertsName(s, Parse(s).value);
    }
  }

  /** The enumeration has exactly seven members, each listed once, with distinct values. */
  lemma SevenDistinctOutcomes()
    ensures |AllOutcomes| == 7
    ensures forall o: Outcome :: o in AllOutcomes
    ensures forall i, j :: 0 <= i < j < |AllOutcomes| ==> AllOutcomes[i] != AllOutcomes[j]
    ensures forall o1: Outcome, o2: Outcome :: Name(o1) == Name(o2) ==> o1 == o2
  {
    forall o: Outcome ensures o in AllOutcomes {
      match o
      case SurgicalFailure =>
      case LockoutDeath =>
      case Ransomware =>
      case OptimalStabilization =>
      case PrivacyLeak =>
      case LatencyCritical =>
      case AlgorithmFailure =>
    }
    forall o1: Outcome, o2: Outcome | Name(o1) == Name(o2) ensures o1 == o2 {
      ParseInvertsName(Name(o1), o1);
      ParseInvertsName(Name(o1), o2);
    }
  }

  /** The three dials; each is documented as a percentage in 0–100. */
  datatype Config = Config(encryption: real, access: real, sampling: real)

  /** The documented range of every dial. */
  predicate InRange(c: Config)
  {
    0.0 <= c.encryption <= 100.0 && 0.0 <= c.access <= 100.0 && 0.0 <= c.sampling <= 100.0
  }

  /** The scores derived from a configuration. */
  datatype Metrics = Metrics(batteryYears: real, securityScore: int, accessibilityScore: int)

  /** The dashboard's record of the last configuration, its metrics and the committed outcome. */
  datatype GameState = GameState(config: Config, metrics: Metrics, outcome: Option<Outcome>)

  /** `outcome` is null until a commit has happened. */
  predicate Committed(g: GameState)
  {
    g.outcome.Some?
  }
}
