/**
 * The state updates of the dashboard view: configuration changes with
 * their coupling rules, the capped terminal log, the commit countdown,
 * director-mode drift and key commands, slider resistance and the reset.
 */
module DashboardView {
  import opened Types
  import opened Engine
  import RangeSlider

  /** The three dials, as the keys of a configuration. */
  datatype ConfigKey = Encryption | Access | Sampling

  /** The scripted demo modes. */
  datatype DirectorMode = Normal | Hack | Cardiac | Battery

  /** The terminal keeps at most this many lines. */
  const MaxLogs: nat := 20

  const CountdownStart: int := 60

  const DefaultConfig: Config := Config(50.0, 50.0, 50.0)

  const InitialLogs: seq<string> :=
    ["> SYSTEM INITIALIZED... OK", "> PACEMAKER CONNECTED... OK", "> AWAITING CONFIG..."]

  const RebootLogs: seq<string> := ["> SYSTEM REBOOTED...", "> READY"]

  const AccessWeakensLog: string := "WARN: ACCESS INCREASE WEAKENING ENCRYPTION"
  const ThermalLog: string := "WARN: THERMAL THROTTLING DETECTED"
  const PortOpenLog: string := "WARN: PORT 80 OPEN - LISTENING"

  const HackLogs: seq<string> :=
    ["!!! CRITICAL: BRUTE FORCE ATTACK DETECTED !!!", "!!! SECURITY PROTOCOLS COMPROMISED !!!"]
  const CardiacLogs: seq<string> :=
    ["!!! MEDICAL EMERGENCY: VENTRICULAR FIBRILLATION !!!", "!!! EMT ACCESS REQUIRED IMMEDIATELY !!!"]
  const BatteryLogs: seq<string> :=
    ["!!! POWER CRITICAL: ENGAGING SAVING MODE !!!", "!!! SYSTEM SHUTDOWN IMMINENT !!!"]
  const RestoredLog: string := "> SYSTEM RESTORED. THREATS NEUTRALIZED."
  const QuickResetLog: string := "> QUICK RESET TRIGGERED."

  function Get(c: Config, key: ConfigKey): real
  {
    match key
    case Encryption => c.encryption
    case Access => c.access
    case Sampling => c.sampling
  }

  /** `{ ...c, [key]: v }`. */
  function Assign(c: Config, key: ConfigKey, v: real): (r: Config)
    ensures Get(r, key) == v
    ensures forall k :: k != key ==> Get(r, k) == Get(c, k)
  {
    match key
    case Encryption => c.(encryption := v)
    case Access => c.(access := v)
    case Sampling => c.(sampling := v)
  }

  // ---------------------------------------------------------------------
  // The terminal log

  /** The log after appending `msg` and keeping only the newest `MaxLogs` lines. */
  function Capped(logs: seq<string>, msg: string): (r: seq<string>)
    ensures |r| == if |logs| < MaxLogs then |logs| + 1 else MaxLogs
    ensures r[|r| - 1] == msg
    ensures forall i :: 0 <= i < |r| - 1 ==> r[i] == logs[|logs| - (|r| - 1) + i]
  {
    var all := logs + [msg];
    if |all| <= MaxLogs then all else all[|all| - MaxLogs..]
  }

  /** The log after appending each of `msgs` in turn. */
  function AppendLogs(logs: seq<string>, msgs: seq<string>): (r: seq<string>)
    ensures |logs| <= MaxLogs ==> |r| <= MaxLogs
    ensures msgs != [] ==> |r| > 0 && r[|r| - 1] == msgs[|msgs| - 1]
    decreases |msgs|
  {
    if msgs == [] then logs else AppendLogs(Capped(logs, msgs[0]), msgs[1..])
  }

  /** Appending two batches in turn is appending their concatenation. */
  lemma {:induction false} AppendLogsConcat(logs: seq<string>, a: seq<string>, b: seq<string>)
    ensures AppendLogs(AppendLogs(logs, a), b) == AppendLogs(logs, a + b)
    decreases |a|
  {
    if a != [] {
      assert (a + b)[0] == a[0] && (a + b)[1..] == a[1..] + b;
      AppendLogsConcat(Capped(logs, a[0]), a[1..], b);
    } else {
      assert a + b == b;
    }
  }

  /** Appending one line is `Capped`. */
  lemma AppendOneLog(logs: seq<string>, msg: string)
    ensures AppendLogs(logs, [msg]) == Capped(logs, msg)
  {
    assert [msg][1..] == [];
  }

  /** While fewer than `MaxLogs` lines are held, appending loses nothing. */
  lemma ShortLogKeepsEverything(logs: seq<string>, msg: string)
    requires |logs| < MaxLogs
    ensures Capped(logs, msg) == logs + [msg]
  {
  }

  // ---------------------------------------------------------------------
  // Configuration changes

  /**
   * The configuration after the user sets `key` to `value`: raising
   * encryption also raises sampling, and a high access setting erodes
   * encryption.
   */
  function CoupledConfig(prev: Config, key: ConfigKey, value: real): (r: Config)
    ensures Get(r, key) == value
    ensures key == Encryption ==> r.access == prev.access
    ensures key == Access ==> r.sampling == prev.sampling
    ensures key == Sampling ==> r.encryption == prev.encryption && r.access == prev.access
  {
    var withValue := Assign(prev, key, value);
    var drained :=
      if key == Encryption && value > prev.encryption
      then withValue.(sampling := Min(100.0, withValue.sampling + Min(5.0, value - prev.encryption) * 0.5))
      else withValue;
    if key == Access && value > 70.0 && prev.encryption > 0.0
    then drained.(encryption := Max(0.0, prev.encryption - 2.0))
    else drained
  }

  /** Raising encryption adds half the rise, at most 2.5, to sampling, capped at 100. */
  lemma EncryptionRiseDrainsSampling(prev: Config, value: real)
    requires value > prev.encryption && prev.sampling <= 100.0
    ensures CoupledConfig(prev, Encryption, value).sampling
      == Min(100.0, prev.sampling + Min(5.0, value - prev.encryption) * 0.5)
    ensures prev.sampling <= CoupledConfig(prev, Encryption, value).sampling <= 100.0
    ensures CoupledConfig(prev, Encryption, value).sampling <= prev.sampling + 2.5
    ensures prev.sampling < 100.0 ==> prev.sampling < CoupledConfig(prev, Encryption, value).sampling
  {
  }

  /** Lowering encryption, or setting it to the same value, leaves sampling alone. */
  lemma EncryptionDropKeepsSampling(prev: Config, value: real)
    requires value <= prev.encryption
    ensures CoupledConfig(prev, Encryption, value) == prev.(encryption := value)
  {
  }

  /**
   * Access above 70 with encryption above 0 lowers encryption by 2, floored
   * at 0; access of 70 or less never touches encryption.
   */
  lemma AccessErodesEncryption(prev: Config, value: real)
    ensures value > 70.0 && prev.encryption > 0.0 ==>
      CoupledConfig(prev, Access, value) == prev.(access := value, encryption := Max(0.0, prev.encryption - 2.0))
      && CoupledConfig(prev, Access, value).encryption < prev.encryption
    ensures value <= 70.0 || prev.encryption <= 0.0 ==>
      CoupledConfig(prev, Access, value) == prev.(access := value)
  {
  }

  /** Setting a sampling value changes nothing else. */
  lemma SamplingIsUncoupled(prev: Config, value: real)
    ensures CoupledConfig(prev, Sampling, value) == prev.(sampling := value)
  {
  }

  /** In-range inputs keep every dial in range. */
  lemma ConfigChangeKeepsRange(prev: Config, key: ConfigKey, value: real)
    requires InRange(prev) && 0.0 <= value <= 100.0
    ensures InRange(CoupledConfig(prev, key, value))
  {
  }

  /**
   * Setting encryption to the value it already has is a no-op, whereas
   * repeating a high access setting erodes encryption again.
   */
  lemma RepeatedChanges(prev: Config, value: real)
    ensures var once := CoupledConfig(prev, Encryption, value);
      CoupledConfig(once, Encryption, value) == once
    ensures var once := CoupledConfig(prev, Access, value);
      value > 70.0 && prev.encryption >= 2.0 ==>
        CoupledConfig(once, Access, value).encryption == Max(0.0, prev.encryption - 4.0)
  {
  }

  /** The warning written when access erodes encryption. */
  function WeakenLogs(prev: Config, key: ConfigKey, value: real): seq<string>
  {
    if key == Access && value > 70.0 && prev.encryption > 0.0 then [AccessWeakensLog] else []
  }

  /** The warnings written after the new configuration is stored. */
  function ThermalLogs(key: ConfigKey, value: real): seq<string>
  {
    if key == Encryption && value > 90.0 then [ThermalLog] else []
  }

  function PortLogs(key: ConfigKey, value: real): seq<string>
  {
    if key == Access && value > 90.0 then [PortOpenLog] else []
  }

  /**
   * The warnings a configuration change writes, in order: at most two, and
   * none for a sampling change or a value of 70 or less.
   */
  function ConfigChangeLogs(prev: Config, key: ConfigKey, value: real): (r: seq<string>)
    ensures |r| <= 2
    ensures key == Sampling || value <= 70.0 ==> r == []
    ensures key == Encryption ==> r == (if value > 90.0 then [ThermalLog] else [])
  {
    WeakenLogs(prev, key, value) + ThermalLogs(key, value) + PortLogs(key, value)
  }

  lemma ConfigChangeLogsInTurn(logs: seq<string>, prev: Config, key: ConfigKey, value: real)
    ensures AppendLogs(AppendLogs(AppendLogs(logs, WeakenLogs(prev, key, value)), ThermalLogs(key, value)), PortLogs(key, value))
      == AppendLogs(logs, ConfigChangeLogs(prev, key, value))
  {
    AppendLogsConcat(logs, WeakenLogs(prev, key, value), ThermalLogs(key, value));
    AppendLogsConcat(logs, WeakenLogs(prev, key, value) + ThermalLogs(key, value), PortLogs(key, value));
  }

  // ---------------------------------------------------------------------
  // Director drift

  /** The configuration after one drift tick of the director mode. */
  function Drifted(mode: DirectorMode, c: Config): (r: Config)
    ensures mode == Battery ==> r.encryption == c.encryption && r.access == c.access
    ensures mode == Battery && c.sampling <= 100.0 ==> c.sampling <= r.sampling <= 100.0
    ensures mode == Hack ==> r.sampling == c.sampling && r.access == c.access
    ensures mode == Hack && c.encryption >= 0.0 ==> 0.0 <= r.encryption <= c.encryption
    ensures mode == Normal || mode == Cardiac ==> r == c
  {
    match mode
    case Battery => c.(sampling := Min(100.0, c.sampling + 5.0))
    case Hack => c.(encryption := Max(0.0, c.encryption - 5.0))
    case _ => c
  }

  /** The configuration after `k` drift ticks. */
  function DriftedTimes(mode: DirectorMode, c: Config, k: nat): Config
    decreases k
  {
    if k == 0 then c else DriftedTimes(mode, Drifted(mode, c), k - 1)
  }

  /** Drift keeps every dial in range. */
  lemma DriftKeepsRange(mode: DirectorMode, c: Config)
    requires InRange(c)
    ensures InRange(Drifted(mode, c))
  {
  }

  /**
   * Battery drift raises sampling by 5 per tick up to 100; hack drift lowers
   * encryption by 5 per tick down to 0.
   */
  lemma {:induction false} DriftAccumulates(mode: DirectorMode, c: Config, k: nat)
    requires InRange(c)
    ensures mode == Battery ==>
      DriftedTimes(mode, c, k) == c.(sampling := Min(100.0, c.sampling + 5.0 * k as real))
    ensures mode == Hack ==>
      DriftedTimes(mode, c, k) == c.(encryption := Max(0.0, c.encryption - 5.0 * k as real))
    decreases k
  {
    if k > 0 {
      DriftKeepsRange(mode, c);
      DriftAccumulates(mode, Drifted(mode, c), k - 1);
    }
  }

  // ---------------------------------------------------------------------
  // The countdown

  /** The countdown value and whether an outcome has been committed. */
  datatype Timer = Timer(countdown: int, committed: bool)

  /** One second of the countdown: no tick after a commit; at 1 or below it commits. */
  function TimerStep(t: Timer): (r: Timer)
    ensures t.committed ==> r == t
    ensures !t.committed ==> (r.committed <==> t.countdown <= 1)
    ensures !t.committed ==> r.countdown == if t.countdown - 1 > 0 then t.countdown - 1 else 0
  {
    if t.committed then t
    else if t.countdown <= 1 then Timer(0, true)
    else Timer(t.countdown - 1, false)
  }

  function TimerRun(t: Timer, k: nat): Timer
    decreases k
  {
    if k == 0 then t else TimerRun(TimerStep(t), k - 1)
  }

  /** From `n` seconds, the commit happens on exactly the `n`-th tick and nothing changes after it. */
  lemma {:induction false} CountdownCommitsOnTime(n: int, k: nat)
    requires n >= 1
    ensures TimerRun(Timer(n, false), k) == if k < n then Timer(n - k, false) else Timer(0, true)
    decreases k
  {
    if k > 0 {
      if n == 1 {
        CommittedTimerIsFixed(Timer(0, true), k - 1);
      } else {
        CountdownCommitsOnTime(n - 1, k - 1);
      }
    }
  }

  lemma {:induction false} CommittedTimerIsFixed(t: Timer, k: nat)
    requires t.committed
    ensures TimerRun(t, k) == t
    decreases k
  {
    if k > 0 {
      CommittedTimerIsFixed(t, k - 1);
    }
  }

  // ---------------------------------------------------------------------
  // Slider resistance as wired in the dashboard

  /**
   * The single resistance zone of each slider: a band at one end of the
   * track, pushing with a positive force toward a target just outside it.
   */
  function ZoneFor(key: ConfigKey): (z: RangeSlider.ResistanceZone)
    ensures 0.0 <= z.min <= z.max <= 100.0 && (z.min == 0.0 || z.max == 100.0)
    ensures z.force > 0.0 && !RangeSlider.InZone(z.pushTo, z)
    ensures z.pushTo == z.min - 1.0 || z.pushTo == z.max + 1.0
  {
    match key
    case Encryption => RangeSlider.ResistanceZone(0.0, 39.0, 40.0, 2.0)
    case Access => RangeSlider.ResistanceZone(61.0, 100.0, 60.0, 2.0)
    case Sampling => RangeSlider.ResistanceZone(81.0, 100.0, 80.0, 3.0)
  }

  /**
   * Every slider's zone pushes toward a target outside itself, so an
   * undisturbed slider leaves its zone within a bounded number of ticks.
   */
  lemma SliderResistanceSettles(key: ConfigKey, v: real, k: nat)
    requires k >= RangeSlider.TicksToLeave(v, ZoneFor(key))
    ensures !RangeSlider.InZone(RangeSlider.Ticks(v, ZoneFor(key), k), ZoneFor(key))
  {
    RangeSlider.ResistanceTerminates(v, ZoneFor(key), k);
  }

  /** The value a slider's resistance reports stays within 0–100. */
  lemma SliderResistanceKeepsRange(key: ConfigKey, v: real, isDragging: bool, isLocked: bool)
    requires 0.0 <= v <= 100.0
    ensures var e := RangeSlider.Tick(v, [ZoneFor(key)], isDragging, isLocked);
      e.Some? ==> 0.0 <= e.value <= 100.0
  {
    var z := ZoneFor(key);
    assert RangeSlider.Step(v, z) == RangeSlider.SweepZones(v, [z]).newValue;
  }

  // ---------------------------------------------------------------------
  // The dashboard state

  class Dashboard {
    var config: Config
    var gameState: GameState
    var logs: seq<string>
    var countdown: int
    var isPanic: bool
    var lockedSliders: set<ConfigKey>
    var directorMode: DirectorMode

    /**
     * The log is capped, the recorded metrics are always those of the
     * recorded configuration, and the countdown stays within its start.
     */
    ghost predicate Valid()
      reads this
    {
      && |logs| <= MaxLogs
      && gameState.metrics == CalculateMetrics(gameState.config)
      && 0 <= countdown <= CountdownStart
    }

    /** The state of a freshly mounted dashboard. */
    constructor ()
      ensures Valid()
      ensures config == DefaultConfig
      ensures gameState == GameState(DefaultConfig, CalculateMetrics(DefaultConfig), None)
      ensures logs == InitialLogs && countdown == CountdownStart && !isPanic
      ensures lockedSliders == {} && directorMode == Normal
    {
      config := DefaultConfig;
      gameState := GameState(DefaultConfig, CalculateMetrics(DefaultConfig), None);
      logs := InitialLogs;
      countdown := CountdownStart;
      isPanic := false;
      lockedSliders := {};
      directorMode := Normal;
    }

    /** Appends a line to the terminal, dropping the oldest beyond `MaxLogs`. */
    method AddLog(msg: string)
      requires Valid()
      modifies this`logs
      ensures Valid()
      ensures logs == Capped(old(logs), msg)
    {
      logs := Capped(logs, msg);
    }

    /** Flips the lock of one slider. */
    method ToggleLock(key: ConfigKey)
      requires Valid()
      modifies this`lockedSliders
      ensures Valid()
      ensures key in lockedSliders <==> key !in old(lockedSliders)
      ensures lockedSliders - {key} == old(lockedSliders) - {key}
    {
      if key in lockedSliders {
        lockedSliders := lockedSliders - {key};
      } else {
        lockedSliders := lockedSliders + {key};
      }
    }

    /**
     * Classifies the recorded metrics and records the verdict. The commit
     * callback is rebuilt only when the recorded metrics change, and every
     * such change records the configuration it was computed from, so the
     * sampling it sees is the recorded configuration's.
     */
    method CommitFirmware()
      requires Valid()
      modifies this`gameState
      ensures Valid()
      ensures gameState == old(gameState).(outcome := Some(GetOutcome(old(gameState).metrics, Some(old(gameState).config.sampling))))
      ensures gameState.outcome == Some(GetOutcome(CalculateMetrics(gameState.config), Some(gameState.config.sampling)))
    {
      var outcome := GetOutcome(gameState.metrics, Some(gameState.config.sampling));
      gameState := gameState.(outcome := Some(outcome));
    }

    /** One second of the countdown. */
    method CountdownTick()
      requires Valid()
      modifies this`countdown, this`gameState
      ensures Valid()
      ensures Timer(countdown, Committed(gameState)) == TimerStep(old(Timer(countdown, Committed(gameState))))
      ensures old(Committed(gameState)) || old(countdown) > 1 ==> gameState == old(gameState)
      ensures !old(Committed(gameState)) && old(countdown) <= 1 ==>
        gameState == old(gameState).(outcome := Some(GetOutcome(old(gameState).metrics, Some(old(gameState).config.sampling))))
    {
      if gameState.outcome.Some? {
        return;
      }
      if countdown <= 1 {
        countdown := 0;
        CommitFirmware();
      } else {
        countdown := countdown - 1;
      }
    }

    /** One drift tick of the current director mode; only the live configuration moves. */
    method DirectorDrift()
      requires Valid()
      modifies this`config
      ensures Valid()
      ensures config == Drifted(directorMode, old(config))
    {
      if directorMode == Battery {
        config := config.(sampling := Min(100.0, config.sampling + 5.0));
      } else if directorMode == Hack {
        config := config.(encryption := Max(0.0, config.encryption - 5.0));
      }
    }

    /** Clears the verdict and restarts the countdown, keeping the configuration. */
    method ResetSimulation()
      requires Valid()
      modifies this`gameState, this`countdown, this`isPanic, this`directorMode, this`logs
      ensures Valid()
      ensures gameState == old(gameState).(outcome := None)
      ensures countdown == CountdownStart && !isPanic && directorMode == Normal
      ensures logs == RebootLogs
    {
      gameState := gameState.(outcome := None);
      countdown := CountdownStart;
      isPanic := false;
      directorMode := Normal;
      logs := RebootLogs;
    }

    /** The user sets one dial; the coupling rules apply and the metrics are recomputed. */
    method HandleConfigChange(key: ConfigKey, value: real)
      requires Valid()
      modifies this`config, this`gameState, this`logs
      ensures Valid()
      ensures config == CoupledConfig(old(config), key, value)
      ensures gameState == old(gameState).(config := config, metrics := CalculateMetrics(config))
      ensures logs == AppendLogs(old(logs), ConfigChangeLogs(old(config), key, value))
    {
      var prev := config;
      ghost var logs0 := logs;
      var newConfig := Assign(prev, key, value);
      if key == Encryption && value > prev.encryption {
        var drain := Min(5.0, value - prev.encryption);
        newConfig := newConfig.(sampling := Min(100.0, newConfig.sampling + drain * 0.5));
      }
      if key == Access && value > 70.0 && prev.encryption > 0.0 {
        newConfig := newConfig.(encryption := Max(0.0, prev.encryption - 2.0));
        AddLog(AccessWeakensLog);
        AppendOneLog(logs0, AccessWeakensLog);
      }
      ghost var logs1 := logs;
      assert logs1 == AppendLogs(logs0, WeakenLogs(prev, key, value));
      assert newConfig == CoupledConfig(prev, key, value);
      config := newConfig;
      if key == Encryption && value > 90.0 {
        AddLog(ThermalLog);
        AppendOneLog(logs1, ThermalLog);
      }
      ghost var logs2 := logs;
      assert logs2 == AppendLogs(logs1, ThermalLogs(key, value));
      if key == Access && value > 90.0 {
        AddLog(PortOpenLog);
        AppendOneLog(logs2, PortOpenLog);
      }
      assert logs == AppendLogs(logs2, PortLogs(key, value));
      ConfigChangeLogsInTurn(logs0, prev, key, value);
      var newMetrics := CalculateMetrics(newConfig);
      gameState := gameState.(config := newConfig, metrics := newMetrics);
    }

    /**
     * One resistance tick of the slider for `key`: when the physics reports
     * a new value, it goes through the same handler as a user change.
     */
    method SliderTick(key: ConfigKey, isDragging: bool)
      requires Valid()
      modifies this`config, this`gameState, this`logs
      ensures Valid()
      ensures var e := RangeSlider.Tick(old(Get(config, key)), [ZoneFor(key)], isDragging, key in lockedSliders);
        && (e.None? ==> config == old(config) && gameState == old(gameState) && logs == old(logs))
        && (e.Some? ==>
              config == CoupledConfig(old(config), key, e.value)
              && gameState == old(gameState).(config := config, metrics := CalculateMetrics(config))
              && logs == AppendLogs(old(logs), ConfigChangeLogs(old(config), key, e.value)))
    {
      var emitted := RangeSlider.PhysicsTick(Get(config, key), [ZoneFor(key)], isDragging, key in lockedSliders);
      if emitted.Some? {
        HandleConfigChange(key, emitted.value);
      }
    }

    /**
     * A director key (already lower-cased): `h`, `c` and `b` start a
     * scripted emergency, `n` restores normal mode, `r` is a quick reset.
     * The recorded metrics are not recomputed.
     */
    method DirectorKey(key: string)
      requires Valid()
      modifies this`config, this`gameState, this`countdown, this`isPanic, this`directorMode, this`logs
      ensures Valid()
      ensures key == "h" ==>
        && directorMode == Hack && isPanic && config == old(config).(encryption := 0.0)
        && logs == AppendLogs(old(logs), HackLogs)
        && gameState == old(gameState) && countdown == old(countdown)
      ensures key == "c" ==>
        && directorMode == Cardiac && isPanic && config == old(config)
        && logs == AppendLogs(old(logs), CardiacLogs)
        && gameState == old(gameState) && countdown == old(countdown)
      ensures key == "b" ==>
        && directorMode == Battery && isPanic && config == old(config)
        && logs == AppendLogs(old(logs), BatteryLogs)
        && gameState == old(gameState) && countdown == old(countdown)
      ensures key == "n" ==>
        && directorMode == Normal && !isPanic && config == old(config)
        && logs == RebootLogs + [RestoredLog]
        && gameState == old(gameState).(outcome := None) && countdown == CountdownStart
      ensures key == "r" ==>
        && directorMode == Normal && !isPanic && config == DefaultConfig
        && logs == RebootLogs + [QuickResetLog]
        && gameState == old(gameState).(outcome := None) && countdown == CountdownStart
      ensures key !in {"h", "c", "b", "n", "r"} ==>
        && directorMode == old(directorMode) && isPanic == old(isPanic) && config == old(config)
        && logs == old(logs) && gameState == old(gameState) && countdown == old(countdown)
    {
      if key == "h" {
        directorMode := Hack;
        config := config.(encryption := 0.0);
        AddLog(HackLogs[0]);
        AddLog(HackLogs[1]);
        isPanic := true;
      }
      if key == "c" {
        directorMode := Cardiac;
        AddLog(CardiacLogs[0]);
        AddLog(CardiacLogs[1]);
        isPanic := true;
      }
      if key == "b" {
        directorMode := Battery;
        AddLog(BatteryLogs[0]);
        AddLog(BatteryLogs[1]);
        isPanic := true;
      }
      if key == "n" {
        directorMode := Normal;
        ResetSimulation();
        AddLog(RestoredLog);
      }
      if key == "r" {
        ResetSimulation();
        config := DefaultConfig;
        AddLog(QuickResetLog);
      }
    }
  }
}
