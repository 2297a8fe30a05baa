# Pacemaker trade-off engine, in Dafny

This project models the decision core of a game about the trade-off between
security, accessibility and battery life in a simulated pacemaker. The game
has three dials: encryption, remote access and data sampling, each a
percentage.

- `PacemakerEngine.calculateMetrics` maps the dials to three metrics:
  - battery life in years, rounded to a tenth and never negative;
  - an integer security score, clamped to 0–100;
  - an integer accessibility score, clamped to 0–100.
- `PacemakerEngine.getOutcome` classifies those metrics, plus the optional
  sampling value, into one of seven verdicts. It uses a first-match-wins
  chain of strict threshold tests.
- The dashboard view owns the state around the engine and changes it step
  by step:
  - a configuration change applies two coupling rules (more encryption
    drains sampling, high access erodes encryption) and recomputes the
    metrics;
  - a terminal log keeps its newest 20 lines;
  - a 60-second countdown commits the verdict when it runs out;
  - the director demo modes make the dials drift and react to key commands;
  - a reset clears the verdict.
- Each slider has a resistance zone. On every physics tick the slider value
  is pushed toward the zone's target by at most the zone's force.

Modules, one per source file:

- `Types` (`src/core/types.ts`): the seven-member `Outcome` enumeration with
  its string values, `Config`, `Metrics` and `GameState`.
- `Constants` (`src/core/constants.ts`): the outcome-details table and the
  threshold record.
- `Engine` (`src/core/engine.ts`): `CalculateMetrics` and `GetOutcome` as
  pure functions on exact reals. `EngineProperties` holds the lemmas about
  them.
- `RangeSlider` (`src/ui/components/RangeSlider.tsx`): the resistance tick.
  It is a method that loops over the zones, proved against the recursive
  function `SweepZones`.
- `DashboardView` (`src/ui/views/Dashboard.tsx`): a class `Dashboard` with
  one method per state handler. Each method is tied to a specification
  function (`CoupledConfig`, `Capped`/`AppendLogs`, `Drifted`, `TimerStep`),
  and the lemmas are stated about those functions. The class invariant
  `Valid()` has three parts:
  - the log holds at most 20 lines;
  - the recorded metrics are always `CalculateMetrics` of the recorded
    configuration;
  - the countdown stays within 0–60.

Arithmetic choices:

- Reals are exact.
- `toFixed(1)` is rounding to the nearest tenth, with halves rounded away
  from zero.
- `Math.round` is `Floor(x + 0.5)`.
- Scores are integers, because `calculateMetrics` always rounds them.
- Sampling is a real, because the encryption coupling rule adds half-steps.
- The optional `config` argument of `getOutcome` is an `Option<real>`
  holding the sampling value.

Facts of the code the model keeps:

- **Sampling is not always an integer.** The encryption coupling adds
  `drain * 0.5` to it (Dashboard.tsx:189), so half-steps occur.
- **Not every threshold is a named constant.** The privacy-leak and
  latency rules use the literals 60, 80 and 50 (engine.ts:78, 86), not
  `THRESHOLDS`.
- **The sampling argument is optional.** `getOutcome`'s `config` argument
  may be absent, and the zero-sampling rule is then skipped.
- **Battery life is not bounded above.** The code only floors it at 0, so
  negative dials give more than 10 years. The model proves the floor for
  all inputs and [2.0, 10.0] for dials in 0–100 (`InRangeMetrics`).

Consequences of the code proved here:

- Battery life never drops below 2.0 when the dials are in range. The
  surgical-failure verdict is therefore unreachable from in-range
  configurations.
- Every other verdict is reachable from some in-range configuration.
- Director drift and the `r` quick reset change the live configuration but
  neither the recorded metrics nor the configuration recorded with them.
  The commit callback is rebuilt only when the recorded metrics change
  (Dashboard.tsx:85), and every such change records its configuration, so
  a commit classifies the recorded configuration alone: drift reaches the
  verdict only once a slider change records it.

## Model

| member | source | states |
|---|---|---|
| `Types.Name` | src/core/types.ts:1-9 | each member's string value; `ParseInvertsName` and `SevenDistinctOutcomes` prove it injective and inverted by `Parse` (no contract of its own) |
| `Types.Parse` | src/core/types.ts:1-11 | a string parses to a member only if that member's value is the string |
| `Types.ParseInvertsName` | src/core/types.ts:1-9 | each member's value is its key string and parsing it gives back exactly that member (both directions) |
| `Types.OutcomeTypeIsClosed` | src/core/types.ts:11 | the `Outcome` type is exactly the seven strings: a string parses to none of them iff it equals none of the names |
| `Types.SevenDistinctOutcomes` | src/core/types.ts:1-9 | the enumeration has exactly seven members, all listed, pairwise distinct, with pairwise distinct values |
| `Constants.Detail` | src/core/constants.ts:3-46 | looking up any outcome's details never misses |
| `Constants.DetailsCoverEveryOutcome` | src/core/constants.ts:3-46 | the details table has an entry for every outcome and exactly seven entries |
| `Constants.CodesAreDistinct` | src/core/constants.ts:3-46 | the seven short codes are pairwise distinct |
| `Constants.OnlyOptimalIsNominal` | src/core/constants.ts:3-46 | an outcome has a `SYS_` code iff it is `OPTIMAL_STABILIZATION`, and the same holds for the `text-neon-green` colour |
| `Constants.ThresholdValues` | src/core/constants.ts:48-54 | the threshold record holds 2.0, 80, 30, 70 and 40 |
| `Engine.MathRound` | src/core/engine.ts:37-38 | the result is the integer within (x − ½, x + ½], the nearest integer with halves rounded up |
| `Engine.GetOutcome` | src/core/engine.ts:42-95 | first matching rule wins; characterised in full by `ClassifierMatchesRegions` and `RegionsPartition` below (no contract of its own) |
| `Engine.Round1` | src/core/engine.ts:19 | the result is a whole number of tenths within 0.05 of the input, with ties resolved away from zero |
| `Engine.ClampPercent` | src/core/engine.ts:24-33 | the result lies in [0, 100], is the input when the input is in range, and is the nearer bound otherwise |
| `Engine.CalculateMetrics` | src/core/engine.ts:6-40 | battery ≥ 0, a whole number of tenths, within 0.05 of max(0, 10 − 0.04·encryption − 0.04·sampling); both scores are integers in [0, 100] within ½ of their clamped formulas |
| `EngineProperties.InRangeMetrics` | src/core/engine.ts:16-38 | for dials in 0–100: battery in [2.0, 10.0] so the zero floor never bites, security is never clamped, accessibility ≤ 90 and only its lower clamp can fire |
| `EngineProperties.SurgicalFailureUnreachable` | src/core/engine.ts:16-50 | no in-range configuration yields `SURGICAL_FAILURE` |
| `EngineProperties.ScoresMonotone` | src/core/engine.ts:24-38 | security is non-decreasing in encryption and non-increasing in access; accessibility is the reverse |
| `EngineProperties.BatteryMonotone` | src/core/engine.ts:16-19 | battery life is non-increasing in encryption and in sampling |
| `EngineProperties.Round1Monotone` | src/core/engine.ts:19 | rounding to a tenth preserves order, across the change of tie direction at zero |
| `EngineProperties.ClassifierMatchesRegions` | src/core/engine.ts:42-95 | the ordered rule chain returns an outcome iff the pair lies in that outcome's independently written decision region |
| `EngineProperties.RegionsPartition` | src/core/engine.ts:42-95 | every (metrics, sampling) pair lies in exactly one region: the classifier is total and unambiguous |
| `EngineProperties.ZeroSamplingForcesAlgorithmFailure` | src/core/engine.ts:44-46 | a supplied sampling of exactly 0 yields `ALGORITHM_FAILURE` whatever the metrics |
| `EngineProperties.MissingSamplingSkipsRuleOne` | src/core/engine.ts:42-46 | with no sampling argument the verdict is never `ALGORITHM_FAILURE` and equals the verdict for any non-zero sampling |
| `EngineProperties.LockoutPrecedesLatency` | src/core/engine.ts:52-91 | when the lockout test holds, the latency test holds too, yet the verdict is `LOCKOUT_DEATH` |
| `EngineProperties.RansomwarePrecedesPrivacyLeak` | src/core/engine.ts:68-80 | every ransomware case also passes the privacy-leak test, yet the verdict is `RANSOMWARE` |
| `EngineProperties.StrictBoundaries` | src/core/engine.ts:48-91 | security exactly 80 gives neither lockout nor latency; accessibility exactly 30 gives no lockout; battery exactly 2.0 gives no surgical failure |
| `EngineProperties.OptimalExactlyWhenNoTestHolds` | src/core/engine.ts:42-95 | the verdict is `OPTIMAL_STABILIZATION` iff sampling is not 0 and none of the five threshold tests holds |
| `EngineProperties.LatencyWindow` | src/core/engine.ts:52-91 | the verdict is `LATENCY_CRITICAL` iff rules 1–2 pass, security > 80 and 30 ≤ accessibility < 50 |
| `EngineProperties.WorkedScenarios` | src/core/engine.ts:16-94 | (50,50,50) gives 6.0/50/40 and optimal; (100,10,100) gives 2.0/97/0 and lockout; (0,100,50) gives security 0, accessibility 90 and ransomware; (100,100,100) gives 2.0/70/80 and optimal; (100,0,0) gives algorithm failure |
| `EngineProperties.MoreScenarios` | src/core/engine.ts:16-94 | (50,80,50) gives 6.0/41/67 and privacy leak; (100,50,50) gives 4.0/85/35 and pacing latency |
| `EngineProperties.EveryOtherVerdictReachable` | src/core/engine.ts:42-95 | every verdict except surgical failure is produced by some in-range configuration |
| `RangeSlider.Pushed` | src/ui/components/RangeSlider.tsx:51-55 | a zone's proposal lies between the value and `pushTo`, and either equals `pushTo` or is exactly `force` closer to it |
| `RangeSlider.SweepZones` | src/ui/components/RangeSlider.tsx:45-58 | the locals after the zone loop; determined by `AffectedIffSomeZoneContains`, `NoMoverKeepsValue` and `LastMoverDecides` below (no contract of its own) |
| `RangeSlider.Tick` | src/ui/components/RangeSlider.tsx:42-62 | what one tick reports; `PhysicsTick` is proved equal to it and `OutsideAllZonesIsQuiet` characterises the quiet case (no contract of its own) |
| `RangeSlider.PhysicsTick` | src/ui/components/RangeSlider.tsx:42-62 | the loop over the zones reports what `Tick` specifies: nothing while dragging, locked or without zones; a report is always a changed value that some zone contained |
| `RangeSlider.AffectedIffSomeZoneContains` | src/ui/components/RangeSlider.tsx:48-57 | the tick is affected iff some inclusive zone contains the value |
| `RangeSlider.NoMoverKeepsValue` | src/ui/components/RangeSlider.tsx:45-58 | if no zone would move the value, the new value is the old one |
| `RangeSlider.LastMoverDecides` | src/ui/components/RangeSlider.tsx:45-58 | the last containing zone whose `pushTo` differs from the value decides the result, computed from the original value |
| `RangeSlider.OutsideAllZonesIsQuiet` | src/ui/components/RangeSlider.tsx:48-62 | a value outside every zone is left unchanged and nothing is reported |
| `RangeSlider.SingleZoneNeverOvershoots` | src/ui/components/RangeSlider.tsx:49-55 | with one containing zone the new value is min(pushTo, v + force) or max(pushTo, v − force) and lies between v and `pushTo` |
| `RangeSlider.TickShrinksDistance` | src/ui/components/RangeSlider.tsx:49-55 | with a positive force, a tick inside the zone strictly shrinks the distance to `pushTo` |
| `RangeSlider.OutsideIsFixed` | src/ui/components/RangeSlider.tsx:48-58 | once outside the zone, any number of further ticks leave the value unchanged |
| `RangeSlider.ResistanceTerminates` | src/ui/components/RangeSlider.tsx:44-58 | with a positive force and a target outside the zone, the value is outside the zone after ⌊distance/force⌋ + 1 ticks |
| `DashboardView.Capped` | src/ui/views/Dashboard.tsx:47-49 | appending keeps min(n + 1, 20) lines, the newest last, the rest being the newest old lines in order |
| `DashboardView.AppendLogs` | src/ui/views/Dashboard.tsx:47-49 | successive appends never grow a log of at most 20 lines beyond 20, and the last message is last |
| `DashboardView.ShortLogKeepsEverything` | src/ui/views/Dashboard.tsx:48 | below 20 lines, appending is plain concatenation |
| `DashboardView.Assign` | src/ui/views/Dashboard.tsx:184 | the named key gets the value and the other two fields are unchanged |
| `DashboardView.CoupledConfig` | src/ui/views/Dashboard.tsx:183-195 | the changed key gets exactly the new value; the other fields change only through the two coupling rules |
| `DashboardView.EncryptionRiseDrainsSampling` | src/ui/views/Dashboard.tsx:187-190 | raising encryption adds min(5, rise)·0.5 to sampling, capped at 100: at most 2.5 more, and strictly more below 100 |
| `DashboardView.EncryptionDropKeepsSampling` | src/ui/views/Dashboard.tsx:187-190 | lowering encryption, or setting it to the same value, changes nothing but encryption |
| `DashboardView.AccessErodesEncryption` | src/ui/views/Dashboard.tsx:192-195 | access above 70 with encryption above 0 lowers encryption by 2, floored at 0; otherwise encryption is untouched |
| `DashboardView.SamplingIsUncoupled` | src/ui/views/Dashboard.tsx:184 | setting sampling changes nothing else |
| `DashboardView.ConfigChangeKeepsRange` | src/ui/views/Dashboard.tsx:184-195 | in-range configuration and value keep every field in [0, 100] |
| `DashboardView.RepeatedChanges` | src/ui/views/Dashboard.tsx:183-195 | repeating an encryption change is a no-op; repeating a high access change erodes encryption again |
| `DashboardView.Drifted` | src/ui/views/Dashboard.tsx:159-171 | battery drift touches only sampling and, from at most 100, raises it but not past 100; hack drift touches only encryption and, from at least 0, lowers it but not below 0; other modes change nothing |
| `DashboardView.DriftKeepsRange` | src/ui/views/Dashboard.tsx:159-171 | drift keeps an in-range configuration in range |
| `DashboardView.DriftAccumulates` | src/ui/views/Dashboard.tsx:159-171 | after k ticks, battery drift gives sampling min(100, s + 5k) and hack drift gives encryption max(0, e − 5k) |
| `DashboardView.TimerStep` | src/ui/views/Dashboard.tsx:88-99 | a committed timer never moves; otherwise it commits exactly when the count is at most 1, and the count drops by one but not below 0 |
| `DashboardView.CountdownCommitsOnTime` | src/ui/views/Dashboard.tsx:88-103 | from n ≥ 1 seconds the countdown reads n − k for k < n ticks and commits (reading 0) on exactly the n-th tick |
| `DashboardView.CommittedTimerIsFixed` | src/ui/views/Dashboard.tsx:89 | once an outcome is set, no tick changes anything |
| `DashboardView.ZoneFor` | src/ui/views/Dashboard.tsx:268-290 | each slider's zone is a band at one end of [0, 100] with positive force and a target one unit outside it |
| `DashboardView.SliderResistanceSettles` | src/ui/views/Dashboard.tsx:268-290 | each dashboard slider's zone pushes toward a target outside itself, so an undisturbed slider leaves its zone within a bounded number of ticks |
| `DashboardView.SliderResistanceKeepsRange` | src/ui/views/Dashboard.tsx:262-292 | the value a dashboard slider's resistance reports stays in [0, 100] |
| `DashboardView.Dashboard.constructor` | src/ui/views/Dashboard.tsx:19-36 | the initial state: config (50,50,50), its metrics, no outcome, the three start-up lines, countdown 60, no panic, no locks, normal mode |
| `DashboardView.Dashboard.AddLog` | src/ui/views/Dashboard.tsx:47-49 | only the log changes, to `Capped` of the old log |
| `DashboardView.Dashboard.ToggleLock` | src/ui/views/Dashboard.tsx:38-40 | flips the lock of one slider and leaves the others |
| `DashboardView.Dashboard.CommitFirmware` | src/ui/views/Dashboard.tsx:75-85 | records the verdict of the recorded metrics with the recorded configuration's sampling, which is the verdict of the recorded configuration alone; nothing else changes |
| `DashboardView.Dashboard.CountdownTick` | src/ui/views/Dashboard.tsx:88-103 | one `TimerStep`: nothing after a commit, decrement above 1, at 1 or below set 0 and commit |
| `DashboardView.Dashboard.DirectorDrift` | src/ui/views/Dashboard.tsx:157-172 | only the live configuration changes, to `Drifted`; the recorded metrics do not |
| `DashboardView.Dashboard.ResetSimulation` | src/ui/views/Dashboard.tsx:210-220 | outcome cleared, countdown 60, no panic, normal mode, the two reboot lines; configuration untouched |
| `DashboardView.ConfigChangeLogs` | src/ui/views/Dashboard.tsx:192-200 | the warnings of one change: at most two, none for a sampling change or a value of 70 or less, and for encryption only the thermal line above 90 |
| `DashboardView.Dashboard.HandleConfigChange` | src/ui/views/Dashboard.tsx:183-208 | live and recorded configuration become `CoupledConfig`, metrics are recomputed from it, the outcome is kept and the warnings are appended in order |
| `DashboardView.Dashboard.SliderTick` | src/ui/views/Dashboard.tsx:262-292 | a resistance report goes through the configuration-change handler: coupled configuration, recomputed metrics and the handler's warnings appended to the log; with no report nothing changes |
| `DashboardView.Dashboard.DirectorKey` | src/ui/views/Dashboard.tsx:105-140 | `h`/`c`/`b` set the mode, panic and two log lines (`h` also zeroes encryption); `n` and `r` reset, `r` also restores (50,50,50); other keys change nothing; metrics are never recomputed |

## Left out

- Rendering: all JSX, Tailwind classes, animation and the presentation components (CRT frame, heart monitor, intro, overlays, stat cards, battery bar, terminal, inject button). They hold no decision logic.
- Audio playback and its error handling (Dashboard.tsx:43-73, 79-84) is browser I/O.
- Scheduling: the interval periods (100 ms, 500 ms, 1 s), effect dependency arrays and listener registration. Each tick or key press is one method call, and interleavings are not modelled.
- Stale React closures: the slider callbacks and the key listener may read an older render's state. Every handler here reads the current state, except the commit, which reads the configuration recorded with the metrics as its memoised callback does.
- Floating point: the scores use exact reals, so results on exact `.5` ties may differ from IEEE doubles. `toFixed`'s decimal-string conversion is likewise taken as exact rounding.
- The panic trigger effect (Dashboard.tsx:174-181) is left out. So are the shift-key hard-stop overlays (141-150) and the screen dimming, because they are display state. The `isPanic` flag is kept only where a handler sets it.
- The slider's warning texts, its `isUnderLoad` styling, `getAccentColor` and the drag events are left out. Dragging and locking enter the tick as plain booleans.
- `DirectorKey` receives the key already lower-cased. `toLowerCase` is not modelled.
- `Metrics` scores are integers here, whereas the source types them as plain numbers. Every producer of metrics rounds them first.
- `Drifted`: its ensures bounds the drift only for in-range input. For input above 100 (sampling) or below 0 (encryption) the clamp moves the value the other way, and the body alone describes that.
