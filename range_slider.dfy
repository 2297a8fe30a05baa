/**
 * The resistance physics of a slider: on each tick a value inside a
 * resistance zone is pushed toward the zone's target by at most the
 * zone's force, never past the target.
 */
module RangeSlider {
  import opened Types

  /** A band `[min, max]` in which the slider is pushed toward `pushTo` by `force` per tick. */
  datatype ResistanceZone = ResistanceZone(min: real, max: real, pushTo: real, force: real)

  /** The zone bounds are inclusive. */
  predicate InZone(v: real, z: ResistanceZone)
  {
    z.min <= v <= z.max
  }

  function Abs(x: real): real { if x < 0.0 then -x else x }

  /** The value one zone proposes for `v`: a step of `force` toward `pushTo`, stopping at `pushTo`. */
  function Pushed(v: real, z: ResistanceZone): (r: real)
    requires z.force >= 0.0
    ensures v <= z.pushTo ==> v <= r <= z.pushTo
    ensures v >= z.pushTo ==> z.pushTo <= r <= v
    ensures r == z.pushTo || Abs(r - z.pushTo) == Abs(v - z.pushTo) - z.force
  {
    if v < z.pushTo then (if z.pushTo <= v + z.force then z.pushTo else v + z.force)
    else if v > z.pushTo then (if z.pushTo >= v - z.force then z.pushTo else v - z.force)
    else v
  }

  /** A zone that contains `v` and would move it. */
  predicate Moves(v: real, z: ResistanceZone)
  {
    InZone(v, z) && v != z.pushTo
  }

  predicate ForcesNonNegative(zones: seq<ResistanceZone>)
  {
    forall k :: 0 <= k < |zones| ==> zones[k].force >= 0.0
  }

  /** The locals of one tick after visiting some zones in order. */
  datatype Sweep = Sweep(newValue: real, affected: bool)

  /**
   * The locals after visiting `zones` in order, each zone judged against
   * the value the tick started from.
   */
  function SweepZones(value: real, zones: seq<ResistanceZone>): Sweep
    requires ForcesNonNegative(zones)
  {
    if zones == [] then Sweep(value, false)
    else
      var before := SweepZones(value, zones[..|zones| - 1]);
      var z := zones[|zones| - 1];
      if !InZone(value, z) then before
      else if value != z.pushTo then Sweep(Pushed(value, z), true)
      else Sweep(before.newValue, true)
  }

  /**
   * What one tick reports through `onChange`: nothing while dragging, while
   * locked or without zones, and otherwise the new value when some zone
   * contained the value and the value changed.
   */
  function Tick(value: real, zones: seq<ResistanceZone>, isDragging: bool, isLocked: bool): Option<real>
    requires ForcesNonNegative(zones)
  {
    if isDragging || isLocked || |zones| == 0 then None
    else
      var s := SweepZones(value, zones);
      if s.affected && s.newValue != value then Some(s.newValue) else None
  }

  /** One tick of the physics loop, visiting the zones in order. */
  method PhysicsTick(value: real, zones: seq<ResistanceZone>, isDragging: bool, isLocked: bool)
    returns (emitted: Option<real>)
    requires ForcesNonNegative(zones)
    ensures emitted == Tick(value, zones, isDragging, isLocked)
    ensures emitted.Some? ==>
      emitted.value != value && exists k :: 0 <= k < |zones| && InZone(value, zones[k])
  {
    if isDragging || isLocked || |zones| == 0 {
      return None;
    }
    var newValue := value;
    var affected := false;
    var i := 0;
    while i < |zones|
      invariant 0 <= i <= |zones|
      invariant Sweep(newValue, affected) == SweepZones(value, zones[..i])
    {
      var zone := zones[i];
      assert zones[..i + 1][..i] == zones[..i];
      if value >= zone.min && value <= zone.max {
        if value < zone.pushTo {
          newValue := if zone.pushTo <= value + zone.force then zone.pushTo else value + zone.force;
        } else if value > zone.pushTo {
          newValue := if zone.pushTo >= value - zone.force then zone.pushTo else value - zone.force;
        }
        affected := true;
      }
      i := i + 1;
    }
    assert zones[..|zones|] == zones;
    emitted := if affected && newValue != value then Some(newValue) else None;
    if emitted.Some? {
      AffectedIffSomeZoneContains(value, zones);
    }
  }

  // ---------------------------------------------------------------------
  // Properties of the sweep

  /** The tick counts as affected exactly when some zone contains the value. */
  lemma {:induction false} AffectedIffSomeZoneContains(value: real, zones: seq<ResistanceZone>)
    requires ForcesNonNegative(zones)
    ensures SweepZones(value, zones).affected <==> exists k :: 0 <= k < |zones| && InZone(value, zones[k])
  {
    if zones != [] {
      var init := zones[..|zones| - 1];
      AffectedIffSomeZoneContains(value, init);
      if exists k :: 0 <= k < |init| && InZone(value, init[k]) {
        var k :| 0 <= k < |init| && InZone(value, init[k]);
        assert zones[k] == init[k];
      }
      if exists k :: 0 <= k < |zones| && InZone(value, zones[k]) {
        var k :| 0 <= k < |zones| && InZone(value, zones[k]);
        if k < |init| { assert init[k] == zones[k]; }
      }
    }
  }

  /** When no zone would move the value, the sweep leaves it where it is. */
  lemma {:induction false} NoMoverKeepsValue(value: real, zones: seq<ResistanceZone>)
    requires ForcesNonNegative(zones)
    requires forall k :: 0 <= k < |zones| ==> !Moves(value, zones[k])
    ensures SweepZones(value, zones).newValue == value
  {
    if zones != [] {
      NoMoverKeepsValue(value, zones[..|zones| - 1]);
    }
  }

  /**
   * The last zone that would move the value decides the result; every
   * zone's proposal is computed from the original value.
   */
  lemma {:induction false} LastMoverDecides(value: real, zones: seq<ResistanceZone>, j: nat)
    requires ForcesNonNegative(zones)
    requires j < |zones| && Moves(value, zones[j])
    requires forall k :: j < k < |zones| ==> !Moves(value, zones[k])
    ensures SweepZones(value, zones).newValue == Pushed(value, zones[j])
  {
    if j < |zones| - 1 {
      var init := zones[..|zones| - 1];
      assert init[j] == zones[j];
      LastMoverDecides(value, init, j);
    }
  }

  /** A value outside every zone is left alone, and nothing is reported. */
  lemma OutsideAllZonesIsQuiet(value: real, zones: seq<ResistanceZone>, isDragging: bool, isLocked: bool)
    requires ForcesNonNegative(zones)
    requires forall k :: 0 <= k < |zones| ==> !InZone(value, zones[k])
    ensures SweepZones(value, zones) == Sweep(value, false)
    ensures Tick(value, zones, isDragging, isLocked).None?
  {
    AffectedIffSomeZoneContains(value, zones);
    NoMoverKeepsValue(value, zones);
  }

  /**
   * With a single zone containing the value, the reported value is the
   * step toward `pushTo` and lies between the old value and `pushTo`.
   */
  lemma SingleZoneNeverOvershoots(value: real, z: ResistanceZone)
    requires z.force >= 0.0 && InZone(value, z)
    ensures var s := SweepZones(value, [z]);
      s.affected
      && (value < z.pushTo ==> s.newValue == if value + z.force < z.pushTo then value + z.force else z.pushTo)
      && (value > z.pushTo ==> s.newValue == if value - z.force > z.pushTo then value - z.force else z.pushTo)
      && (value <= z.pushTo ==> value <= s.newValue <= z.pushTo)
      && (value >= z.pushTo ==> z.pushTo <= s.newValue <= value)
  {
    assert [z][..0] == [];
  }

  // ---------------------------------------------------------------------
  // Repeated ticks on one zone

  /** The value after one tick of a single-zone slider (unchanged when nothing is reported). */
  function Step(v: real, z: ResistanceZone): (r: real)
    requires z.force >= 0.0
    ensures r == SweepZones(v, [z]).newValue
  {
    assert [z][..0] == [];
    if InZone(v, z) then Pushed(v, z) else v
  }

  /** The value after `k` ticks. */
  function Ticks(v: real, z: ResistanceZone, k: nat): real
    requires z.force >= 0.0
    decreases k
  {
    if k == 0 then v else Ticks(Step(v, z), z, k - 1)
  }

  /** Once outside the zone the value stays put. */
  lemma {:induction false} OutsideIsFixed(v: real, z: ResistanceZone, k: nat)
    requires z.force >= 0.0 && !InZone(v, z)
    ensures Ticks(v, z, k) == v
  {
    if k > 0 {
      OutsideIsFixed(v, z, k - 1);
    }
  }

  /** Each tick inside the zone strictly shrinks the distance to the target. */
  lemma TickShrinksDistance(v: real, z: ResistanceZone)
    requires z.force > 0.0 && Moves(v, z)
    ensures Abs(Step(v, z) - z.pushTo) < Abs(v - z.pushTo)
  {
  }

  /** An upper bound on the ticks a value in the zone needs to get out. */
  function TicksToLeave(v: real, z: ResistanceZone): nat
    requires z.force > 0.0
  {
    (Abs(v - z.pushTo) / z.force).Floor as nat + 1
  }

  /**
   * With a positive force and a target outside the zone, the value leaves
   * the zone within `TicksToLeave` ticks and stays out: the pushing ends.
   */
  lemma {:induction false} ResistanceTerminates(v: real, z: ResistanceZone, k: nat)
    requires z.force > 0.0 && !InZone(z.pushTo, z)
    requires k >= TicksToLeave(v, z)
    ensures !InZone(Ticks(v, z, k), z)
    decreases k
  {
    if !InZone(v, z) {
      OutsideIsFixed(v, z, k);
    } else {
      var w := Step(v, z);
      if w == z.pushTo {
        OutsideIsFixed(w, z, k - 1);
      } else {
        var d := Abs(v - z.pushTo);
        assert Abs(w - z.pushTo) == d - z.force;
        calc {
          (d - z.force) / z.force;
          d / z.force - z.force / z.force;
          d / z.force - 1.0;
        }
        assert TicksToLeave(w, z) == TicksToLeave(v, z) - 1;
        ResistanceTerminates(w, z, k - 1);
      }
    }
  }
}
