/** The run control of `simulasi_2D_4.py`: a running guard on `start`, which parses all eight
    fields; a retained pose that `stop` records from the entry fields and only the simulation
    builder consults; `continue`; and `reset`, which also empties the fields. */
module Simulasi2D4 {
  import opened Common
  import opened Kinematics
  import opened Inputs
  import opened Animations

  /** The module's globals and entry widgets. */
  class Session {
    const trig: Trig
    var anim: Animation?
    var lastPosition: Option<(real, real)>
    var lastOrientation: Option<real>
    var entries: Entries

    /** Only `stop` sets the retained pose, and only while a run exists; `reset` clears it together
        with the run. So without a run there is no retained pose, and the builder's override never
        applies to a run that `start` builds. */
    ghost predicate Valid()
      reads this, anim
    {
      && (anim != null ==> anim.Valid())
      && (anim == null ==> lastPosition == None && lastOrientation == None)
    }

    /** The state at import time. */
    constructor (trig: Trig)
      ensures Valid() && this.trig == trig
      ensures anim == null && entries == Cleared
    {
      this.trig := trig;
      anim := null;
      lastPosition := None;
      lastOrientation := None;
      entries := Cleared;
    }

    /** The user types into the entry fields. */
    method Edit(e: Entries)
      requires Valid()
      modifies this`entries
      ensures Valid() && entries == e
    {
      entries := e;
    }

    /** `start_simulation`: a no-op while a run exists, including a stopped one; otherwise all eight
        fields are parsed first (a retained pose does not excuse a non-numeric x, y or orientation),
        then the builder applies its override, which finds no retained pose, so the run starts at
        the pose typed into the fields once `_start()` is called. A body radius of 0 makes
        `_start()` raise `ZeroDivisionError`, which escapes, so the run stays bound with its timer
        never started. */
    method Start() returns (out: Outcome)
      requires Valid()
      modifies this`anim
      ensures Valid()
      ensures old(anim) != null ==> out == AlreadyRunning && anim == old(anim)
      ensures old(anim) == null ==>
        out == (if ParseAll(entries).None? then InvalidInput
                else if ParseAll(entries).value.drive.bodyRadius == 0.0 then Raised
                else Done)
      ensures out == InvalidInput ==> anim == null
      ensures out == Done || out == Raised ==>
        && fresh(anim)
        && anim.drive == ParseAll(entries).value.drive
        && anim.origin == ParseAll(entries).value.origin
        && anim.trig == trig
      ensures out == Raised ==> !anim.running && anim.Progress() == Unstarted(anim.origin)
      ensures out == Done ==>
        anim.running && anim.Progress() == FirstDrawn(anim.origin, anim.drive, anim.trig)
    {
      if anim != null {
        return AlreadyRunning;
      }
      var setup := ParseAll(entries);
      if setup.None? {
        return InvalidInput;
      }
      var origin := BuildOrigin(setup.value.origin, lastPosition, lastOrientation);
      var a := new Animation(setup.value.drive, origin, trig);
      anim := a;
      var launched := a.Launch();
      if launched == DivisionByZero {
        return Raised;
      }
      out := Done;
    }

    /** `stop_simulation`: records the initial x, y and orientation FIELDS (not the robot's current
        pose) as the retained pose, then stops the timer; the run is kept. The `float()` calls are
        outside any `try`: a non-numeric x or y raises before anything is assigned, a non-numeric
        orientation raises after `last_position` is assigned and leaves the timer running. */
    method Stop() returns (out: Outcome)
      requires Valid()
      modifies this`lastPosition, this`lastOrientation, anim
      ensures Valid()
      ensures old(anim) == null ==>
        out == NoRun && lastPosition == old(lastPosition) && lastOrientation == old(lastOrientation)
      ensures old(anim) != null && (entries.initialX.None? || entries.initialY.None?) ==>
        && out == Raised && anim.running == old(anim.running)
        && lastPosition == old(lastPosition) && lastOrientation == old(lastOrientation)
      ensures old(anim) != null && entries.initialX.Some? && entries.initialY.Some?
              && entries.initialOrientation.None? ==>
        && out == Raised && anim.running == old(anim.running)
        && lastPosition == Some((entries.initialX.value, entries.initialY.value))
        && lastOrientation == old(lastOrientation)
      ensures old(anim) != null && ParseOrigin(entries).Some? ==>
        && out == Done && !anim.running
        && lastPosition == Some((entries.initialX.value, entries.initialY.value))
        && lastOrientation == Some(entries.initialOrientation.value)
      ensures anim != null ==> anim.Progress() == old(anim.Progress())
    {
      if anim == null {
        return NoRun;
      }
      if entries.initialX.None? || entries.initialY.None? {
        return Raised;
      }
      lastPosition := Some((entries.initialX.value, entries.initialY.value));
      if entries.initialOrientation.None? {
        return Raised;
      }
      lastOrientation := Some(entries.initialOrientation.value);
      anim.Pause();
      out := Done;
    }

    /** `continue_simulation`: restarts the timer of the existing run from the closure's current
        state, without re-initialising it. */
    method Continue() returns (out: Outcome)
      requires Valid()
      modifies anim
      ensures Valid()
      ensures out == (if anim == null then NoRun else Done)
      ensures anim != null ==> anim.running && anim.Progress() == old(anim.Progress())
    {
      if anim == null {
        return NoRun;
      }
      anim.Resume();
      out := Done;
    }

    /** `reset_simulation`: stops the timer, forgets the run, empties all eight fields and clears
        the retained pose; a no-op without a run. */
    method Reset() returns (out: Outcome)
      requires Valid()
      modifies this`anim, this`entries, this`lastPosition, this`lastOrientation, anim
      ensures Valid()
      ensures old(anim) == null ==> out == NoRun && entries == old(entries)
      ensures old(anim) != null ==> out == Done && entries == Cleared
      ensures anim == null && lastPosition == None && lastOrientation == None
      ensures var a := old(anim); a != null ==> !a.running && a.Progress() == old(a.Progress())
    {
      if anim == null {
        return NoRun;
      }
      anim.Pause();
      anim := null;
      entries := Cleared;
      lastPosition := None;
      lastOrientation := None;
      out := Done;
    }
  }

  /** A pose retained by `stop` never reaches a run: `start` is refused while the stopped run
      exists, and `reset` clears the pose with the run. A new run after `reset` and retyping the
      fields starts at the retyped pose. */
  method RetainedPoseNeverUsed(s: Session, e: Entries)
    requires s.Valid() && s.anim != null
    requires ParseAll(e).Some? && ParseAll(e).value.drive.bodyRadius != 0.0
    modifies s, s.anim
    ensures s.Valid() && s.anim != null && fresh(s.anim)
    ensures s.anim.origin == ParseAll(e).value.origin
  {
    var stopped := s.Stop();
    var blocked := s.Start();
    assert blocked == AlreadyRunning;
    var reset := s.Reset();
    s.Edit(e);
    var started := s.Start();
    assert started == Done;
  }
}
