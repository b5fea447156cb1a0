/** The run control of `simulasi_2D_8.py`: a running guard on `start`, `stop` and `continue` that
    only toggle the timer, `reset`, and an in-memory `save`/`load` of the eight values. As written
    the file does not compile (its `update` declares `nonlocal linear_speed, angular_speed`, which
    the enclosing function does not bind); this is the logic its text describes. */
module Simulasi2D8 {
  import opened Common
  import opened Kinematics
  import opened Inputs
  import opened Animations

  /** The module's globals and entry widgets. */
  class Session {
    const trig: Trig
    var anim: Animation?
    var lastPosition: Option<(real, real)>
    var lastOrientation: Option<real>
    var savedValues: Entries
    var entries: Entries

    /** A run, when there is one, is consistent, and the retained pose is never set: every
        assignment to `last_position` and `last_orientation` in this file is `None`. */
    ghost predicate Valid()
      reads this, anim
    {
      && (anim != null ==> anim.Valid())
      && lastPosition == None && lastOrientation == None
    }

    /** The state at import time: no run, no retained pose, every saved value `None`, empty fields. */
    constructor (trig: Trig)
      ensures Valid() && this.trig == trig
      ensures anim == null && savedValues == Cleared && entries == Cleared
    {
      this.trig := trig;
      anim := null;
      lastPosition := None;
      lastOrientation := None;
      savedValues := Cleared;
      entries := Cleared;
    }

    /** The user types into the entry fields. */
    method Edit(e: Entries)
      requires Valid()
      modifies this`entries
      ensures Valid() && entries == e
    {
      entries := e;
    }

    /** `start_simulation`: a no-op while a run exists; otherwise parse the drive fields and the
        start pose (the retained pose is never set, so the pose always comes from the fields), bind
        a fresh run and call `_start()`. A non-numeric field is reported and creates no run; a body
        radius of 0 makes `_start()` raise `ZeroDivisionError`, which `except ValueError` does not
        catch, so the run stays bound with its timer never started. */
    method Start() returns (out: Outcome)
      requires Valid()
      modifies this`anim
      ensures Valid()
      ensures old(anim) != null ==> out == AlreadyRunning && anim == old(anim)
      ensures old(anim) == null ==>
        out == (if ParseAll(entries).None? then InvalidInput
                else if ParseAll(entries).value.drive.bodyRadius == 0.0 then Raised
                else Done)
      ensures out == InvalidInput ==> anim == null
      ensures out == Done || out == Raised ==>
        && fresh(anim)
        && anim.drive == ParseAll(entries).value.drive
        && anim.origin == ParseAll(entries).value.origin
        && anim.trig == trig
      ensures out == Raised ==> !anim.running && anim.Progress() == Unstarted(anim.origin)
      ensures out == Done ==>
        anim.running && anim.Progress() == FirstDrawn(anim.origin, anim.drive, anim.trig)
    {
      if anim != null {
        return AlreadyRunning;
      }
      var drive := ParseDrive(entries);
      var origin := ChooseOrigin(entries, lastPosition, lastOrientation);
      if drive.None? || origin.None? {
        return InvalidInput;
      }
      var a := new Animation(drive.value, origin.value, trig);
      anim := a;
      var launched := a.Launch();
      if launched == DivisionByZero {
        return Raised;
      }
      out := Done;
    }

    /** `stop_simulation`: stops the timer and keeps the run. */
    method Stop() returns (out: Outcome)
      requires Valid()
      modifies anim
      ensures Valid()
      ensures out == (if anim == null then NoRun else Done)
      ensures anim != null ==> !anim.running && anim.Progress() == old(anim.Progress())
    {
      if anim == null {
        return NoRun;
      }
      anim.Pause();
      out := Done;
    }

    /** `continue_simulation`: restarts the timer of the existing run, from its current state. */
    method Continue() returns (out: Outcome)
      requires Valid()
      modifies anim
      ensures Valid()
      ensures out == (if anim == null then NoRun else Done)
      ensures anim != null ==> anim.running && anim.Progress() == old(anim.Progress())
    {
      if anim == null {
        return NoRun;
      }
      anim.Resume();
      out := Done;
    }

    /** `reset_simulation`: stops the timer, forgets the run and the retained pose; the fields keep
        their text. */
    method Reset() returns (out: Outcome)
      requires Valid()
      modifies this`anim, this`lastPosition, this`lastOrientation, anim
      ensures Valid()
      ensures out == (if old(anim) == null then NoRun else Done)
      ensures anim == null
      ensures var a := old(anim); a != null ==> !a.running && a.Progress() == old(a.Progress())
    {
      if anim == null {
        return NoRun;
      }
      anim.Pause();
      lastPosition := None;
      lastOrientation := None;
      anim := null;
      out := Done;
    }

    /** `save_simulation`: stores the eight values when all are numbers. Its `float()` calls are
        outside any `try`, so a non-numeric field raises out of the handler and nothing changes. */
    method Save() returns (out: Outcome)
      requires Valid()
      modifies this`savedValues, this`lastPosition, this`lastOrientation
      ensures Valid()
      ensures out == (if ParseAll(entries).Some? then Done else Raised)
      ensures savedValues == if out == Done then entries else old(savedValues)
    {
      if ParseAll(entries).None? {
        return Raised;
      }
      savedValues := entries;
      lastPosition := None;
      lastOrientation := None;
      out := Done;
    }

    /** `load_simulation`: `saved_values` is a dictionary with eight keys, so its truth test always
        passes; every field is refilled with its saved value (`str(None)` is not a number, so a
        value never saved leaves its field non-numeric). No run is started. */
    method Load() returns (out: Outcome)
      requires Valid()
      modifies this`entries, this`lastPosition, this`lastOrientation
      ensures Valid()
      ensures out == Done && entries == savedValues
    {
      entries := savedValues;
      lastPosition := None;
      lastOrientation := None;
      out := Done;
    }
  }

  /** Saving and then loading puts back exactly the eight values that were in the fields. */
  method SaveThenLoad(s: Session)
    requires s.Valid() && ParseAll(s.entries).Some?
    modifies s
    ensures s.Valid() && s.entries == old(s.entries) && s.savedValues == old(s.entries)
    ensures s.anim == old(s.anim)
  {
    var saved := s.Save();
    s.Edit(Cleared);
    var loaded := s.Load();
  }

  /** After `stop` the run still exists, so `start` does nothing until `reset`; after `reset` it
      builds a fresh run from the fields. */
  method StopBlocksStartUntilReset(s: Session)
    requires s.Valid() && s.anim != null
    requires ParseAll(s.entries).Some? && ParseAll(s.entries).value.drive.bodyRadius != 0.0
    modifies s, s.anim
    ensures s.Valid() && s.anim != null && fresh(s.anim) && s.anim.running
    ensures s.entries == old(s.entries)
    ensures s.anim.origin == ParseAll(s.entries).value.origin
  {
    var stopped := s.Stop();
    var again := s.Start();
    assert again == AlreadyRunning;
    var reset := s.Reset();
    var started := s.Start();
    assert started == Done;
  }

  /** Stopping and continuing loses no tick: the next frame is the step from the pose at the stop. */
  method PauseResumeContinuity(s: Session)
    requires s.Valid() && s.anim != null && s.anim.started && s.anim.frame < Frames
    modifies s.anim
    ensures s.Valid() && s.anim != null
    ensures s.anim.pose == Step(old(s.anim.pose), s.anim.drive, s.anim.trig)
    ensures s.anim.frame == old(s.anim.frame) + 1
  {
    var stopped := s.Stop();
    var continued := s.Continue();
    var ticked := s.anim.Tick();
  }

  /** A body radius of 0 leaves a run bound that never moves: `start` is refused, and after
      `continue` the timer runs without a callback, until `reset` clears the run. */
  method ZeroRadiusRunIsStuck(s: Session)
    requires s.Valid() && s.anim == null
    requires ParseAll(s.entries).Some? && ParseAll(s.entries).value.drive.bodyRadius == 0.0
    modifies s
    ensures s.Valid() && s.anim == null
  {
    var first := s.Start();
    assert first == Raised;
    var again := s.Start();
    assert again == AlreadyRunning;
    var continued := s.Continue();
    var ticked := s.anim.Tick();
    assert ticked == NoCallback && s.anim.Progress() == Unstarted(s.anim.origin);
    var reset := s.Reset();
  }
}
