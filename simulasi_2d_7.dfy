/** The run control of `simulasi_2d_7.py`: a running guard on `start`, a retained start pose that
    `stop` records from the entry fields and both `start` and the simulation builder consult,
    `continue`, `reset`, and a file-based `save`/`load` of the triple (`saved_values`,
    `last_position`, `last_orientation`), after which `load` refills the fields and calls `start`. */
module Simulasi2d7 {
  import opened Common
  import opened Kinematics
  import opened Inputs
  import opened Animations

  /** What `save_simulation` pickles and `load_simulation` unpickles. */
  datatype SaveFile = SaveFile(saved: Entries, lastPosition: Option<(real, real)>,
                               lastOrientation: Option<real>)

  /** The module's globals and entry widgets. */
  class Session {
    const trig: Trig
    var anim: Animation?
    var lastPosition: Option<(real, real)>
    var lastOrientation: Option<real>
    var savedValues: Entries
    var entries: Entries

    ghost predicate Valid()
      reads this, anim
    {
      anim != null ==> anim.Valid()
    }

    /** The triple the save file holds. */
    function Snapshot(): SaveFile
      reads this
    {
      SaveFile(savedValues, lastPosition, lastOrientation)
    }

    /** The pose a `start` would begin from, or `None` when a field it reads is not a number: the
        retained pose when both halves are set, otherwise the x, y and orientation fields. */
    function StartOrigin(): (r: Option<Pose>)
      reads this
      ensures HasRetained(lastPosition, lastOrientation) ==>
        r == Some(Pose(lastPosition.value.0, lastPosition.value.1, Radians(lastOrientation.value)))
      ensures !HasRetained(lastPosition, lastOrientation) ==> r == ParseOrigin(entries)
    {
      var chosen := ChooseOrigin(entries, lastPosition, lastOrientation);
      if chosen.None? then None else Some(BuildOrigin(chosen.value, lastPosition, lastOrientation))
    }

    /** What `start` reports when no run exists: `InvalidInput` when a field it reads is not a
        number, `Raised` when the body radius is 0, `Done` otherwise. */
    function StartOutcome(): Outcome
      reads this
    {
      if ParseDrive(entries).None? || StartOrigin().None? then InvalidInput
      else if ParseDrive(entries).value.bodyRadius == 0.0 then Raised
      else Done
    }

    /** The state at import time. */
    constructor (trig: Trig)
      ensures Valid() && this.trig == trig
      ensures anim == null && Snapshot() == SaveFile(Cleared, None, None) && entries == Cleared
    {
      this.trig := trig;
      anim := null;
      lastPosition := None;
      lastOrientation := None;
      savedValues := Cleared;
      entries := Cleared;
    }

    /** The user types into the entry fields. */
    method Edit(e: Entries)
      requires Valid()
      modifies this`entries
      ensures Valid() && entries == e
    {
      entries := e;
    }

    /** `start_simulation`: a no-op while a run exists, including a stopped one; otherwise parse the
        drive fields, take the start pose from the retained pose or else from the fields, bind a
        fresh run and call `_start()`. A non-numeric field that is read is reported and creates no
        run; a body radius of 0 makes `_start()` raise `ZeroDivisionError`, which escapes, so the
        run stays bound with its timer never started. */
    method Start() returns (out: Outcome)
      requires Valid()
      modifies this`anim
      ensures Valid()
      ensures old(anim) != null ==> out == AlreadyRunning && anim == old(anim)
      ensures old(anim) == null ==> out == StartOutcome()
      ensures out == InvalidInput ==> anim == null
      ensures out == Done || out == Raised ==>
        && fresh(anim)
        && anim.drive == ParseDrive(entries).value
        && anim.origin == StartOrigin().value
        && anim.trig == trig
      ensures out == Raised ==> !anim.running && anim.Progress() == Unstarted(anim.origin)
      ensures out == Done ==>
        anim.running && anim.Progress() == FirstDrawn(anim.origin, anim.drive, anim.trig)
    {
      if anim != null {
        return AlreadyRunning;
      }
      var drive := ParseDrive(entries);
      if drive.None? {
        return InvalidInput;
      }
      var given := ChooseOrigin(entries, lastPosition, lastOrientation);
      if given.None? {
        return InvalidInput;
      }
      var origin := BuildOrigin(given.value, lastPosition, lastOrientation);
      var a := new Animation(drive.value, origin, trig);
      anim := a;
      var launched := a.Launch();
      if launched == DivisionByZero {
        return Raised;
      }
      out := Done;
    }

    /** `stop_simulation`: records the initial x, y and orientation FIELDS (not the robot's current
        pose) as the retained pose, then stops the timer; the run is kept. The `float()` calls are
        outside any `try`: a non-numeric x or y raises before anything is assigned, a non-numeric
        orientation raises after `last_position` is assigned and leaves the timer running. */
    method Stop() returns (out: Outcome)
      requires Valid()
      modifies this`lastPosition, this`lastOrientation, anim
      ensures Valid()
      ensures old(anim) == null ==>
        out == NoRun && Snapshot() == old(Snapshot())
      ensures old(anim) != null && (entries.initialX.None? || entries.initialY.None?) ==>
        out == Raised && Snapshot() == old(Snapshot()) && anim.running == old(anim.running)
      ensures old(anim) != null && entries.initialX.Some? && entries.initialY.Some?
              && entries.initialOrientation.None? ==>
        && out == Raised && anim.running == old(anim.running)
        && lastPosition == Some((entries.initialX.value, entries.initialY.value))
        && lastOrientation == old(lastOrientation)
      ensures old(anim) != null && ParseOrigin(entries).Some? ==>
        && out == Done && !anim.running
        && lastPosition == Some((entries.initialX.value, entries.initialY.value))
        && lastOrientation == Some(entries.initialOrientation.value)
      ensures anim != null ==> anim.Progress() == old(anim.Progress())
    {
      if anim == null {
        return NoRun;
      }
      if entries.initialX.None? || entries.initialY.None? {
        return Raised;
      }
      lastPosition := Some((entries.initialX.value, entries.initialY.value));
      if entries.initialOrientation.None? {
        return Raised;
      }
      lastOrientation := Some(entries.initialOrientation.value);
      anim.Pause();
      out := Done;
    }

    /** `continue_simulation`: restarts the timer of the existing run, from its current state. */
    method Continue() returns (out: Outcome)
      requires Valid()
      modifies anim
      ensures Valid()
      ensures out == (if anim == null then NoRun else Done)
      ensures anim != null ==> anim.running && anim.Progress() == old(anim.Progress())
    {
      if anim == null {
        return NoRun;
      }
      anim.Resume();
      out := Done;
    }

    /** `reset_simulation`: stops the timer, forgets the run, empties all eight fields and clears
        the retained pose; a no-op without a run. */
    method Reset() returns (out: Outcome)
      requires Valid()
      modifies this`anim, this`entries, this`lastPosition, this`lastOrientation, anim
      ensures Valid()
      ensures old(anim) == null ==>
        out == NoRun && entries == old(entries) && Snapshot() == old(Snapshot())
      ensures anim == null
      ensures old(anim) != null ==>
        && out == Done && entries == Cleared
        && lastPosition == None && lastOrientation == None
      ensures var a := old(anim); a != null ==> !a.running && a.Progress() == old(a.Progress())
      ensures savedValues == old(savedValues)
    {
      if anim == null {
        return NoRun;
      }
      anim.Pause();
      anim := null;
      entries := Cleared;
      lastPosition := None;
      lastOrientation := None;
      out := Done;
    }

    /** `save_simulation`: refused without a run; otherwise, unless the file dialog is dismissed,
        writes the triple. `saved_values` is not taken from the fields: only `load` and
        `clear_saved_values` ever assign it. */
    method Save(chosen: bool) returns (out: Outcome, file: Option<SaveFile>)
      ensures anim == null ==> out == NoRun && file == None
      ensures anim != null && !chosen ==> out == Cancelled && file == None
      ensures anim != null && chosen ==>
        out == Done && file == Some(SaveFile(savedValues, lastPosition, lastOrientation))
    {
      if anim == null {
        return NoRun, None;
      }
      if !chosen {
        return Cancelled, None;
      }
      out, file := Done, Some(Snapshot());
    }

    /** `update_entry_values`: every field shows its saved value, and `""` for `None`; read back,
        each field gives exactly the saved value. */
    method UpdateEntryValues()
      requires Valid()
      modifies this`entries
      ensures Valid() && entries == savedValues
    {
      entries := savedValues;
    }

    /** `clear_saved_values`: all eight saved values become `None`. No button and no other code of
        the file calls it, so the running program never reaches it. */
    method ClearSavedValues()
      requires Valid()
      modifies this`savedValues
      ensures Valid() && savedValues == Cleared
    {
      savedValues := Cleared;
    }

    /** `load_simulation`: unless the dialog is dismissed, restores the triple, refills the fields
        from it and calls `start`, whose outcome it reports (a no-op while a run exists). */
    method Load(file: Option<SaveFile>) returns (out: Outcome)
      requires Valid()
      modifies this`anim, this`entries, this`savedValues, this`lastPosition, this`lastOrientation
      ensures Valid()
      ensures file.None? ==>
        out == Cancelled && anim == old(anim) && entries == old(entries) && Snapshot() == old(Snapshot())
      ensures file.Some? ==> Snapshot() == file.value && entries == file.value.saved
      ensures file.Some? && old(anim) != null ==> out == AlreadyRunning && anim == old(anim)
      ensures file.Some? && old(anim) == null ==> out == StartOutcome()
      ensures file.Some? && old(anim) == null && out == InvalidInput ==> anim == null
      ensures file.Some? && old(anim) == null && (out == Done || out == Raised) ==>
        && fresh(anim) && anim.running == (out == Done)
        && anim.drive == ParseDrive(entries).value && anim.origin == StartOrigin().value
        && anim.trig == trig
        && (out == Done ==> anim.Progress() == FirstDrawn(anim.origin, anim.drive, anim.trig))
        && (out == Raised ==> anim.Progress() == Unstarted(anim.origin))
    {
      if file.None? {
        return Cancelled;
      }
      savedValues, lastPosition, lastOrientation :=
        file.value.saved, file.value.lastPosition, file.value.lastOrientation;
      UpdateEntryValues();
      out := Start();
    }
  }

  /** Saving during a run and loading that file restores the triple exactly; the run is kept and
      the `start` inside `load` reports that it is already running. */
  method SaveThenLoad(s: Session)
    requires s.Valid() && s.anim != null
    modifies s
    ensures s.Valid() && s.Snapshot() == old(s.Snapshot()) && s.anim == old(s.anim)
    ensures s.entries == old(s.savedValues)
  {
    var saved, file := s.Save(true);
    var loaded := s.Load(file);
    assert loaded == AlreadyRunning;
  }

  /** A file holding a retained pose overrides the fields: loading it with no run starts at the
      retained position and heading. */
  method LoadStartsAtRetainedPose(s: Session, saved: Entries, x: real, y: real, deg: real)
    requires s.Valid() && s.anim == null
    requires ParseDrive(saved).Some? && ParseDrive(saved).value.bodyRadius != 0.0
    modifies s
    ensures s.Valid() && s.anim != null && s.anim.running
    ensures s.anim.origin == Pose(x, y, Radians(deg))
  {
    var out := s.Load(Some(SaveFile(saved, Some((x, y)), Some(deg))));
    assert out == Done;
  }

  /** After `stop` only `continue` restarts the run: `start` is a no-op, and the retained pose is
      the one typed into the fields. */
  method StopThenStartIsNoOp(s: Session)
    requires s.Valid() && s.anim != null && ParseOrigin(s.entries).Some?
    modifies s, s.anim
    ensures s.Valid() && s.anim == old(s.anim) && s.anim.running
    ensures s.anim.Progress() == old(s.anim.Progress()) && s.entries == old(s.entries)
    ensures s.lastPosition == Some((s.entries.initialX.value, s.entries.initialY.value))
    ensures s.lastOrientation == Some(s.entries.initialOrientation.value)
  {
    var stopped := s.Stop();
    var again := s.Start();
    assert again == AlreadyRunning;
    var continued := s.Continue();
  }
}
