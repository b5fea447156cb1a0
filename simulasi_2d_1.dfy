/** The run control of `simulasi_2D_1.py`: only `start`, with no running guard. */
module Simulasi2D1 {
  import opened Common
  import opened Kinematics
  import opened Inputs
  import opened Animations

  /** The module's global and entry widgets. `anim_global` is first bound by the first `start`
      whose fields parse; before that it is modelled as `null`. */
  class Session {
    const trig: Trig
    var anim: Animation?
    var entries: Entries

    ghost predicate Valid()
      reads this, anim
    {
      anim != null ==> anim.Valid()
    }

    /** The state at import time. */
    constructor (trig: Trig)
      ensures Valid() && this.trig == trig
      ensures anim == null && entries == Cleared
    {
      this.trig := trig;
      anim := null;
      entries := Cleared;
    }

    /** The user types into the entry fields. */
    method Edit(e: Entries)
      requires Valid()
      modifies this`entries
      ensures Valid() && entries == e
    {
      entries := e;
    }

    /** `start_simulation`: every call that parses all eight fields builds a fresh run, rebinds
        `anim_global` to it, whether or not a run exists, and calls `_start()`; a non-numeric field
        is reported and leaves `anim_global` as it was. A body radius of 0 makes `_start()` raise
        `ZeroDivisionError`, which escapes, with the new run bound and its timer never started. */
    method Start() returns (out: Outcome)
      requires Valid()
      modifies this`anim
      ensures Valid()
      ensures out == (if ParseAll(entries).None? then InvalidInput
                      else if ParseAll(entries).value.drive.bodyRadius == 0.0 then Raised
                      else Done)
      ensures out == InvalidInput ==> anim == old(anim)
      ensures out == Done || out == Raised ==>
        && fresh(anim)
        && anim.drive == ParseAll(entries).value.drive
        && anim.origin == ParseAll(entries).value.origin
        && anim.trig == trig
      ensures out == Raised ==> !anim.running && anim.Progress() == Unstarted(anim.origin)
      ensures out == Done ==>
        anim.running && anim.Progress() == FirstDrawn(anim.origin, anim.drive, anim.trig)
    {
      var setup := ParseAll(entries);
      if setup.None? {
        return InvalidInput;
      }
      var a := new Animation(setup.value.drive, setup.value.origin, trig);
      anim := a;
      var launched := a.Launch();
      if launched == DivisionByZero {
        return Raised;
      }
      out := Done;
    }
  }

  /** Pressing start twice gives two distinct runs, the second starting afresh at the typed pose
      (one first-draw step from it) however far the first had got. */
  method StartTwiceRestarts(s: Session)
    requires s.Valid()
    requires ParseAll(s.entries).Some? && ParseAll(s.entries).value.drive.bodyRadius != 0.0
    modifies s
    ensures s.Valid() && s.anim != null && fresh(s.anim) && s.entries == old(s.entries)
    ensures s.anim.origin == ParseAll(s.entries).value.origin
    ensures s.anim.drive == ParseAll(s.entries).value.drive && s.anim.running
    ensures s.anim.Progress() == FirstDrawn(s.anim.origin, s.anim.drive, s.anim.trig)
  {
    var first := s.Start();
    var a := s.anim;
    var second := s.Start();
    assert s.anim != a;
  }
}
