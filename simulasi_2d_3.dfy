/** The run control of `simulasi_2d_3.py`: a running guard on `start`, `stop` that only stops the
    timer, and `reset`, which also empties the fields. There is no `continue`. */
module Simulasi2d3 {
  import opened Common
  import opened Kinematics
  import opened Inputs
  import opened Animations

  /** The module's globals and entry widgets. */
  class Session {
    const trig: Trig
    var anim: Animation?
    var entries: Entries

    ghost predicate Valid()
      reads this, anim
    {
      anim != null ==> anim.Valid()
    }

    /** The state at import time. */
    constructor (trig: Trig)
      ensures Valid() && this.trig == trig
      ensures anim == null && entries == Cleared
    {
      this.trig := trig;
      anim := null;
      entries := Cleared;
    }

    /** The user types into the entry fields. */
    method Edit(e: Entries)
      requires Valid()
      modifies this`entries
      ensures Valid() && entries == e
    {
      entries := e;
    }

    /** `start_simulation`: a no-op while a run exists; otherwise all eight fields are parsed, a
        fresh run at the typed pose is bound and `_start()` is called; a non-numeric field creates
        no run. A body radius of 0 makes `_start()` raise `ZeroDivisionError`, which escapes, so
        the run stays bound with its timer never started. */
    method Start() returns (out: Outcome)
      requires Valid()
      modifies this`anim
      ensures Valid()
      ensures old(anim) != null ==> out == AlreadyRunning && anim == old(anim)
      ensures old(anim) == null ==>
        out == (if ParseAll(entries).None? then InvalidInput
                else if ParseAll(entries).value.drive.bodyRadius == 0.0 then Raised
                else Done)
      ensures out == InvalidInput ==> anim == null
      ensures out == Done || out == Raised ==>
        && fresh(anim)
        && anim.drive == ParseAll(entries).value.drive
        && anim.origin == ParseAll(entries).value.origin
        && anim.trig == trig
      ensures out == Raised ==> !anim.running && anim.Progress() == Unstarted(anim.origin)
      ensures out == Done ==>
        anim.running && anim.Progress() == FirstDrawn(anim.origin, anim.drive, anim.trig)
    {
      if anim != null {
        return AlreadyRunning;
      }
      var setup := ParseAll(entries);
      if setup.None? {
        return InvalidInput;
      }
      var a := new Animation(setup.value.drive, setup.value.origin, trig);
      anim := a;
      var launched := a.Launch();
      if launched == DivisionByZero {
        return Raised;
      }
      out := Done;
    }

    /** `stop_simulation`: stops the timer; the run is kept. */
    method Stop() returns (out: Outcome)
      requires Valid()
      modifies anim
      ensures Valid()
      ensures out == (if anim == null then NoRun else Done)
      ensures anim != null ==> !anim.running && anim.Progress() == old(anim.Progress())
    {
      if anim == null {
        return NoRun;
      }
      anim.Pause();
      out := Done;
    }

    /** `reset_simulation`: stops the timer, forgets the run and empties all eight fields; a no-op
        without a run. */
    method Reset() returns (out: Outcome)
      requires Valid()
      modifies this`anim, this`entries, anim
      ensures Valid()
      ensures old(anim) == null ==> out == NoRun && entries == old(entries)
      ensures old(anim) != null ==> out == Done && entries == Cleared
      ensures anim == null
      ensures var a := old(anim); a != null ==> !a.running && a.Progress() == old(a.Progress())
    {
      if anim == null {
        return NoRun;
      }
      anim.Pause();
      anim := null;
      entries := Cleared;
      out := Done;
    }
  }

  /** Without `continue`, a stopped run stays frozen: `start` is refused and timer events change
      nothing, until `reset` clears the run (and the fields) so that a new `start` can succeed. */
  method StoppedRunIsFrozen(s: Session)
    requires s.Valid() && s.anim != null
    modifies s, s.anim
    ensures s.Valid() && s.anim == null && s.entries == Cleared
  {
    var stopped := s.Stop();
    var blocked := s.Start();
    assert blocked == AlreadyRunning;
    var ticked := s.anim.Tick();
    assert ticked == TimerStopped;
    var reset := s.Reset();
    var empty := s.Start();
    assert empty == InvalidInput;
  }
}
