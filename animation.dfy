/** The object `differential_drive_simulation` returns: a `FuncAnimation` whose `update` callback
    mutates the closure variables `x, y, theta` and appends to `x_plot` and `y_plot`. The timer that
    drives it is modelled by explicit calls: `Launch` is `anim._start()`, `Tick` is one timer event,
    `Pause` and `Resume` are `event_source.stop()` and `event_source.start()`. */
module Animations {
  import opened Kinematics

  /** The part of an animation its methods change: the closure's pose, both plot lists, the number
      of timer frames used, and whether `_start()` has completed (the first draw is done and `update`
      is registered with the timer). */
  datatype Motion = Motion(pose: Pose, xs: seq<real>, ys: seq<real>, frame: nat, started: bool)

  /** What `_start()` does: the first draw's call of `update` succeeds, or it raises the
      `ZeroDivisionError` of `omega` when the body radius is 0 (before any closure variable
      changes, so the callback is never registered and the timer never started). */
  datatype LaunchOutcome = Launched | DivisionByZero

  /** What one timer event does: advance, nothing because the timer is stopped, nothing because no
      callback is registered, or nothing because the 100 frames are used up. */
  datatype TickOutcome = Advanced | TimerStopped | NoCallback | FramesExhausted

  /** A fresh animation: the closure at the start pose with one-sample plot lists. */
  function Unstarted(origin: Pose): Motion
  {
    Motion(origin, [origin.x], [origin.y], 0, false)
  }

  /** The state right after a successful `_start()`: the first draw has made one update. */
  function FirstDrawn(origin: Pose, drive: Drive, trig: Trig): Motion
    requires drive.bodyRadius != 0.0
  {
    var q := Step(origin, drive, trig);
    Motion(q, [origin.x, q.x], [origin.y, q.y], 0, true)
  }

  class Animation {
    const drive: Drive
    const origin: Pose
    const trig: Trig
    var pose: Pose
    var xs: seq<real>
    var ys: seq<real>
    var frame: nat
    var started: bool
    var running: bool

    /** How many times `update` has run: once for the first draw, then once per timer frame. */
    function Updates(): nat
      reads this
    {
      if started then frame + 1 else 0
    }

    /** The closure state is always the result of `Updates()` steps from the start pose, and the
        plot lists hold the start position and one sample per update. Timer frames are used only
        after `_start()`, which succeeds only for a non-zero body radius. */
    ghost predicate Valid()
      reads this
    {
      && frame <= Frames
      && (!started ==> frame == 0)
      && (started ==> drive.bodyRadius != 0.0)
      && pose == Run(origin, drive, trig, Updates())
      && xs == XPlot(origin, drive, trig, Updates())
      && ys == YPlot(origin, drive, trig, Updates())
    }

    function Progress(): Motion
      reads this
    {
      Motion(pose, xs, ys, frame, started)
    }

    /** `differential_drive_simulation`: the closure starts at the given pose with one-sample plot
        lists; the animation is not started yet. */
    constructor (drive: Drive, origin: Pose, trig: Trig)
      ensures Valid()
      ensures this.drive == drive && this.origin == origin && this.trig == trig
      ensures Progress() == Unstarted(origin) && !running
    {
      this.drive := drive;
      this.origin := origin;
      this.trig := trig;
      pose := origin;
      xs := [origin.x];
      ys := [origin.y];
      frame := 0;
      started := false;
      running := false;
    }

    /** `anim._start()`: the first draw calls `update` once, on a frame sequence of its own, so no
        timer frame is used; then the callback is registered and the timer started. */
    method Launch() returns (out: LaunchOutcome)
      requires Valid() && !started
      modifies this
      ensures Valid()
      ensures out == (if drive.bodyRadius == 0.0 then DivisionByZero else Launched)
      ensures out == DivisionByZero ==> Progress() == old(Progress()) && running == old(running)
      ensures out == Launched ==>
        && running && started && frame == 0
        && pose == Step(old(pose), drive, trig)
        && xs == old(xs) + [pose.x]
        && ys == old(ys) + [pose.y]
    {
      if drive.bodyRadius == 0.0 {
        return DivisionByZero;
      }
      pose := Step(pose, drive, trig);
      xs := xs + [pose.x];
      ys := ys + [pose.y];
      started := true;
      running := true;
      out := Launched;
    }

    /** One timer event: `update(frame)` runs only while the timer runs, the callback is registered
        and frames remain. */
    method Tick() returns (out: TickOutcome)
      requires Valid()
      modifies this
      ensures Valid() && running == old(running)
      ensures out == (if !old(running) then TimerStopped
                      else if !started then NoCallback
                      else if old(frame) == Frames then FramesExhausted
                      else Advanced)
      ensures out != Advanced ==> Progress() == old(Progress())
      ensures out == Advanced ==>
        && started
        && pose == Step(old(pose), drive, trig)
        && xs == old(xs) + [pose.x]
        && ys == old(ys) + [pose.y]
        && frame == old(frame) + 1
    {
      if !running {
        return TimerStopped;
      }
      if !started {
        return NoCallback;
      }
      if frame == Frames {
        return FramesExhausted;
      }
      pose := Step(pose, drive, trig);
      xs := xs + [pose.x];
      ys := ys + [pose.y];
      frame := frame + 1;
      out := Advanced;
    }

    /** `event_source.stop()`. */
    method Pause()
      modifies this
      ensures !running && Progress() == old(Progress())
    {
      running := false;
    }

    /** `event_source.start()`: ticking goes on from the current closure state. */
    method Resume()
      modifies this
      ensures running && Progress() == old(Progress())
    {
      running := true;
    }
  }

  /** The heading of a run in progress is theta0 + updates omega dt. */
  lemma HeadingOfRun(a: Animation)
    requires a.Valid() && a.drive.bodyRadius != 0.0
    ensures a.pose.theta == a.origin.theta + (a.Updates() as real) * AngularVelocity(a.drive) * Dt
  {
    HeadingAfter(a.origin, a.drive, a.trig, a.Updates());
  }

  /** The trajectory of a run starts at the start position, ends at the current position, has one
      sample more than there were updates, and never exceeds 102 samples (the first draw's update
      and 100 timer frames). */
  lemma TrajectoryOfRun(a: Animation)
    requires a.Valid()
    ensures |a.xs| == |a.ys| == a.Updates() + 1 <= Frames + 2
    ensures a.xs[0] == a.origin.x && a.ys[0] == a.origin.y
    ensures a.xs[a.Updates()] == a.pose.x && a.ys[a.Updates()] == a.pose.y
  {
  }
}
