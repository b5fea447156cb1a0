/** Differential-drive forward kinematics, integrated by explicit Euler steps, as the `update`
    callback of `differential_drive_simulation` computes it in every simulator variant. */
module Kinematics {

  /** The time step of one animation frame (`dt = 0.1`). */
  const Dt: real := 0.1

  /** `np.arange(0, 10, 0.1)` has 100 elements and the animation does not repeat. */
  const Frames: nat := 100

  /** numpy's pi, written as the decimal it prints. */
  const Pi: real := 3.141592653589793

  /** The robot's position and heading (radians; not normalised). */
  datatype Pose = Pose(x: real, y: real, theta: real)

  /** The five drive parameters read from the entry fields. */
  datatype Drive = Drive(leftSpeed: real, leftRadius: real, rightSpeed: real, rightRadius: real,
                         bodyRadius: real)

  /** The cosine and sine the step uses. They are parameters, so every property below holds for any
      pair of functions, and none depends on trigonometric values unless its requires says so. */
  datatype Trig = Trig(cos: real -> real, sin: real -> real)

  /** `np.radians`. */
  function Radians(deg: real): real
  {
    deg * (Pi / 180.0)
  }

  /** Linear speed of the left wheel: `left_speed * left_radius`. */
  function LeftVelocity(d: Drive): real
  {
    d.leftSpeed * d.leftRadius
  }

  /** Linear speed of the right wheel: `right_speed * right_radius`. */
  function RightVelocity(d: Drive): real
  {
    d.rightSpeed * d.rightRadius
  }

  /** The robot's linear velocity, the mean of the wheel speeds; it vanishes exactly when the
      wheels turn at opposite speeds. */
  function LinearVelocity(d: Drive): (v: real)
    ensures v == 0.0 <==> LeftVelocity(d) == -RightVelocity(d)
    ensures 2.0 * v == LeftVelocity(d) + RightVelocity(d)
  {
    (LeftVelocity(d) + RightVelocity(d)) / 2.0
  }

  /** The robot's angular velocity; it vanishes exactly when the wheels turn at equal speeds. */
  function AngularVelocity(d: Drive): (omega: real)
    requires d.bodyRadius != 0.0
    ensures omega == 0.0 <==> LeftVelocity(d) == RightVelocity(d)
    ensures omega * d.bodyRadius == RightVelocity(d) - LeftVelocity(d)
  {
    (RightVelocity(d) - LeftVelocity(d)) / d.bodyRadius
  }

  /** One tick: x += v cos(theta) dt, y += v sin(theta) dt, theta += omega dt. */
  function Step(p: Pose, d: Drive, t: Trig): Pose
    requires d.bodyRadius != 0.0
  {
    var v := LinearVelocity(d);
    var omega := AngularVelocity(d);
    Pose(p.x + v * t.cos(p.theta) * Dt, p.y + v * t.sin(p.theta) * Dt, p.theta + omega * Dt)
  }

  /** The pose after `n` ticks from `p`. No tick is taken when `n == 0`, so no divisor is needed. */
  function Run(p: Pose, d: Drive, t: Trig, n: nat): Pose
    requires n == 0 || d.bodyRadius != 0.0
  {
    if n == 0 then p else Step(Run(p, d, t, n - 1), d, t)
  }

  /** `x_plot` after `n` ticks: the start position followed by one sample per tick. */
  function XPlot(p: Pose, d: Drive, t: Trig, n: nat): (xs: seq<real>)
    requires n == 0 || d.bodyRadius != 0.0
    ensures |xs| == n + 1
    ensures xs[0] == p.x && xs[n] == Run(p, d, t, n).x
  {
    if n == 0 then [p.x] else XPlot(p, d, t, n - 1) + [Run(p, d, t, n).x]
  }

  /** `y_plot` after `n` ticks. */
  function YPlot(p: Pose, d: Drive, t: Trig, n: nat): (ys: seq<real>)
    requires n == 0 || d.bodyRadius != 0.0
    ensures |ys| == n + 1
    ensures ys[0] == p.y && ys[n] == Run(p, d, t, n).y
  {
    if n == 0 then [p.y] else YPlot(p, d, t, n - 1) + [Run(p, d, t, n).y]
  }

  function Square(r: real): real
  {
    r * r
  }

  /** With a genuine cosine and sine, one tick moves the robot exactly |v| dt. */
  lemma StepDistance(p: Pose, d: Drive, t: Trig)
    requires d.bodyRadius != 0.0
    requires Square(t.cos(p.theta)) + Square(t.sin(p.theta)) == 1.0
    ensures var q := Step(p, d, t);
      Square(q.x - p.x) + Square(q.y - p.y) == Square(LinearVelocity(d) * Dt)
  {
  }

  /** The heading after `n` ticks is theta0 + n omega dt. */
  lemma {:induction false} HeadingAfter(p: Pose, d: Drive, t: Trig, n: nat)
    requires d.bodyRadius != 0.0
    ensures Run(p, d, t, n).theta == p.theta + (n as real) * AngularVelocity(d) * Dt
  {
    if n > 0 {
      HeadingAfter(p, d, t, n - 1);
      var w := AngularVelocity(d) * Dt;
      assert ((n - 1) as real) * w + w == (n as real) * w;
    }
  }

  /** Equal wheel speeds: the heading never changes. */
  lemma {:induction false} StraightLineKeepsHeading(p: Pose, d: Drive, t: Trig, n: nat)
    requires d.bodyRadius != 0.0
    requires LeftVelocity(d) == RightVelocity(d)
    ensures Run(p, d, t, n).theta == p.theta
  {
    HeadingAfter(p, d, t, n);
  }

  /** Equal wheel speeds: the robot moves along the starting heading by v dt per tick. */
  lemma {:induction false} StraightLinePosition(p: Pose, d: Drive, t: Trig, n: nat)
    requires d.bodyRadius != 0.0
    requires LeftVelocity(d) == RightVelocity(d)
    ensures Run(p, d, t, n) == Pose(p.x + (n as real) * LinearVelocity(d) * t.cos(p.theta) * Dt,
                                    p.y + (n as real) * LinearVelocity(d) * t.sin(p.theta) * Dt,
                                    p.theta)
  {
    if n > 0 {
      StraightLinePosition(p, d, t, n - 1);
      var wx := LinearVelocity(d) * t.cos(p.theta) * Dt;
      var wy := LinearVelocity(d) * t.sin(p.theta) * Dt;
      assert ((n - 1) as real) * wx + wx == (n as real) * wx;
      assert ((n - 1) as real) * wy + wy == (n as real) * wy;
    }
  }

  /** Opposite wheel speeds: the robot turns on the spot; x and y keep their start values while the
      heading grows by omega dt per tick. */
  lemma {:induction false} PureRotationKeepsPosition(p: Pose, d: Drive, t: Trig, n: nat)
    requires d.bodyRadius != 0.0
    requires LeftVelocity(d) == -RightVelocity(d)
    ensures Run(p, d, t, n).x == p.x && Run(p, d, t, n).y == p.y
    ensures Run(p, d, t, n).theta == p.theta + (n as real) * AngularVelocity(d) * Dt
  {
    HeadingAfter(p, d, t, n);
    if n > 0 {
      PureRotationKeepsPosition(p, d, t, n - 1);
    }
  }

  /** Sample `k` of the trajectory after `n` ticks is the position after `k` ticks. */
  lemma {:induction false} PlotAt(p: Pose, d: Drive, t: Trig, n: nat, k: nat)
    requires d.bodyRadius != 0.0
    requires k <= n
    ensures XPlot(p, d, t, n)[k] == Run(p, d, t, k).x
    ensures YPlot(p, d, t, n)[k] == Run(p, d, t, k).y
  {
    if k < n {
      PlotAt(p, d, t, n - 1, k);
    }
  }

  /** The trajectory only grows: the one after `m` ticks is a prefix of the one after `n >= m`. */
  lemma {:induction false} PlotPrefix(p: Pose, d: Drive, t: Trig, m: nat, n: nat)
    requires d.bodyRadius != 0.0
    requires m <= n
    ensures XPlot(p, d, t, m) == XPlot(p, d, t, n)[..m + 1]
    ensures YPlot(p, d, t, m) == YPlot(p, d, t, n)[..m + 1]
  {
    if m < n {
      PlotPrefix(p, d, t, m, n - 1);
      assert XPlot(p, d, t, n)[..n] == XPlot(p, d, t, n - 1);
      assert YPlot(p, d, t, n)[..n] == YPlot(p, d, t, n - 1);
    }
  }

  /** Opposite wheel speeds: every trajectory sample is the start position. */
  lemma {:induction false} PureRotationPlotIsPoint(p: Pose, d: Drive, t: Trig, n: nat)
    requires d.bodyRadius != 0.0
    requires LeftVelocity(d) == -RightVelocity(d)
    ensures forall k :: 0 <= k <= n ==> XPlot(p, d, t, n)[k] == p.x && YPlot(p, d, t, n)[k] == p.y
  {
    forall k | 0 <= k <= n
      ensures XPlot(p, d, t, n)[k] == p.x && YPlot(p, d, t, n)[k] == p.y
    {
      PlotAt(p, d, t, n, k);
      PureRotationKeepsPosition(p, d, t, k);
    }
  }

  /** Unit wheels at speed 1 from the origin facing 0: one tick moves 0.1 along x. */
  lemma StraightExample(t: Trig)
    requires t.cos(0.0) == 1.0 && t.sin(0.0) == 0.0
    ensures Step(Pose(0.0, 0.0, 0.0), Drive(1.0, 1.0, 1.0, 1.0, 1.0), t) == Pose(0.1, 0.0, 0.0)
  {
  }

  /** Wheels at speeds 1 and -1 on a body of radius 2: v = 0, omega = -1, one tick turns by -0.1
      and does not move, whatever the trigonometric values. */
  lemma SpinExample(t: Trig)
    ensures LinearVelocity(Drive(1.0, 1.0, -1.0, 1.0, 2.0)) == 0.0
    ensures AngularVelocity(Drive(1.0, 1.0, -1.0, 1.0, 2.0)) == -1.0
    ensures Step(Pose(0.0, 0.0, 0.0), Drive(1.0, 1.0, -1.0, 1.0, 2.0), t) == Pose(0.0, 0.0, -0.1)
  {
  }
}
