# Differential-drive robot simulator: the integrator and the run control

The repository holds five near-duplicate tkinter/matplotlib programs that animate a two-wheeled
(differential-drive) robot. Each has two parts with real logic, and this project models and
verifies both:

- **The per-tick kinematic step.** This is the `update(frame)` callback created by
  `differential_drive_simulation`. It computes the wheel speeds `vL = ls*lr` and `vR = rs*rr`,
  then `v = (vL+vR)/2` and `omega = (vR-vL)/br`. It moves the closure variables `x, y, theta` by one
  explicit-Euler step with `dt = 0.1` and appends `(x, y)` to `x_plot`/`y_plot`. A run has at most
  100 frames (`np.arange(0, 10, 0.1)`, `repeat=False`). The start heading is the entered degrees
  in radians.
- **The run control.** Each file has its own button handlers (`start`, `stop`, `continue`,
  `reset`, `save`, `load`) over module globals: `anim_global`, `last_position`/`last_orientation`,
  `saved_values`, and the eight entry fields.

Layout:

- `common.dfy`: `Option` and the handler `Outcome`.
- `kinematics.dfy`: the pure integrator over `real`, and its lemmas.
  - The cosine and sine are a `Trig` parameter: any two functions `real -> real`.
  - So the lemmas hold whatever the trigonometric values are, unless a lemma's requires says
    otherwise.
- `inputs.dfy`: the eight fields as `Option<real>`, where `None` is text that `float()` rejects.
  Also the two ways a start pose is chosen.
- `animation.dfy`: class `Animation`, the animation object together with its closure state (pose,
  plot lists, frame counter, timer on/off).
  - `Launch` is `anim._start()`: the first draw's call of `update`, then the timer starts.
  - `Tick` is one timer event.
  - `Pause`/`Resume` are `event_source.stop()`/`start()`.
  - `Valid()` ties the state to `Run`, `XPlot` and `YPlot` of the start pose.
- `simulasi_2d_8.dfy`, `simulasi_2d_7.dfy`, `simulasi_2d_4.dfy`, `simulasi_2d_3.dfy`,
  `simulasi_2d_1.dfy`: one module per source file.
  - Each has a class `Session`. Its fields are that file's globals and fields, and its methods are
    that file's handlers (`simulasi_2d_7.py`'s `clear_saved_values` has no button and no caller,
    so it is modelled but unreachable).
  - Each ends with small client methods. They show what the handler contracts imply together.

Differences between the variants that the contracts make explicit:

- `simulasi_2D_8.py`:
  - `last_position`/`last_orientation` are only ever assigned `None`. `Session.Valid()` states
    this, so `start` always takes its pose from the fields.
  - `save` has no `try`, so a non-numeric field raises out of the handler (`Raised`) and nothing
    changes.
  - `saved_values` is an eight-key dictionary, so `load`'s truth test always passes. `str(None)`
    is not a number, so a value that was never saved leaves its field non-numeric.
  - `reset` does not empty the fields.
  - As written the file does not compile: `nonlocal linear_speed, angular_speed` at line 59 names
    variables the enclosing function does not bind. The model follows its text.
- `simulasi_2d_7.py` and `simulasi_2D_4.py`: `stop` records the initial x/y/orientation **fields**
  as the retained pose, not the robot's current pose.
  - It has no `try`. A non-numeric x or y raises before any assignment.
  - A non-numeric orientation raises after `last_position` is assigned, and the timer keeps running.
- `simulasi_2D_4.py`: `Valid()` proves that without a run there is no retained pose. So the
  builder's override never applies to a run that `start` builds.
- `simulasi_2d_7.py`:
  - `start` skips parsing x/y/orientation when a retained pose is set.
  - `save` is refused without a run.
  - `load` restores the triple exactly, refills the fields and calls `start`, which is a no-op
    while a run exists.
  - `saved_values` is only ever assigned by `load` and `clear_saved_values`. So a save file holds
    the values of the last loaded file (or all `None`), never the fields.
- All variants with a `stop` keep `anim_global` set after stopping. So `start` is refused until
  `reset`, and only `continue` (where it exists) restarts a stopped run.
- `simulasi_2D_1.py`: `start` has no running guard. Each successful call rebinds `anim_global` to
  a fresh run.

Behaviour the model states outright, since it is easy to assume otherwise:

- `stop` keeps the field values (`simulasi_2d_7.py`, `simulasi_2D_4.py`) or nothing (the others),
  not the robot's current pose.
- `load` works whether or not a run exists.
- `simulasi_2d_7.py` refuses `save` without a run.
- Once the 100 timer frames are used, `Tick` reports `FramesExhausted` and changes nothing.
- The body radius may be any number. `start` binds `anim_global` and then calls `anim._start()`.
  Its first draw calls `update` once, on a frame sequence of its own, before the callback is
  registered and the timer started, so a run begins one step past the start pose. With a body
  radius of 0 that call raises `ZeroDivisionError` before any closure variable changes.
  `except ValueError` does not catch it, so `start` reports `Raised`, the run stays bound, its
  timer never starts and no timer event ever reaches `update`. `Animation.Launch` models
  `_start()`. `Kinematics.Step`, the pure step, requires a non-zero radius.

Constants: `Dt = 0.1`, `Frames = 100`, and `Pi = 3.141592653589793` (numpy's pi), with
`Radians(d) = d * (Pi / 180)`.

## Model

| member | source | states |
|---|---|---|
| `Kinematics.Radians` | simulasi_2D_8.py:33 | definition; no contract (`np.radians`: degrees times pi/180) |
| `Kinematics.LeftVelocity` | simulasi_2D_8.py:62 | definition; no contract (left wheel speed times radius) |
| `Kinematics.RightVelocity` | simulasi_2D_8.py:63 | definition; no contract (right wheel speed times radius) |
| `Kinematics.Step` | simulasi_2D_8.py:62-77 | definition; no contract (one explicit-Euler update of x, y and theta); its properties are the lemmas below |
| `Kinematics.Run` | simulasi_2D_8.py:36-38 | definition; no contract (the closure's x, y, theta after n updates); its properties are the lemmas below |
| `Kinematics.LinearVelocity` | simulasi_2D_8.py:62-66 | twice v is the sum of the wheel speeds; v is 0 exactly when the wheel speeds are opposite |
| `Kinematics.AngularVelocity` | simulasi_2D_8.py:62-67 | omega times the body radius is vR - vL; omega is 0 exactly when the wheel speeds are equal |
| `Kinematics.XPlot` | simulasi_2D_8.py:41-81 | `x_plot` after n ticks has n+1 samples, starts at the initial x and ends at the current x |
| `Kinematics.YPlot` | simulasi_2D_8.py:41-81 | the same for `y_plot` |
| `Kinematics.StepDistance` | simulasi_2D_8.py:66-77 | with cos²+sin² = 1, one tick moves the robot exactly abs(v)·dt |
| `Kinematics.HeadingAfter` | simulasi_2d_7.py:29-76 | the heading after n ticks is theta0 + n·omega·dt |
| `Kinematics.StraightLineKeepsHeading` | simulasi_2D_4.py:48-63 | equal wheel speeds keep the heading unchanged after any number of ticks |
| `Kinematics.StraightLinePosition` | simulasi_2D_1.py:35-50 | equal wheel speeds: after n ticks the pose is the start pose moved n·v·dt along the start heading |
| `Kinematics.PureRotationKeepsPosition` | simulasi_2d_3.py:44-55 | opposite wheel speeds keep x and y at their start values while the heading grows by omega·dt per tick |
| `Kinematics.PureRotationPlotIsPoint` | simulasi_2D_1.py:35-54 | opposite wheel speeds: every trajectory sample is the start position |
| `Kinematics.PlotAt` | simulasi_2D_8.py:74-81 | sample k of the trajectory after n ticks is the position after k ticks |
| `Kinematics.PlotPrefix` | simulasi_2d_7.py:73-80 | the trajectory is append-only: after m ticks it is a prefix of the one after n ≥ m ticks |
| `Kinematics.StraightExample` | simulasi_2D_8.py:62-77 | unit wheels from (0,0,0), with cos 0 = 1 and sin 0 = 0, reach (0.1, 0, 0) in one tick |
| `Kinematics.SpinExample` | simulasi_2D_8.py:62-77 | wheel speeds 1 and -1 on radius 2 give v = 0 and omega = -1, and one tick reaches (0, 0, -0.1) |
| `Inputs.ParseDrive` | simulasi_2D_8.py:108-112 | definition; no contract (`float()` of the five drive fields: the drive when all five are numbers, else the `ValueError` path) |
| `Inputs.ParseOrigin` | simulasi_2D_8.py:119-121 | definition; no contract (`float()` of x, y and orientation, the orientation turned into radians) |
| `Inputs.ParseAll` | simulasi_2D_4.py:87-94 | definition; no contract (all eight conversions, or the `ValueError` path) |
| `Inputs.ChooseOrigin` | simulasi_2D_8.py:114-121 | definition; no contract (the retained pose when both halves are set, otherwise the parsed fields) |
| `Inputs.BuildOrigin` | simulasi_2D_4.py:23-27 | definition; no contract (a retained pose with both halves set replaces the pose passed to the builder) |
| `Inputs.BuildAfterChooseIsChoose` | simulasi_2d_7.py:37-40 | the builder's override is redundant when `start` already chose the retained pose |
| `Inputs.RetainedPoseIgnoresFields` | simulasi_2d_7.py:106-113 | with both halves of the retained pose set, the start pose parses and is the same whatever the x, y and orientation fields hold |
| `Animations.Unstarted` | simulasi_2D_8.py:36-42 | definition; no contract (the closure at the start pose, one-sample plot lists, not started) |
| `Animations.FirstDrawn` | simulasi_2D_8.py:58-81 | definition; no contract (the state after the first draw's single update) |
| `Animations.Animation.constructor` | simulasi_2D_8.py:31-98 | a new animation is at the start pose with one-sample plot lists, no frame used, not started and the timer off |
| `Animations.Animation.Launch` | simulasi_2D_8.py:130-133 | `_start()`: the first draw makes one update without using a timer frame, then the timer runs; with body radius 0 it raises and nothing changes, the timer stays off; `Valid()` is kept |
| `Animations.Animation.Tick` | simulasi_2D_8.py:58-98 | while the timer runs, the callback is registered and fewer than 100 frames are used, the pose becomes Step of the old pose and each plot list gains the new position; otherwise nothing changes; `Valid()` is kept |
| `Animations.Animation.Pause` | simulasi_2D_8.py:141 | `event_source.stop()`: the timer stops and the closure state is unchanged |
| `Animations.Animation.Resume` | simulasi_2D_8.py:161 | `event_source.start()`: the timer runs and the closure state is unchanged |
| `Animations.HeadingOfRun` | simulasi_2D_4.py:44-63 | in any run, the heading is theta0 + updates·omega·dt, counting the first draw's update |
| `Animations.TrajectoryOfRun` | simulasi_2D_4.py:30-77 | in any run, the trajectory has updates+1 ≤ 102 samples, starts at the start position and ends at the current one |
| `Simulasi2D8.Session.constructor` | simulasi_2D_8.py:10-25 | no run, no retained pose, every saved value `None` |
| `Simulasi2D8.Session.Start` | simulasi_2D_8.py:101-136 | does nothing while `anim_global` is set; otherwise a fresh run from the fields, one first-draw step along, exactly when all eight parse, else `InvalidInput` with no run; a body radius of 0 makes `_start()` raise: `Raised`, with the new run bound and never started |
| `Simulasi2D8.Session.Stop` | simulasi_2D_8.py:138-144 | stops the timer, keeps the run and its state; `NoRun` without a run |
| `Simulasi2D8.Session.Continue` | simulasi_2D_8.py:158-164 | restarts the timer, keeps the run and its state; `NoRun` without a run |
| `Simulasi2D8.Session.Reset` | simulasi_2D_8.py:146-156 | stops the timer, clears `anim_global` and the retained pose; `NoRun` without a run |
| `Simulasi2D8.Session.Save` | simulasi_2D_8.py:166-180 | stores the eight field values when all are numbers, and otherwise raises with nothing changed |
| `Simulasi2D8.Session.Load` | simulasi_2D_8.py:182-205 | the fields become exactly the saved values; the retained pose stays cleared |
| `Simulasi2D8.SaveThenLoad` | simulasi_2D_8.py:166-203 | save followed by load puts back exactly the eight values that were saved |
| `Simulasi2D8.StopBlocksStartUntilReset` | simulasi_2D_8.py:101-156 | after stop, start is refused; after reset, start builds a fresh run at the typed pose |
| `Simulasi2D8.ZeroRadiusRunIsStuck` | simulasi_2D_8.py:101-164 | with body radius 0, start raises and leaves a run bound that start refuses and that timer events never move, until reset clears it |
| `Simulasi2D8.PauseResumeContinuity` | simulasi_2D_8.py:138-164 | stop then continue loses no tick: the next frame is one step from the pose at the stop |
| `Simulasi2d7.Session.constructor` | simulasi_2d_7.py:10-25 | no run, no retained pose, every saved value `None` |
| `Simulasi2d7.Session.StartOrigin` | simulasi_2d_7.py:37-40 | the start pose is the retained pose when both halves are set, and otherwise the parsed fields |
| `Simulasi2d7.Session.StartOutcome` | simulasi_2d_7.py:99-128 | definition; no contract (what `start` reports without a run: `InvalidInput`, `Raised` for body radius 0, or `Done`) |
| `Simulasi2d7.Session.Start` | simulasi_2d_7.py:93-128 | does nothing while `anim_global` is set, even when stopped; otherwise a fresh run, one first-draw step along, exactly when the drive fields and the chosen start pose parse; a body radius of 0 makes `_start()` raise: `Raised`, with the new run bound and never started |
| `Simulasi2d7.Session.Stop` | simulasi_2d_7.py:156-166 | records the x/y/orientation fields (not the current pose) as the retained pose and stops the timer; partial assignment when the orientation raises; `NoRun` without a run |
| `Simulasi2d7.Session.Continue` | simulasi_2d_7.py:168-174 | restarts the timer of the existing run from its current state; `NoRun` without a run |
| `Simulasi2d7.Session.Reset` | simulasi_2d_7.py:130-154 | with a run: clears `anim_global`, empties all eight fields and clears the retained pose; without one: changes nothing |
| `Simulasi2d7.Session.Save` | simulasi_2d_7.py:176-186 | refused without a run, nothing written when the dialog is dismissed, otherwise the file holds the current triple |
| `Simulasi2d7.Session.UpdateEntryValues` | simulasi_2d_7.py:212-228 | every field reads back as its saved value |
| `Simulasi2d7.Session.ClearSavedValues` | simulasi_2d_7.py:198-210 | all eight saved values become `None` (no button or caller reaches it) |
| `Simulasi2d7.Session.Load` | simulasi_2d_7.py:188-196 | restores the triple exactly, refills the fields from it and reports the outcome of `start`; a run it starts is fresh, uses the session's trig, and is one first-draw step along (`Done`) or unstarted (`Raised`) |
| `Simulasi2d7.SaveThenLoad` | simulasi_2d_7.py:176-196 | loading the file saved during a run restores the triple and keeps the run |
| `Simulasi2d7.LoadStartsAtRetainedPose` | simulasi_2d_7.py:188-196 | loading a file with a retained pose while no run exists starts a run at that pose |
| `Simulasi2d7.StopThenStartIsNoOp` | simulasi_2d_7.py:156-174 | after stop, start is refused, continue resumes the same run, and the retained pose is the typed one |
| `Simulasi2D4.Session.constructor` | simulasi_2D_4.py:9-12 | no run and no retained pose |
| `Simulasi2D4.Session.Start` | simulasi_2D_4.py:80-109 | does nothing while `anim_global` is set; otherwise all eight fields must parse, and the run starts at the typed pose, one first-draw step along; a body radius of 0 makes `_start()` raise: `Raised`, with the new run bound and never started |
| `Simulasi2D4.Session.Stop` | simulasi_2D_4.py:137-147 | records the x/y/orientation fields as the retained pose and stops the timer; partial assignment when the orientation raises; `NoRun` without a run |
| `Simulasi2D4.Session.Continue` | simulasi_2D_4.py:149-155 | resumes from the closure's current state with no re-initialisation; `NoRun` without a run |
| `Simulasi2D4.Session.Reset` | simulasi_2D_4.py:111-135 | clears `anim_global`, the eight fields and the retained pose; changes nothing without a run |
| `Simulasi2D4.RetainedPoseNeverUsed` | simulasi_2D_4.py:111-147 | a pose retained by stop never reaches a run: start is refused until reset, which clears it |
| `Simulasi2d3.Session.constructor` | simulasi_2d_3.py:9-10 | no run |
| `Simulasi2d3.Session.Start` | simulasi_2d_3.py:72-101 | does nothing while `anim_global` is set; otherwise a fresh run, one first-draw step along, exactly when all eight fields parse, else `InvalidInput` with no run; a body radius of 0 makes `_start()` raise: `Raised`, with the new run bound and never started |
| `Simulasi2d3.Session.Stop` | simulasi_2d_3.py:125-131 | stops the timer and keeps the run; `NoRun` without a run |
| `Simulasi2d3.Session.Reset` | simulasi_2d_3.py:103-123 | clears `anim_global` and empties the eight fields; changes nothing without a run |
| `Simulasi2d3.StoppedRunIsFrozen` | simulasi_2d_3.py:72-131 | without continue, a stopped run ignores start and timer events until reset clears it |
| `Simulasi2D1.Session.constructor` | simulasi_2D_1.py:85-86 | no run: `anim_global` is unbound until a `start` whose fields parse assigns it; the fields are empty |
| `Simulasi2D1.Session.Start` | simulasi_2D_1.py:68-92 | no running guard: each call whose fields parse builds a fresh run, one first-draw step along, and rebinds `anim_global`; a non-numeric field leaves it unchanged; a body radius of 0 makes `_start()` raise: `Raised`, with the new run bound and never started |
| `Simulasi2D1.StartTwiceRestarts` | simulasi_2D_1.py:68-89 | a second start replaces the run with a new one that has made only the first draw's update |

## Left out

- The tkinter GUI: widgets, layout, message box texts (only an `Outcome` tag is kept),
  `exit_program`, `window.quit`, the canvas widget and its destruction, `plt.close`. Typing into
  the fields is the `Edit` method.
- matplotlib drawing: `ax.clear`, the plots, the axis limits (the min/max ± 1 box and the fixed
  ±10 box), and the parameter label.
- The `linear_speed`/`angular_speed` display values of `simulasi_2D_8.py`. They only feed the
  label; their values are `LinearVelocity` and `AngularVelocity`.
- `FuncAnimation` timer internals. The timer interval and redraws on resize are not modelled.
  `_start()` is the explicit `Launch` call and a tick is an explicit `Tick` call, capped at 100
  frames.
- `Kinematics.Step`: requires a non-zero body radius, as the pure step has no result to give for 0.
- File dialogs, file I/O and pickle bytes. The file is the abstract `SaveFile` record. A dismissed
  dialog is a parameter. Unpickling and I/O errors are not modelled.
- IEEE-754 rounding, numpy's `cos`/`sin`/`radians` and `float()`'s string parsing. The model uses
  `real` and arbitrary cosine and sine functions. A field is `Option<real>`, and `str`/`float` of a
  stored value is taken to round-trip exactly.
- In `simulasi_2D_1.py` the timer of an earlier run keeps going after `start` rebinds
  `anim_global`. The model tracks only the run that `anim_global` names.
