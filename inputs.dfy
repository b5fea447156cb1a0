/** The eight entry fields, their conversion with `float()`, and the two ways the variants choose
    the pose a run starts from. */
module Inputs {
  import opened Common
  import opened Kinematics

  /** The contents of the eight entry widgets, or the eight values of `saved_values`. `None` is text
      that `float()` rejects: an empty field, `"None"`, anything non-numeric. `str` of a float reads
      back as the same float, so filling a field from a stored value and reading it again gives
      that value back. */
  datatype Entries = Entries(leftSpeed: Option<real>, leftRadius: Option<real>,
                             rightSpeed: Option<real>, rightRadius: Option<real>,
                             bodyRadius: Option<real>,
                             initialX: Option<real>, initialY: Option<real>,
                             initialOrientation: Option<real>)

  /** Every field emptied (`entry.delete(0, tk.END)`), or every saved value `None`. */
  const Cleared: Entries := Entries(None, None, None, None, None, None, None, None)

  /** What a successful `start` hands to `differential_drive_simulation`. */
  datatype Setup = Setup(drive: Drive, origin: Pose)

  /** `float()` of the five drive fields; fails when any of them is not a number. */
  function ParseDrive(e: Entries): Option<Drive>
  {
    match (e.leftSpeed, e.leftRadius, e.rightSpeed, e.rightRadius, e.bodyRadius)
    case (Some(ls), Some(lr), Some(rs), Some(rr), Some(br)) => Some(Drive(ls, lr, rs, rr, br))
    case _ => None
  }

  /** `float()` of the initial x, y and orientation fields, the orientation turned into radians as
      `differential_drive_simulation` does first. */
  function ParseOrigin(e: Entries): Option<Pose>
  {
    match (e.initialX, e.initialY, e.initialOrientation)
    case (Some(x), Some(y), Some(deg)) => Some(Pose(x, y, Radians(deg)))
    case _ => None
  }

  /** `float()` of all eight fields, as the variants without a retained pose in `start` do. */
  function ParseAll(e: Entries): Option<Setup>
  {
    match (ParseDrive(e), ParseOrigin(e))
    case (Some(d), Some(p)) => Some(Setup(d, p))
    case _ => None
  }

  /** True when both halves of the retained pose are set. */
  predicate HasRetained(lastPosition: Option<(real, real)>, lastOrientation: Option<real>)
  {
    lastPosition.Some? && lastOrientation.Some?
  }

  /** The start pose `start_simulation` picks in the variants that consult the retained pose there:
      with both halves set it is the retained pose and the x, y and orientation fields are not read;
      otherwise those fields are parsed. */
  function ChooseOrigin(e: Entries, lastPosition: Option<(real, real)>, lastOrientation: Option<real>)
    : Option<Pose>
  {
    match (lastPosition, lastOrientation)
    case (Some(pos), Some(deg)) => Some(Pose(pos.0, pos.1, Radians(deg)))
    case _ => ParseOrigin(e)
  }

  /** The override inside `differential_drive_simulation` of the variants that have one: a retained
      pose with both halves set replaces the pose passed in. */
  function BuildOrigin(given: Pose, lastPosition: Option<(real, real)>, lastOrientation: Option<real>)
    : Pose
  {
    match (lastPosition, lastOrientation)
    case (Some(pos), Some(deg)) => Pose(pos.0, pos.1, Radians(deg))
    case _ => given
  }

  /** Overriding a pose that was itself chosen from the same retained pose changes nothing: the
      second look at the retained pose in `differential_drive_simulation` is redundant whenever
      `start_simulation` already took it. */
  lemma BuildAfterChooseIsChoose(e: Entries, lastPosition: Option<(real, real)>,
                                 lastOrientation: Option<real>)
    requires ChooseOrigin(e, lastPosition, lastOrientation).Some?
    ensures BuildOrigin(ChooseOrigin(e, lastPosition, lastOrientation).value, lastPosition,
                        lastOrientation) == ChooseOrigin(e, lastPosition, lastOrientation).value
  {
  }

  /** With both halves of the retained pose set, `start` does not read the x, y and orientation
      fields: any two field contents that differ there (or anywhere) give the same start pose,
      which always parses. */
  lemma RetainedPoseIgnoresFields(e1: Entries, e2: Entries, lastPosition: Option<(real, real)>,
                                  lastOrientation: Option<real>)
    requires HasRetained(lastPosition, lastOrientation)
    ensures ChooseOrigin(e1, lastPosition, lastOrientation).Some?
    ensures ChooseOrigin(e1, lastPosition, lastOrientation)
         == ChooseOrigin(e2, lastPosition, lastOrientation)
  {
  }
}
