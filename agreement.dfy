/** How the two versions of the angle code relate: `res/angle_calculation.py`
    computes the same angles as `angle_calculation.py` wherever the latter
    yields a number, and replaces its NaN by 0.0. */
module Agreement {
  import opened Numerics
  import opened Geometry
  import opened Landmarks
  import RootAngles
  import ResAngles

  /** The two `calculate_angle`s agree on proper arms; where an arm has
      length zero the first yields NaN and the second its fallback 0.0. */
  lemma CalculateAngleAgrees(m: MathLib, a: Point, b: Point, c: Point)
    requires Sound(m)
    ensures a != b && c != b ==>
      RootAngles.CalculateAngle(m, a, b, c) == Finite(ResAngles.CalculateAngle(m, a, b, c))
    ensures a == b || c == b ==>
      RootAngles.CalculateAngle(m, a, b, c) == NaN && ResAngles.CalculateAngle(m, a, b, c) == 0.0
  {
    RootAngles.NaNIffDegenerate(m, a, b, c);
    if a != b && c != b {
      RootAngles.ProperArms(m, a, b, c);
      ResAngles.ProperArms(m, a, b, c);
    } else {
      ResAngles.FallbackIffDegenerate(m, a, b, c);
    }
  }

  /** One of the outer points of joint `j` lies on its vertex. */
  ghost predicate DegenerateJoint(frame: Frame, j: Joint)
    requires Complete(frame)
  {
    var (a, b, c) := Corner(frame, j);
    a == b || c == b
  }

  /** The two `get_angles`s fail on the same frames, at the same landmark. */
  lemma GetAnglesFailAlike(m: MathLib, frame: Frame)
    ensures RootAngles.GetAngles(m, frame).Ok? <==> ResAngles.GetAngles(m, frame).Ok?
    ensures RootAngles.GetAngles(m, frame).MissingLandmark? ==>
      ResAngles.GetAngles(m, frame).MissingLandmark? &&
      ResAngles.GetAngles(m, frame).which == RootAngles.GetAngles(m, frame).which
  {
    RootAngles.GetAnglesFails(m, frame);
    ResAngles.GetAnglesFails(m, frame);
  }

  /** On a complete frame the two `get_angles`s return dictionaries with the
      same keys and, at every joint `j`, the same angle, except that a joint
      with an arm of length zero reads NaN in the first and 0.0 in the
      second. */
  lemma GetAnglesAgree(m: MathLib, frame: Frame, j: Joint)
    requires Sound(m)
    requires Complete(frame)
    ensures RootAngles.GetAngles(m, frame).Ok? && ResAngles.GetAngles(m, frame).Ok?
    ensures RootAngles.GetAngles(m, frame).value.Keys == ResAngles.GetAngles(m, frame).value.Keys
    ensures Key(j) in RootAngles.GetAngles(m, frame).value && Key(j) in ResAngles.GetAngles(m, frame).value
    ensures !DegenerateJoint(frame, j) ==>
      RootAngles.GetAngles(m, frame).value[Key(j)] == Finite(ResAngles.GetAngles(m, frame).value[Key(j)])
    ensures DegenerateJoint(frame, j) ==>
      RootAngles.GetAngles(m, frame).value[Key(j)] == NaN && ResAngles.GetAngles(m, frame).value[Key(j)] == 0.0
  {
    RootAngles.GetAnglesKeys(m, frame);
    ResAngles.GetAnglesKeys(m, frame);
    RootAngles.GetAnglesTable(m, frame);
    ResAngles.GetAnglesTable(m, frame);
    var (a, b, c) := Corner(frame, j);
    CalculateAngleAgrees(m, a, b, c);
  }
}
