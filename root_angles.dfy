/** The joint-angle code of `angle_calculation.py`: `calculate_angle`
    without a guard against zero-length arms, and `get_angles` over one
    landmark frame. */
module RootAngles {
  import opened Numerics
  import opened Geometry
  import opened Landmarks

  /** `calculate_angle(a, b, c)`: the angle at `b` between the arms to `a`
      and to `c`, in degrees.  The cosine is the dot product over the product
      of the norms, clipped to [-1, 1].  When that product is zero numpy
      divides as IEEE floats do: 0 / 0 is NaN, which clip, arccos and degrees
      pass on, and a non-zero numerator over 0 is an infinity that the clip
      turns into 1 or -1. */
  function CalculateAngle(m: MathLib, a: Point, b: Point, c: Point): Float {
    var ba := Sub(a, b);
    var bc := Sub(c, b);
    if Norm(m, ba) * Norm(m, bc) != 0.0 then
      Finite(m.arccosDegrees(Clip(Cosine(m, ba, bc), -1.0, 1.0)))
    else if Dot(ba, bc) == 0.0 then
      NaN
    else if 0.0 < Dot(ba, bc) then
      Finite(m.arccosDegrees(1.0))
    else
      Finite(m.arccosDegrees(-1.0))
  }

  /** The angle is NaN exactly when one of the outer points coincides with
      the vertex: one arm then has length zero and the cosine is 0 / 0. */
  lemma NaNIffDegenerate(m: MathLib, a: Point, b: Point, c: Point)
    requires Sound(m)
    ensures CalculateAngle(m, a, b, c) == NaN <==> a == b || c == b
  {
    if a == b || c == b {
      Degenerate(m, a, b, c);
      ZeroOverZero(m, a, b, c);
    } else {
      ProperArms(m, a, b, c);
    }
  }

  // A proof step, kept apart from `Sound(m)` so that the solver reads the
  // 0 / 0 branch of `CalculateAngle` without the square-root laws in scope.
  lemma ZeroOverZero(m: MathLib, a: Point, b: Point, c: Point)
    requires Norm(m, Sub(a, b)) * Norm(m, Sub(c, b)) == 0.0
    requires Dot(Sub(a, b), Sub(c, b)) == 0.0
    ensures CalculateAngle(m, a, b, c) == NaN
  {
  }

  /** With an arm of length zero, both the norm product and the dot product
      vanish. */
  lemma Degenerate(m: MathLib, a: Point, b: Point, c: Point)
    requires Sound(m)
    requires a == b || c == b
    ensures Norm(m, Sub(a, b)) * Norm(m, Sub(c, b)) == 0.0
    ensures Dot(Sub(a, b), Sub(c, b)) == 0.0
  {
    NormProductSign(m, Sub(a, b), Sub(c, b));
    DotWithOrigin(Sub(a, b));
    DotWithOrigin(Sub(c, b));
  }

  /** For two proper arms the result is a finite angle, and since the exact
      cosine already lies in [-1, 1] the clip leaves it unchanged. */
  lemma ProperArms(m: MathLib, a: Point, b: Point, c: Point)
    requires Sound(m)
    requires a != b && c != b
    ensures Norm(m, Sub(a, b)) * Norm(m, Sub(c, b)) != 0.0
    ensures -1.0 <= Cosine(m, Sub(a, b), Sub(c, b)) <= 1.0
    ensures CalculateAngle(m, a, b, c) == Finite(m.arccosDegrees(Cosine(m, Sub(a, b), Sub(c, b))))
  {
    CosineInRange(m, Sub(a, b), Sub(c, b));
  }

  /** Every finite result is an angle between 0 and 180 degrees. */
  lemma InRange(m: MathLib, a: Point, b: Point, c: Point)
    requires Sound(m)
    ensures CalculateAngle(m, a, b, c).Finite? ==> 0.0 <= CalculateAngle(m, a, b, c).value <= 180.0
  {
    var ba, bc := Sub(a, b), Sub(c, b);
    if Norm(m, ba) * Norm(m, bc) != 0.0 {
      ArccosRange(m, Clip(Cosine(m, ba, bc), -1.0, 1.0));
    }
  }

  /** Swapping the two outer points does not change the angle. */
  lemma Symmetric(m: MathLib, a: Point, b: Point, c: Point)
    ensures CalculateAngle(m, a, b, c) == CalculateAngle(m, c, b, a)
  {
    var ba, bc := Sub(a, b), Sub(c, b);
    DotSymmetric(ba, bc);
    if Norm(m, ba) * Norm(m, bc) != 0.0 {
      CosineSymmetric(m, ba, bc);
    }
  }

  /** The angle is measured at `b` from the arms `a - b` and `c - b` alone:
      moving all three points by the same vector leaves it unchanged. */
  lemma TranslationInvariant(m: MathLib, a: Point, b: Point, c: Point, t: Point)
    ensures CalculateAngle(m, Add(a, t), Add(b, t), Add(c, t)) == CalculateAngle(m, a, b, c)
  {
    SubOfTranslated(a, b, t);
    SubOfTranslated(c, b, t);
  }

  /** `get_angles(landmarks, mp_pose)`: reads the eight landmarks in order,
      failing at the first one the frame lacks, and reports the six joint
      angles under their keys. */
  function GetAngles(m: MathLib, frame: Frame): Result<map<string, Float>> {
    match FirstMissing(frame)
    case Some(l) => MissingLandmark(l)
    case None =>
      var hipL := PointOf(frame[LeftHip]);
      var kneeL := PointOf(frame[LeftKnee]);
      var ankleL := PointOf(frame[LeftAnkle]);
      var footL := PointOf(frame[LeftFootIndex]);
      var hipR := PointOf(frame[RightHip]);
      var kneeR := PointOf(frame[RightKnee]);
      var ankleR := PointOf(frame[RightAnkle]);
      var footR := PointOf(frame[RightFootIndex]);
      Ok(map[
        "knee_l" := CalculateAngle(m, hipL, kneeL, ankleL),
        "knee_r" := CalculateAngle(m, hipR, kneeR, ankleR),
        "ankle_l" := CalculateAngle(m, kneeL, ankleL, footL),
        "ankle_r" := CalculateAngle(m, kneeR, ankleR, footR),
        "hip_l" := CalculateAngle(m, kneeL, hipL, VerticalReferenceOf(hipL)),
        "hip_r" := CalculateAngle(m, kneeR, hipR, VerticalReferenceOf(hipR))
      ])
  }

  /** The angle of joint `j` by its topology. */
  function JointAngle(m: MathLib, frame: Frame, j: Joint): Float
    requires Complete(frame)
  {
    var (a, b, c) := Corner(frame, j);
    CalculateAngle(m, a, b, c)
  }

  /** `get_angles` succeeds exactly on a complete frame; otherwise it fails
      at a landmark the frame lacks, every landmark read before it being
      present. */
  lemma GetAnglesFails(m: MathLib, frame: Frame)
    ensures GetAngles(m, frame).Ok? <==> Complete(frame)
    ensures GetAngles(m, frame).MissingLandmark? ==>
      var l := GetAngles(m, frame).which;
      l !in frame && forall l': Landmark :: ReadIndex(l') < ReadIndex(l) ==> l' in frame
  {
  }

  /** On a complete frame `get_angles` returns exactly the six joint keys. */
  lemma GetAnglesKeys(m: MathLib, frame: Frame)
    requires Complete(frame)
    ensures GetAngles(m, frame).Ok?
    ensures GetAngles(m, frame).value.Keys == JointKeys
  {
  }

  /** On a complete frame `get_angles` maps the key of every joint to the
      angle of that joint's topology. */
  lemma GetAnglesTable(m: MathLib, frame: Frame)
    requires Complete(frame)
    ensures GetAngles(m, frame).Ok?
    ensures forall j: Joint ::
      Key(j) in GetAngles(m, frame).value && GetAngles(m, frame).value[Key(j)] == JointAngle(m, frame, j)
  {
    forall j: Joint ensures Key(j) in GetAngles(m, frame).value && GetAngles(m, frame).value[Key(j)] == JointAngle(m, frame, j) {
      match j
      case KneeL =>
      case KneeR =>
      case AnkleL =>
      case AnkleR =>
      case HipL =>
      case HipR =>
    }
  }

  /** A hip angle is NaN exactly when the knee lies on the hip: the
      reference arm never has length zero. */
  lemma HipNaNIffKneeOnHip(m: MathLib, frame: Frame)
    requires Sound(m)
    requires Complete(frame)
    ensures GetAngles(m, frame).Ok?
    ensures GetAngles(m, frame).value["hip_l"] == NaN <==>
      PointOf(frame[LeftKnee]) == PointOf(frame[LeftHip])
    ensures GetAngles(m, frame).value["hip_r"] == NaN <==>
      PointOf(frame[RightKnee]) == PointOf(frame[RightHip])
  {
    VerticalJointNaN(m, frame, HipL);
    VerticalJointNaN(m, frame, HipR);
  }

  /** The same for any joint measured against the vertical reference: its
      angle is NaN exactly when its first landmark lies on its vertex. */
  lemma VerticalJointNaN(m: MathLib, frame: Frame, j: Joint)
    requires Sound(m)
    requires Complete(frame)
    requires Topology(j).second == VerticalReference
    ensures GetAngles(m, frame).Ok?
    ensures var t := Topology(j);
      GetAngles(m, frame).value[Key(j)] == NaN <==> PointOf(frame[t.first]) == PointOf(frame[t.vertex])
  {
    GetAnglesTable(m, frame);
    var t := Topology(j);
    var h := PointOf(frame[t.vertex]);
    NaNIffDegenerate(m, PointOf(frame[t.first]), h, VerticalReferenceOf(h));
  }
}
