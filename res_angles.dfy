/** The joint-angle code of `res/angle_calculation.py`: `calculate_angle`
    with a fallback of 0.0 for a zero-length arm, and `get_angles`, which
    first collects the eight landmarks into `points`. */
module ResAngles {
  import opened Numerics
  import opened Geometry
  import opened Landmarks

  /** `calculate_angle(a, b, c)`: the angle at `b` between the arms to `a`
      and to `c`, in degrees, or 0.0 when either arm has norm zero. */
  function CalculateAngle(m: MathLib, a: Point, b: Point, c: Point): real {
    var ba := Sub(a, b);
    var bc := Sub(c, b);
    var normBa := Norm(m, ba);
    var normBc := Norm(m, bc);
    if normBa == 0.0 || normBc == 0.0 then
      0.0
    else
      ProductSign(normBa, normBc, normBa * normBc);
      m.arccosDegrees(Clip(Cosine(m, ba, bc), -1.0, 1.0))
  }

  /** The fallback is taken exactly when one of the outer points coincides
      with the vertex, and then the angle is 0.0. */
  lemma FallbackIffDegenerate(m: MathLib, a: Point, b: Point, c: Point)
    requires Sound(m)
    ensures Norm(m, Sub(a, b)) == 0.0 || Norm(m, Sub(c, b)) == 0.0 <==> a == b || c == b
    ensures a == b || c == b ==> CalculateAngle(m, a, b, c) == 0.0
  {
    NormProperties(m, Sub(a, b));
    NormProperties(m, Sub(c, b));
  }

  /** For two proper arms the result is the arc cosine of the exact cosine,
      which lies in [-1, 1], so the clip leaves it unchanged. */
  lemma ProperArms(m: MathLib, a: Point, b: Point, c: Point)
    requires Sound(m)
    requires a != b && c != b
    ensures Norm(m, Sub(a, b)) * Norm(m, Sub(c, b)) != 0.0
    ensures -1.0 <= Cosine(m, Sub(a, b), Sub(c, b)) <= 1.0
    ensures CalculateAngle(m, a, b, c) == m.arccosDegrees(Cosine(m, Sub(a, b), Sub(c, b)))
  {
    FallbackIffDegenerate(m, a, b, c);
    CosineInRange(m, Sub(a, b), Sub(c, b));
  }

  /** Every result, the fallback included, is an angle between 0 and 180
      degrees. */
  lemma InRange(m: MathLib, a: Point, b: Point, c: Point)
    requires Sound(m)
    ensures 0.0 <= CalculateAngle(m, a, b, c) <= 180.0
  {
    var ba, bc := Sub(a, b), Sub(c, b);
    if Norm(m, ba) != 0.0 && Norm(m, bc) != 0.0 {
      ProductSign(Norm(m, ba), Norm(m, bc), Norm(m, ba) * Norm(m, bc));
      ArccosRange(m, Clip(Cosine(m, ba, bc), -1.0, 1.0));
    }
  }

  /** The angle is 0 exactly on the fallback or when the two arms point the
      same way (cosine 1), and 180 exactly when they point opposite ways
      (cosine -1). */
  lemma ZeroAndStraight(m: MathLib, a: Point, b: Point, c: Point)
    requires Sound(m)
    ensures CalculateAngle(m, a, b, c) == 0.0 <==>
      a == b || c == b ||
      (Norm(m, Sub(a, b)) * Norm(m, Sub(c, b)) != 0.0 && Cosine(m, Sub(a, b), Sub(c, b)) == 1.0)
    ensures CalculateAngle(m, a, b, c) == 180.0 <==>
      Norm(m, Sub(a, b)) * Norm(m, Sub(c, b)) != 0.0 && Cosine(m, Sub(a, b), Sub(c, b)) == -1.0
  {
    FallbackIffDegenerate(m, a, b, c);
    NormProductSign(m, Sub(a, b), Sub(c, b));
    if a != b && c != b {
      ProperEnds(m, a, b, c);
    }
  }

  /** For two proper arms the angle is 0 exactly at cosine 1 and 180
      exactly at cosine -1. */
  lemma ProperEnds(m: MathLib, a: Point, b: Point, c: Point)
    requires Sound(m)
    requires a != b && c != b
    ensures Norm(m, Sub(a, b)) * Norm(m, Sub(c, b)) != 0.0
    ensures CalculateAngle(m, a, b, c) == 0.0 <==> Cosine(m, Sub(a, b), Sub(c, b)) == 1.0
    ensures CalculateAngle(m, a, b, c) == 180.0 <==> Cosine(m, Sub(a, b), Sub(c, b)) == -1.0
  {
    ProperArms(m, a, b, c);
    ArccosRange(m, Cosine(m, Sub(a, b), Sub(c, b)));
  }

  /** Swapping the two outer points does not change the angle, on the
      fallback as elsewhere. */
  lemma Symmetric(m: MathLib, a: Point, b: Point, c: Point)
    ensures CalculateAngle(m, a, b, c) == CalculateAngle(m, c, b, a)
  {
    var ba, bc := Sub(a, b), Sub(c, b);
    if Norm(m, ba) != 0.0 && Norm(m, bc) != 0.0 {
      ProductSign(Norm(m, ba), Norm(m, bc), Norm(m, ba) * Norm(m, bc));
      CosineSymmetric(m, ba, bc);
    }
  }

  /** The angle is measured at `b` from the arms `a - b` and `c - b` alone:
      moving all three points by the same vector leaves it unchanged. */
  lemma TranslationInvariant(m: MathLib, a: Point, b: Point, c: Point, t: Point)
    ensures CalculateAngle(m, Add(a, t), Add(b, t), Add(c, t)) == CalculateAngle(m, a, b, c)
  {
    SubOfTranslated(a, b, t);
    SubOfTranslated(c, b, t);
  }

  /** When the arm to `c` is a multiple k of the arm to `a`, the three
      points are collinear: the angle is 0 for k > 0 (both on the same side
      of `b`) and 180 for k < 0 (`b` between them). */
  lemma Collinear(m: MathLib, a: Point, b: Point, c: Point, k: real)
    requires Sound(m)
    requires a != b && k != 0.0 && Sub(c, b) == Scale(k, Sub(a, b))
    ensures 0.0 < k ==> CalculateAngle(m, a, b, c) == 0.0
    ensures k < 0.0 ==> CalculateAngle(m, a, b, c) == 180.0
  {
    ScaleNonZero(k, Sub(a, b));
    CosineOfScaled(m, Sub(a, b), k);
    ProperArms(m, a, b, c);
  }

  /** Perpendicular arms make a right angle. */
  lemma RightAngle(m: MathLib, a: Point, b: Point, c: Point)
    requires Sound(m)
    requires a != b && c != b && Dot(Sub(a, b), Sub(c, b)) == 0.0
    ensures CalculateAngle(m, a, b, c) == 90.0
  {
    CosineOfOrthogonal(m, Sub(a, b), Sub(c, b));
    ProperArms(m, a, b, c);
  }

  /** The `points` dictionary: every landmark read, in order, and mapped to
      its `[x, y]`; the first landmark the frame lacks stops it. */
  function Points(frame: Frame): (r: Result<map<Landmark, Point>>)
    ensures r.Ok? <==> Complete(frame)
    ensures r.Ok? ==> forall l: Landmark :: l in r.value && r.value[l] == PointOf(frame[l])
    ensures r.MissingLandmark? ==>
      r.which !in frame && forall l: Landmark :: ReadIndex(l) < ReadIndex(r.which) ==> l in frame
  {
    match FirstMissing(frame)
    case Some(l) => MissingLandmark(l)
    // The frame is complete here, so this ranges over all eight landmarks.
    case None => Ok(map l: Landmark | l in frame :: PointOf(frame[l]))
  }

  /** `get_angles(landmarks)`: the six joint angles under their keys, read
      from `points`. */
  function GetAngles(m: MathLib, frame: Frame): Result<map<string, real>> {
    match Points(frame)
    case MissingLandmark(l) => MissingLandmark(l)
    case Ok(points) =>
      Ok(map[
        "knee_l" := CalculateAngle(m, points[LeftHip], points[LeftKnee], points[LeftAnkle]),
        "knee_r" := CalculateAngle(m, points[RightHip], points[RightKnee], points[RightAnkle]),
        "ankle_l" := CalculateAngle(m, points[LeftKnee], points[LeftAnkle], points[LeftFootIndex]),
        "ankle_r" := CalculateAngle(m, points[RightKnee], points[RightAnkle], points[RightFootIndex]),
        "hip_l" := CalculateAngle(m, points[LeftKnee], points[LeftHip], VerticalReferenceOf(points[LeftHip])),
        "hip_r" := CalculateAngle(m, points[RightKnee], points[RightHip], VerticalReferenceOf(points[RightHip]))
      ])
  }

  /** The angle of joint `j` by its topology. */
  function JointAngle(m: MathLib, frame: Frame, j: Joint): real
    requires Complete(frame)
  {
    var (a, b, c) := Corner(frame, j);
    CalculateAngle(m, a, b, c)
  }

  /** `get_angles` succeeds exactly on a complete frame and otherwise fails
      where `points` does. */
  lemma GetAnglesFails(m: MathLib, frame: Frame)
    ensures GetAngles(m, frame).Ok? <==> Complete(frame)
    ensures GetAngles(m, frame).MissingLandmark? ==>
      var l := GetAngles(m, frame).which;
      l !in frame && forall l': Landmark :: ReadIndex(l') < ReadIndex(l) ==> l' in frame
  {
  }

  /** On a complete frame `get_angles` returns exactly the six joint keys. */
  lemma GetAnglesKeys(m: MathLib, frame: Frame)
    requires Complete(frame)
    ensures GetAngles(m, frame).Ok?
    ensures GetAngles(m, frame).value.Keys == JointKeys
  {
  }

  /** On a complete frame `get_angles` maps the key of every joint to the
      angle of that joint's topology. */
  lemma GetAnglesTable(m: MathLib, frame: Frame)
    requires Complete(frame)
    ensures GetAngles(m, frame).Ok?
    ensures forall j: Joint ::
      Key(j) in GetAngles(m, frame).value && GetAngles(m, frame).value[Key(j)] == JointAngle(m, frame, j)
  {
    forall j: Joint ensures Key(j) in GetAngles(m, frame).value && GetAngles(m, frame).value[Key(j)] == JointAngle(m, frame, j) {
      match j
      case KneeL =>
      case KneeR =>
      case AnkleL =>
      case AnkleR =>
      case HipL =>
      case HipR =>
    }
  }

  /** A hip angle, at hip `h` towards knee `k`, takes the fallback exactly
      when the knee lies on the hip, and is 0 exactly when the knee lies on
      the hip or straight above it in the image. */
  lemma HipAngleZero(m: MathLib, k: Point, h: Point)
    requires Sound(m)
    ensures Norm(m, Sub(k, h)) == 0.0 || Norm(m, Sub(VerticalReferenceOf(h), h)) == 0.0 <==> k == h
    ensures CalculateAngle(m, k, h, VerticalReferenceOf(h)) == 0.0 <==> k.x == h.x && k.y <= h.y
  {
    FallbackIffDegenerate(m, k, h, VerticalReferenceOf(h));
    if k != h {
      CosineAgainstVerticalReference(m, k, h);
      ProperEnds(m, k, h, VerticalReferenceOf(h));
    }
  }

  /** A hip angle is 180 exactly when the knee lies straight below the hip
      in the image. */
  lemma HipAngleStraight(m: MathLib, k: Point, h: Point)
    requires Sound(m)
    ensures CalculateAngle(m, k, h, VerticalReferenceOf(h)) == 180.0 <==> k.x == h.x && h.y < k.y
  {
    if k == h {
      FallbackIffDegenerate(m, k, h, VerticalReferenceOf(h));
    } else {
      CosineAgainstVerticalReference(m, k, h);
      ProperEnds(m, k, h, VerticalReferenceOf(h));
    }
  }

  /** In a complete frame, hip_X is 0.0 exactly when knee_X lies on hip_X or
      straight above it: a fallback is not the only way to read 0.0. */
  lemma HipZeroIffKneeAboveOrOnHip(m: MathLib, frame: Frame)
    requires Sound(m)
    requires Complete(frame)
    ensures GetAngles(m, frame).Ok?
    ensures GetAngles(m, frame).value["hip_l"] == 0.0 <==>
      frame[LeftKnee].x == frame[LeftHip].x && frame[LeftKnee].y <= frame[LeftHip].y
    ensures GetAngles(m, frame).value["hip_r"] == 0.0 <==>
      frame[RightKnee].x == frame[RightHip].x && frame[RightKnee].y <= frame[RightHip].y
  {
    VerticalJointZero(m, frame, HipL);
    VerticalJointZero(m, frame, HipR);
  }

  /** The same for any joint measured against the vertical reference: its
      angle is 0.0 exactly when its first landmark lies on its vertex or
      straight above it. */
  lemma VerticalJointZero(m: MathLib, frame: Frame, j: Joint)
    requires Sound(m)
    requires Complete(frame)
    requires Topology(j).second == VerticalReference
    ensures GetAngles(m, frame).Ok?
    ensures var t := Topology(j);
      GetAngles(m, frame).value[Key(j)] == 0.0 <==>
        frame[t.first].x == frame[t.vertex].x && frame[t.first].y <= frame[t.vertex].y
  {
    GetAnglesTable(m, frame);
    var t := Topology(j);
    HipAngleZero(m, PointOf(frame[t.first]), PointOf(frame[t.vertex]));
  }

  /** A knee straight above its hip, at any distance d > 0, reads 0.0 like
      a knee on the hip: hip_X == 0.0 does not imply that knee_X coincides
      with hip_X. */
  lemma HipZeroWithKneeAboveHip(m: MathLib, h: Point, d: real)
    requires Sound(m)
    requires 0.0 < d
    ensures Point(h.x, h.y - d) != h
    ensures CalculateAngle(m, Point(h.x, h.y - d), h, VerticalReferenceOf(h)) == 0.0
  {
    HipAngleZero(m, Point(h.x, h.y - d), h);
  }
}
