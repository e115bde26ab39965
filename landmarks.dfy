/** The pose landmarks the angle code reads, the frame they come in, and the
    table of which landmarks make up each joint angle.  Both versions of
    `get_angles` share this module. */
module Landmarks {
  import opened Numerics
  import opened Geometry

  /** The eight MediaPipe pose landmarks the angle code reads. */
  datatype Landmark =
    | LeftHip | LeftKnee | LeftAnkle | LeftFootIndex
    | RightHip | RightKnee | RightAnkle | RightFootIndex

  /** The place of a landmark in the order `get_angles` reads them: the left
      hip, knee, ankle and foot index, then the same four on the right. */
  function ReadIndex(l: Landmark): nat {
    match l
    case LeftHip => 0
    case LeftKnee => 1
    case LeftAnkle => 2
    case LeftFootIndex => 3
    case RightHip => 4
    case RightKnee => 5
    case RightAnkle => 6
    case RightFootIndex => 7
  }

  /** One detected landmark in normalized image coordinates: x grows to the
      right and y grows downwards.  The angle code reads only x and y. */
  datatype NormalizedLandmark = NormalizedLandmark(x: real, y: real, z: real, visibility: real)

  /** One frame of `pose_landmarks.landmark`, keyed by landmark.  A landmark
      absent from the map is one the list is too short to hold. */
  type Frame = map<Landmark, NormalizedLandmark>

  /** The outcome of reading the frame: a value, or the first landmark whose
      lookup raised `IndexError`. */
  datatype Result<T> = Ok(value: T) | MissingLandmark(which: Landmark)

  datatype Option<T> = None | Some(value: T)

  /** Every landmark the angle code reads is in the frame. */
  ghost predicate Complete(frame: Frame) {
    forall l: Landmark :: l in frame
  }

  /** The first landmark, in reading order, missing from the frame, if
      any: the lookup that raises `IndexError`.  There is none exactly when
      the frame is complete; otherwise every landmark read before it is
      present. */
  function FirstMissing(frame: Frame): (r: Option<Landmark>)
    ensures r.None? <==> Complete(frame)
    ensures r.Some? ==>
      r.value !in frame && forall l: Landmark :: ReadIndex(l) < ReadIndex(r.value) ==> l in frame
  {
    if LeftHip !in frame then Some(LeftHip)
    else if LeftKnee !in frame then Some(LeftKnee)
    else if LeftAnkle !in frame then Some(LeftAnkle)
    else if LeftFootIndex !in frame then Some(LeftFootIndex)
    else if RightHip !in frame then Some(RightHip)
    else if RightKnee !in frame then Some(RightKnee)
    else if RightAnkle !in frame then Some(RightAnkle)
    else if RightFootIndex !in frame then Some(RightFootIndex)
    else
      EveryLandmarkRead(frame);
      None
  }

  /** A frame holding the eight landmarks `get_angles` reads is complete. */
  lemma EveryLandmarkRead(frame: Frame)
    requires LeftHip in frame && LeftKnee in frame && LeftAnkle in frame && LeftFootIndex in frame
    requires RightHip in frame && RightKnee in frame && RightAnkle in frame && RightFootIndex in frame
    ensures Complete(frame)
  {
    forall l: Landmark ensures l in frame {
      match l
      case LeftHip =>
      case LeftKnee =>
      case LeftAnkle =>
      case LeftFootIndex =>
      case RightHip =>
      case RightKnee =>
      case RightAnkle =>
      case RightFootIndex =>
    }
  }

  /** The `[p.x, p.y]` pair of a landmark, as a plane point. */
  function PointOf(lm: NormalizedLandmark): Point {
    Point(lm.x, lm.y)
  }

  /** The six joint angles `get_angles` reports. */
  datatype Joint = KneeL | KneeR | AnkleL | AnkleR | HipL | HipR

  /** The dictionary key under which `get_angles` reports a joint. */
  function Key(j: Joint): string {
    match j
    case KneeL => "knee_l"
    case KneeR => "knee_r"
    case AnkleL => "ankle_l"
    case AnkleR => "ankle_r"
    case HipL => "hip_l"
    case HipR => "hip_r"
  }

  /** The keys of the dictionary `get_angles` returns. */
  const JointKeys: set<string> := {"knee_l", "knee_r", "ankle_l", "ankle_r", "hip_l", "hip_r"}

  /** Each joint has its own key, and the keys are exactly `JointKeys`. */
  lemma KeysEnumerateJoints()
    ensures forall j1: Joint, j2: Joint :: Key(j1) == Key(j2) ==> j1 == j2
    ensures forall j: Joint :: Key(j) in JointKeys
    ensures forall k :: k in JointKeys ==> exists j: Joint :: Key(j) == k
  {
    forall k | k in JointKeys ensures exists j: Joint :: Key(j) == k {
      if k == "knee_l" { assert Key(KneeL) == k; }
      else if k == "knee_r" { assert Key(KneeR) == k; }
      else if k == "ankle_l" { assert Key(AnkleL) == k; }
      else if k == "ankle_r" { assert Key(AnkleR) == k; }
      else if k == "hip_l" { assert Key(HipL) == k; }
      else { assert Key(HipR) == k; }
    }
  }

  /** The far end of a joint's second arm: another landmark, or the point a
      fixed distance straight above the vertex in the image. */
  datatype Arm = Towards(landmark: Landmark) | VerticalReference

  /** The three points of a joint angle: it is measured at `vertex` between
      the arm to `first` and the arm to `second`. */
  datatype Triple = Triple(first: Landmark, vertex: Landmark, second: Arm)

  /** The joint topology: the knee angle is hip-knee-ankle, the ankle angle
      knee-ankle-foot index, and the hip angle knee-hip-vertical reference,
      on each side. */
  function Topology(j: Joint): Triple {
    match j
    case KneeL => Triple(LeftHip, LeftKnee, Towards(LeftAnkle))
    case KneeR => Triple(RightHip, RightKnee, Towards(RightAnkle))
    case AnkleL => Triple(LeftKnee, LeftAnkle, Towards(LeftFootIndex))
    case AnkleR => Triple(RightKnee, RightAnkle, Towards(RightFootIndex))
    case HipL => Triple(LeftKnee, LeftHip, VerticalReference)
    case HipR => Triple(RightKnee, RightHip, VerticalReference)
  }

  /** How far above the hip, in normalized image units, the reference point
      of the hip angle lies. */
  const HipReferenceOffset: real := 0.1

  /** The reference point `[hip[0], hip[1] - 0.1]` of the hip angle.  It
      never coincides with the vertex: it lies straight above it in the
      image, at distance `HipReferenceOffset`. */
  function VerticalReferenceOf(vertex: Point): (r: Point)
    ensures r != vertex
    ensures Sub(r, vertex).x == 0.0 && Sub(r, vertex).y == -HipReferenceOffset
  {
    Point(vertex.x, vertex.y - HipReferenceOffset)
  }

  /** The arm from a vertex `h` to its vertical reference has length
      `HipReferenceOffset`.  Against it, the arm to a point `k` elsewhere
      has cosine 1 exactly when `k` lies straight above `h` in the image and
      -1 exactly when it lies straight below. */
  lemma CosineAgainstVerticalReference(m: MathLib, k: Point, h: Point)
    requires Sound(m)
    requires k != h
    ensures Norm(m, Sub(VerticalReferenceOf(h), h)) == HipReferenceOffset
    ensures Norm(m, Sub(k, h)) * Norm(m, Sub(VerticalReferenceOf(h), h)) != 0.0
    ensures Cosine(m, Sub(k, h), Sub(VerticalReferenceOf(h), h)) == 1.0 <==> k.x == h.x && k.y < h.y
    ensures Cosine(m, Sub(k, h), Sub(VerticalReferenceOf(h), h)) == -1.0 <==> k.x == h.x && h.y < k.y
  {
    var u, v := Sub(k, h), Sub(VerticalReferenceOf(h), h);
    ProductSign(v.x, v.x, v.x * v.x);
    SquareOfKnown(v.y, -HipReferenceOffset, v.y * v.y);
    SqrtOfSquare(m, HipReferenceOffset);
    NormProperties(m, u);
    NormProductSign(m, u, v);
    CosineAgainstVertical(u.x, u.y, Norm(m, u), HipReferenceOffset, Dot(u, v), Norm(m, u) * Norm(m, v), Cosine(m, u, v));
  }

  /** The three points of joint `j` in a complete frame: first end, vertex,
      second end. */
  function Corner(frame: Frame, j: Joint): (Point, Point, Point)
    requires Complete(frame)
  {
    var t := Topology(j);
    var b := PointOf(frame[t.vertex]);
    var c := match t.second
      case Towards(l) => PointOf(frame[l])
      case VerticalReference => VerticalReferenceOf(b);
    (PointOf(frame[t.first]), b, c)
  }
}
