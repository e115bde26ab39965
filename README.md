# Joint angles from pose landmarks

This project models the joint-angle geometry of the pose-tracking application
and proves properties of it. The application takes one frame of MediaPipe pose
landmarks and reports six joint angles in degrees:

- the knee angle, hip–knee–ankle, on each side;
- the ankle angle, knee–ankle–foot index, on each side;
- the hip angle, measured at the hip between the knee and a reference point
  0.1 above the hip in the image, on each side.

The repository has two versions of this code, and both are modelled:

- `angle_calculation.py` (module `RootAngles`): `calculate_angle` has no guard
  against an arm of length zero.
- `res/angle_calculation.py` (module `ResAngles`): `calculate_angle` returns
  0.0 when either arm has norm zero. Its `get_angles` first collects the eight
  landmarks into a `points` dictionary.

Shared parts live in three modules:

- `Numerics`: the square root and arc-cosine parameter, and facts about reals.
- `Geometry`: points, `np.subtract`, `np.dot`, `np.linalg.norm`, the cosine
  and `np.clip`.
- `Landmarks`: the eight landmarks, a frame, the reading order, the joint
  topology and the hip reference point.

A fourth module, `Agreement`, relates the two versions.

Modelling decisions:

- Arithmetic is exact real arithmetic.
- The square root inside `np.linalg.norm` and `np.degrees(np.arccos(x))`
  cannot be written out over the reals. They are therefore a parameter
  `m: MathLib`. Lemmas that depend on what they compute assume `Sound(m)`:
  - the root is non-negative and squares back to its argument;
  - the arc cosine in degrees is strictly decreasing on [-1, 1], with the
    values 0, 90 and 180 at 1, 0 and -1.
- The unguarded version divides as numpy does: 0 / 0 is NaN, and a non-zero
  number over 0 is an infinity that the clip turns into ±1. Its results are
  therefore a `Float`, which is `Finite(r)` or `NaN`.
- A frame is a map from landmark to detected landmark. Indexing a landmark list
  that is too short raises `IndexError`. Both `get_angles` model that as the
  result `MissingLandmark(l)`, where `l` is the first landmark in reading
  order that the frame lacks.

## Model

| member | source | states |
|---|---|---|
| Geometry.Dot | angle_calculation.py:11 | `np.dot` of two 2-vectors; no contract of its own, characterised by `Geometry.CauchySchwarz` and `Geometry.CosineSymmetric` |
| Geometry.Norm | res/angle_calculation.py:7-8 | `np.linalg.norm`, the root of the squared length; no contract of its own, characterised by `Geometry.NormProperties` |
| Geometry.Cosine | angle_calculation.py:11 | the quotient `dot(ba, bc) / (norm(ba) * norm(bc))`, defined where the denominator is non-zero; no contract of its own, characterised by `Geometry.CosineInRange`, `Geometry.CosineOfScaled` and `Geometry.CosineOfOrthogonal` |
| Landmarks.PointOf | res/angle_calculation.py:17-18 | the inner `point` helper, `[p.x, p.y]`; no contract of its own, used by both `get_angles` |
| RootAngles.CalculateAngle | angle_calculation.py:4-13 | `calculate_angle` without a guard; no contract of its own, characterised by `RootAngles.NaNIffDegenerate`, `RootAngles.ProperArms`, `RootAngles.InRange` and `RootAngles.Symmetric` |
| RootAngles.GetAngles | angle_calculation.py:16-36 | `get_angles`; no contract of its own, characterised by `RootAngles.GetAnglesFails`, `RootAngles.GetAnglesKeys` and `RootAngles.GetAnglesTable` |
| ResAngles.CalculateAngle | res/angle_calculation.py:4-14 | `calculate_angle` with the zero-norm fallback; no contract of its own, characterised by `ResAngles.FallbackIffDegenerate`, `ResAngles.ProperArms`, `ResAngles.InRange` and `ResAngles.Symmetric` |
| ResAngles.GetAngles | res/angle_calculation.py:16-33 | `get_angles`; no contract of its own, characterised by `ResAngles.GetAnglesFails`, `ResAngles.GetAnglesKeys` and `ResAngles.GetAnglesTable` |
| Geometry.Sub | angle_calculation.py:9-10 | the arm `a - b` added back to `b` gives `a`, and it is the zero vector exactly when `a == b` |
| Geometry.Clip | angle_calculation.py:12 | `np.clip(v, -1, 1)` lies in [-1, 1], is `v` itself inside the range and the bound it overshoots outside |
| Geometry.NormProperties | res/angle_calculation.py:7-8 | `np.linalg.norm(v)` is non-negative, squares to the squared length and is zero exactly for the zero vector |
| Geometry.NormProductSign | angle_calculation.py:11 | the denominator `norm(ba) * norm(bc)` is zero exactly when an arm is the zero vector, and positive otherwise |
| Geometry.CosineSymmetric | angle_calculation.py:11 | the cosine does not depend on the order of the two arms |
| Geometry.CauchySchwarz | angle_calculation.py:11 | the dot product lies between minus and plus the product of the norms |
| Geometry.CosineInRange | angle_calculation.py:11-12 | the exact cosine of two non-zero arms already lies in [-1, 1], so the clip only absorbs rounding |
| Geometry.CosineOfScaled | angle_calculation.py:11 | an arm and a positive multiple of it have cosine 1, and an arm and a negative multiple have cosine -1 |
| Geometry.CosineOfOrthogonal | angle_calculation.py:11 | orthogonal non-zero arms have cosine 0 |
| Numerics.CauchySchwarzPlane | angle_calculation.py:11-12 | the plane Cauchy-Schwarz bound on coordinates, by Lagrange's identity |
| Numerics.ArccosRange | angle_calculation.py:12-13 | `degrees(arccos(x))` of x in [-1, 1] lies in [0, 180] and is 0 only at 1 and 180 only at -1 |
| Landmarks.FirstMissing | angle_calculation.py:17-25 | no landmark is missing exactly when the frame is complete; otherwise the reported landmark is absent and every landmark read before it is present |
| Landmarks.KeysEnumerateJoints | angle_calculation.py:27-34 | the six keys `knee_l` … `hip_r` are distinct and are exactly the keys of the six joints |
| Landmarks.VerticalReferenceOf | angle_calculation.py:32-33 | the reference point `[hip[0], hip[1] - 0.1]` never coincides with the hip and lies straight above it at distance 0.1 |
| Landmarks.CosineAgainstVerticalReference | angle_calculation.py:32-33 | the reference arm has length 0.1; against it the arm to a knee elsewhere has cosine 1 exactly when the knee is straight above the hip and -1 exactly when it is straight below |
| RootAngles.NaNIffDegenerate | angle_calculation.py:9-13 | the unguarded `calculate_angle` yields NaN exactly when `a == b` or `c == b` |
| RootAngles.Degenerate | angle_calculation.py:9-11 | with an arm of length zero both the denominator and the dot product vanish |
| RootAngles.ProperArms | angle_calculation.py:11-13 | for `a != b` and `c != b` the result is the finite arc cosine of the exact cosine, which lies in [-1, 1] |
| RootAngles.InRange | angle_calculation.py:12-13 | every finite result lies in [0, 180] |
| RootAngles.Symmetric | angle_calculation.py:9-13 | `calculate_angle(a, b, c) == calculate_angle(c, b, a)` on all inputs, NaN included |
| RootAngles.TranslationInvariant | angle_calculation.py:9-10 | moving all three points by the same vector leaves the angle unchanged: only `a - b` and `c - b` matter |
| RootAngles.GetAnglesFails | angle_calculation.py:17-25 | `get_angles` succeeds exactly on a complete frame, and otherwise fails at the first missing landmark in reading order |
| RootAngles.GetAnglesKeys | angle_calculation.py:27-34 | on a complete frame the result has exactly the six joint keys |
| RootAngles.GetAnglesTable | angle_calculation.py:27-34 | each key maps to `calculate_angle` over that joint's topology: hip–knee–ankle, knee–ankle–foot index, knee–hip–reference |
| RootAngles.HipNaNIffKneeOnHip | angle_calculation.py:32-33 | `hip_l` and `hip_r` are NaN exactly when the knee lies on the hip, because the reference arm never has length zero |
| RootAngles.VerticalJointNaN | angle_calculation.py:32-33 | the same, for any joint measured against the vertical reference |
| ResAngles.FallbackIffDegenerate | res/angle_calculation.py:5-11 | the zero-norm fallback is taken exactly when `a == b` or `c == b`, and then the result is 0.0 |
| ResAngles.ProperArms | res/angle_calculation.py:13-14 | for `a != b` and `c != b` the result is the arc cosine of the exact cosine, which lies in [-1, 1] |
| ResAngles.InRange | res/angle_calculation.py:10-14 | every result, the fallback included, lies in [0, 180] |
| ResAngles.ZeroAndStraight | res/angle_calculation.py:10-14 | the result is 0 exactly on the fallback or at cosine 1, and 180 exactly at cosine -1 |
| ResAngles.ProperEnds | res/angle_calculation.py:13-14 | for proper arms the result is 0 exactly at cosine 1 and 180 exactly at cosine -1 |
| ResAngles.Symmetric | res/angle_calculation.py:5-14 | `calculate_angle(a, b, c) == calculate_angle(c, b, a)`, the fallback included |
| ResAngles.TranslationInvariant | res/angle_calculation.py:5-6 | moving all three points by the same vector leaves the angle unchanged |
| ResAngles.Collinear | res/angle_calculation.py:13-14 | when `c - b` is k times `a - b`, the angle is 0 for k > 0 and 180 for k < 0 |
| ResAngles.RightAngle | res/angle_calculation.py:13-14 | perpendicular non-zero arms give 90 |
| ResAngles.Points | res/angle_calculation.py:17-24 | `points` holds every one of the eight landmarks, each mapped to its `[x, y]`, exactly when the frame is complete; otherwise it fails at the first missing landmark in reading order |
| ResAngles.GetAnglesFails | res/angle_calculation.py:21-24 | `get_angles` succeeds exactly on a complete frame, and otherwise fails where `points` does |
| ResAngles.GetAnglesKeys | res/angle_calculation.py:26-33 | on a complete frame the result has exactly the six joint keys |
| ResAngles.GetAnglesTable | res/angle_calculation.py:26-33 | each key maps to `calculate_angle` over that joint's topology, read from `points` |
| ResAngles.HipAngleZero | res/angle_calculation.py:31-32 | the hip angle takes the fallback exactly when the knee lies on the hip, and is 0 exactly when the knee lies on the hip or straight above it |
| ResAngles.HipAngleStraight | res/angle_calculation.py:31-32 | the hip angle is 180 exactly when the knee lies straight below the hip |
| ResAngles.HipZeroIffKneeAboveOrOnHip | res/angle_calculation.py:31-32 | `hip_l` and `hip_r` are 0.0 exactly when the knee has the hip's x and a y no greater than the hip's |
| ResAngles.VerticalJointZero | res/angle_calculation.py:31-32 | the same, for any joint measured against the vertical reference |
| ResAngles.HipZeroWithKneeAboveHip | res/angle_calculation.py:31-32 | a knee straight above the hip at any distance d > 0 differs from the hip and still reads 0.0 |
| Agreement.CalculateAngleAgrees | res/angle_calculation.py:10-14 | the two `calculate_angle`s agree whenever `a != b` and `c != b`; otherwise the unguarded one yields NaN and the guarded one 0.0 |
| Agreement.GetAnglesFailAlike | res/angle_calculation.py:21-24 | the two `get_angles` fail on the same frames, at the same landmark |
| Agreement.GetAnglesAgree | res/angle_calculation.py:26-33 | on a complete frame both return the same keys, and at every joint the same angle, except that a degenerate joint reads NaN in one and 0.0 in the other |

## Left out

- `main.py`: the camera loop, drawing and key polling are I/O. So are its call
  of `get_angles` only when landmarks were detected and its `int()`
  truncation for display.
- `pose_model.py` and `res/pose_model.py`: thin wrappers over MediaPipe pose
  detection, OpenCV colour conversion and drawing.
- The `mp_pose` argument of `get_angles`: it only selects landmark indices,
  which the model names directly.
- `np.array` conversion: the model works on points directly.
- The integer values of MediaPipe's `PoseLandmark` and list indexing: a frame
  is a map keyed by landmark, and a list too short to hold a landmark is a
  map without it.
- Floating point:
  - rounding is not modelled;
  - infinite or NaN landmark coordinates are not modelled;
  - the only NaN modelled is the one `calculate_angle` in
    `angle_calculation.py` produces from 0 / 0.
- The square root and the arc cosine are a parameter whose laws are assumed
  as `Sound(m)`, not an implementation.
- The keys of `points` are the landmarks themselves rather than the strings
  `"LEFT_HIP"` … `"RIGHT_FOOT_INDEX"`.
- The rolling-window buffer, recording controller and session report export
  are not part of this model: none of the source files modelled here
  implements them.
- `hip_X == 0.0` does not imply that knee_X coincides with hip_X: a knee
  straight above the hip gives cosine 1 and also reads 0.
  `ResAngles.HipZeroIffKneeAboveOrOnHip` states the exact condition, and
  `ResAngles.HipZeroWithKneeAboveHip` exhibits the case.
- `res/angle_calculation.py:10-11` returns 0.0 for a zero-length arm, while
  `angle_calculation.py:11` has no guard and yields NaN there (see Findings).
- Both `get_angles` return a Python dict, which keeps the insertion order
  `knee_l`, `knee_r`, `ankle_l`, `ankle_r`, `hip_l`, `hip_r`; `main.py`
  lists the angles on screen in that order. The model's `map<string, _>` has
  no order, so the model does not capture it.

## Findings

| source | as written | input that shows it | evidently intended | confidence | as-written member | corrected member |
|---|---|---|---|---|---|---|
| angle_calculation.py:11-13 | the angle is `degrees(arccos(clip(dot / (norm(ba) * norm(bc)))))` with no guard, so a zero-length arm gives 0 / 0 = NaN, and `int(angle)` in `main.py` then fails | a frame whose knee landmark has the same (x, y) as its hip landmark: `hip_l` is NaN | return 0.0 for a zero-length arm, as `res/angle_calculation.py:10-11` does, so that every angle lies in [0, 180] | not executed | RootAngles.NaNIffDegenerate | ResAngles.FallbackIffDegenerate |
