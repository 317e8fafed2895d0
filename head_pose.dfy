/**
 * The head-pose smoother: landmark sample -> face centre and depth proxy ->
 * clamped target -> per-axis exponential filter over one stored pose, and the
 * linear map from a pose to camera coordinates.
 */
module HeadPoseTracking {
  import opened Common

  /** Normalised viewer position: x, y across the tracked frame, z a depth proxy. */
  datatype HeadPose = HeadPose(x: real, y: real, z: real)

  /** One face-mesh landmark (z is carried but never read). */
  datatype Landmark = Landmark(x: real, y: real, z: real)

  /** The detector's output: a possibly missing list of possibly missing faces. */
  type Landmarks = Option<seq<Option<seq<Landmark>>>>

  const MinLandmarks: nat := 468
  const LeftEyeInner: nat := 133
  const RightEyeInner: nat := 362
  const NoseTip: nat := 1
  const LeftEyeOuter: nat := 33
  const RightEyeOuter: nat := 263

  const DefaultSmoothingFactor: real := 0.3
  const MinSmoothingFactor: real := 0.1
  const MaxSmoothingFactor: real := 0.9
  const BaseInterOcularDistance: real := 0.1

  const MinXY: real := 0.2
  const MaxXY: real := 0.8
  const MinZ: real := 0.5
  const MaxZ: real := 2.0

  /** The tracker's state before any sample and after `reset`. */
  const InitialPose: HeadPose := HeadPose(0.0, 0.0, 1.0)
  const CentrePose: HeadPose := HeadPose(0.5, 0.5, 1.0)

  /** `Math.max(lo, Math.min(hi, v))`. */
  function Clamp(lo: real, hi: real, v: real): (r: real)
    requires lo <= hi
    ensures lo <= r <= hi
    ensures lo <= v <= hi ==> r == v
    ensures v < lo ==> r == lo
    ensures v > hi ==> r == hi
  {
    var m := if hi < v then hi else v;
    if lo > m then lo else m
  }

  /** The clamp box every target lies in. */
  predicate InBox(p: HeadPose)
  {
    MinXY <= p.x <= MaxXY && MinXY <= p.y <= MaxXY && MinZ <= p.z <= MaxZ
  }

  function ClampToBox(p: HeadPose): (r: HeadPose)
    ensures InBox(r)
    ensures InBox(p) ==> r == p
  {
    HeadPose(Clamp(MinXY, MaxXY, p.x), Clamp(MinXY, MaxXY, p.y), Clamp(MinZ, MaxZ, p.z))
  }

  /**
   * The face the tracker reads, or None when the sample is rejected: no list,
   * an empty list, a missing first face, or a first face with too few points.
   */
  function FirstFace(landmarks: Landmarks): (face: Option<seq<Landmark>>)
    ensures face.Some? ==> |face.value| >= MinLandmarks
    ensures face.Some? <==>
      landmarks.Some? && |landmarks.value| > 0 &&
      landmarks.value[0].Some? && |landmarks.value[0].value| >= MinLandmarks
    ensures face.Some? ==> face.value == landmarks.value[0].value
  {
    if landmarks.None? || |landmarks.value| == 0 then None
    else if landmarks.value[0].None? || |landmarks.value[0].value| < MinLandmarks then None
    else landmarks.value[0]
  }

  /** `Math.pow(v, 2)`. */
  function Square(v: real): (r: real)
    ensures r >= 0.0
  {
    v * v
  }

  /** The host's Math.sqrt, as far as the model needs it: the non-negative square root. */
  ghost predicate IsSquareRoot(sqrt: real -> real)
  {
    forall v :: v >= 0.0 ==> sqrt(v) >= 0.0 && sqrt(v) * sqrt(v) == v
  }

  /** Planar distance between two landmarks, with the host's square root as a parameter. */
  function Distance(a: Landmark, b: Landmark, sqrt: real -> real): (r: real)
    ensures IsSquareRoot(sqrt) ==> r >= 0.0 && r * r == Square(b.x - a.x) + Square(b.y - a.y)
  {
    sqrt(Square(b.x - a.x) + Square(b.y - a.y))
  }

  function Min3(a: real, b: real, c: real): real
  {
    if a <= b && a <= c then a else if b <= c then b else c
  }

  function Max3(a: real, b: real, c: real): real
  {
    if a >= b && a >= c then a else if b >= c then b else c
  }

  /** Mean of the two inner eye corners and the nose tip: it lies within their span. */
  function CentreX(face: seq<Landmark>): (r: real)
    requires |face| >= MinLandmarks
    ensures Min3(face[LeftEyeInner].x, face[RightEyeInner].x, face[NoseTip].x) <= r
    ensures r <= Max3(face[LeftEyeInner].x, face[RightEyeInner].x, face[NoseTip].x)
  {
    (face[LeftEyeInner].x + face[RightEyeInner].x + face[NoseTip].x) / 3.0
  }

  function CentreY(face: seq<Landmark>): (r: real)
    requires |face| >= MinLandmarks
    ensures Min3(face[LeftEyeInner].y, face[RightEyeInner].y, face[NoseTip].y) <= r
    ensures r <= Max3(face[LeftEyeInner].y, face[RightEyeInner].y, face[NoseTip].y)
  {
    (face[LeftEyeInner].y + face[RightEyeInner].y + face[NoseTip].y) / 3.0
  }

  /**
   * (inner-eye distance + half the outer-eye distance) / (baseline * 1.5);
   * with a true square root it is never negative.
   */
  function DepthProxy(face: seq<Landmark>, sqrt: real -> real): (r: real)
    requires |face| >= MinLandmarks
    ensures IsSquareRoot(sqrt) ==> r >= 0.0
  {
    (Distance(face[LeftEyeInner], face[RightEyeInner], sqrt)
      + Distance(face[LeftEyeOuter], face[RightEyeOuter], sqrt) * 0.5)
      / (BaseInterOcularDistance * 1.5)
  }

  /** The clamped target a valid sample pulls the running estimate toward. */
  function Target(face: seq<Landmark>, sqrt: real -> real): (t: HeadPose)
    requires |face| >= MinLandmarks
    ensures InBox(t)
    ensures MinXY <= CentreX(face) <= MaxXY ==> t.x == CentreX(face)
    ensures MinXY <= CentreY(face) <= MaxXY ==> t.y == CentreY(face)
    ensures MinZ <= DepthProxy(face, sqrt) <= MaxZ ==> t.z == DepthProxy(face, sqrt)
  {
    ClampToBox(HeadPose(CentreX(face), CentreY(face), DepthProxy(face, sqrt)))
  }

  /** One axis of the exponential filter. */
  function Smooth(s: real, t: real, f: real): (r: real)
    ensures s == t ==> r == t
    ensures f == 0.0 ==> r == s
    ensures f == 1.0 ==> r == t
  {
    s + f * (t - s)
  }

  /** The filter on all three axes: a target already reached is kept, and f = 1 jumps to the target. */
  function SmoothPose(s: HeadPose, t: HeadPose, f: real): (r: HeadPose)
    ensures s == t ==> r == t
    ensures f == 1.0 ==> r == t
  {
    HeadPose(Smooth(s.x, t.x, f), Smooth(s.y, t.y, f), Smooth(s.z, t.z, f))
  }

  /** The filter never overshoots: the new value lies between the old one and the target. */
  lemma SmoothNoOvershoot(s: real, t: real, f: real)
    requires 0.0 <= f <= 1.0
    ensures s <= t ==> s <= Smooth(s, t, f) <= t
    ensures t <= s ==> t <= Smooth(s, t, f) <= s
  {
    var d := t - s;
    var step := f * d;
    assert Smooth(s, t, f) == s + step;
    if s <= t {
      MulBetween(f, d);
    } else {
      MulBetween(f, -d);
      assert f * -d == -step;
    }
  }

  lemma MulBetween(f: real, d: real)
    requires 0.0 <= f <= 1.0 && 0.0 <= d
    ensures 0.0 <= f * d <= d
  {
    assert (1.0 - f) * d >= 0.0;
  }

  /** Each step shrinks the distance to the target by exactly the factor (1 - f). */
  lemma SmoothContracts(s: real, t: real, f: real)
    requires 0.0 <= f <= 1.0
    ensures Abs(Smooth(s, t, f) - t) == (1.0 - f) * Abs(s - t)
  {
    var g := 1.0 - f;
    var d := s - t;
    assert Smooth(s, t, f) - t == g * d;
    if d < 0.0 {
      MulBetween(g, -d);
      assert g * -d == -(g * d);
    } else {
      MulBetween(g, d);
    }
  }

  /** Once the running state is inside the box, accepted updates keep it inside. */
  lemma SmoothPoseKeepsBox(s: HeadPose, t: HeadPose, f: real)
    requires InBox(s) && InBox(t)
    requires 0.0 <= f <= 1.0
    ensures InBox(SmoothPose(s, t, f))
  {
    SmoothNoOvershoot(s.x, t.x, f);
    SmoothNoOvershoot(s.y, t.y, f);
    SmoothNoOvershoot(s.z, t.z, f);
  }

  /** n applications of the filter toward a fixed target. */
  function Iterate(s: real, t: real, f: real, n: nat): (r: real)
    ensures n == 0 ==> r == s
    ensures s == t ==> r == t
    ensures f == 1.0 && n >= 1 ==> r == t
  {
    if n == 0 then s else Smooth(Iterate(s, t, f, n - 1), t, f)
  }

  function Pow(b: real, n: nat): real
  {
    if n == 0 then 1.0 else b * Pow(b, n - 1)
  }

  /** After n steps toward a constant target the signed offset is (1 - f)^n times the initial one. */
  lemma {:induction false} IterateOffset(s: real, t: real, f: real, n: nat)
    ensures Iterate(s, t, f, n) - t == Pow(1.0 - f, n) * (s - t)
  {
    if n > 0 {
      var a := Iterate(s, t, f, n - 1);
      var g := 1.0 - f;
      var p := Pow(g, n - 1);
      IterateOffset(s, t, f, n - 1);
      assert Iterate(s, t, f, n) == Smooth(a, t, f);
      OffsetStep(a, t, f, p, s - t);
      assert Pow(g, n) == g * p;
    }
  }

  /** One filter step scales an offset of p * d from the target to ((1 - f) * p) * d. */
  lemma OffsetStep(a: real, t: real, f: real, p: real, d: real)
    requires a - t == p * d
    ensures Smooth(a, t, f) - t == ((1.0 - f) * p) * d
  {
    var g := 1.0 - f;
    assert Smooth(a, t, f) - t == g * (a - t);
    MulAssoc(g, p, d);
  }

  lemma {:induction false} PowNonNegative(b: real, n: nat)
    requires b >= 0.0
    ensures Pow(b, n) >= 0.0
  {
    if n > 0 {
      PowNonNegative(b, n - 1);
      MulNonNegative(b, Pow(b, n - 1));
    }
  }

  lemma MulNonNegative(a: real, b: real)
    requires a >= 0.0 && b >= 0.0
    ensures a * b >= 0.0
  {
  }

  /** A non-negative factor comes out of the absolute value unchanged. */
  lemma AbsScale(p: real, v: real)
    requires p >= 0.0
    ensures Abs(p * v) == p * Abs(v)
  {
    if v < 0.0 {
      MulNonNegative(p, -v);
      assert p * -v == -(p * v);
    } else {
      MulNonNegative(p, v);
    }
  }

  /** After n steps toward a constant target the distance is (1 - f)^n times the initial one. */
  lemma IterateDistance(s: real, t: real, f: real, n: nat)
    requires 0.0 <= f <= 1.0
    ensures Abs(Iterate(s, t, f, n) - t) == Pow(1.0 - f, n) * Abs(s - t)
  {
    IterateOffset(s, t, f, n);
    PowNonNegative(1.0 - f, n);
    AbsScale(Pow(1.0 - f, n), s - t);
  }

  lemma MulAssoc(a: real, b: real, c: real)
    ensures a * (b * c) == (a * b) * c
  {
  }

  /** Repeated updates with a constant target stay on the starting side of it (no overshoot, ever). */
  lemma {:induction false} IterateBetween(s: real, t: real, f: real, n: nat)
    requires 0.0 <= f <= 1.0
    ensures s <= t ==> s <= Iterate(s, t, f, n) <= t
    ensures t <= s ==> t <= Iterate(s, t, f, n) <= s
  {
    if n > 0 {
      IterateBetween(s, t, f, n - 1);
      SmoothNoOvershoot(Iterate(s, t, f, n - 1), t, f);
    }
  }

  /**
   * Convergence is monotone for an allowed smoothing factor: every step strictly
   * reduces the distance unless the target has already been reached.
   */
  lemma IterateMonotone(s: real, t: real, f: real, n: nat)
    requires MinSmoothingFactor <= f <= MaxSmoothingFactor
    ensures Abs(Iterate(s, t, f, n + 1) - t) <= Abs(Iterate(s, t, f, n) - t)
    ensures Iterate(s, t, f, n) != t ==> Abs(Iterate(s, t, f, n + 1) - t) < Abs(Iterate(s, t, f, n) - t)
  {
    var d := Abs(Iterate(s, t, f, n) - t);
    SmoothContracts(Iterate(s, t, f, n), t, f);
    assert Abs(Iterate(s, t, f, n + 1) - t) == (1.0 - f) * d;
    MulBetween(1.0 - f, d);
  }

  /**
   * From the reset state a centred target is held exactly, while from any
   * off-centre state one centred update leaves a positive distance.
   */
  lemma ResetThenCentredUpdate(s: HeadPose, f: real)
    requires MinSmoothingFactor <= f <= MaxSmoothingFactor
    requires s.x != CentrePose.x
    ensures SmoothPose(CentrePose, CentrePose, f) == CentrePose
    ensures Abs(SmoothPose(s, CentrePose, f).x - CentrePose.x) > 0.0
  {
    assert Smooth(CentrePose.x, CentrePose.x, f) == CentrePose.x;
    assert Smooth(CentrePose.y, CentrePose.y, f) == CentrePose.y;
    assert Smooth(CentrePose.z, CentrePose.z, f) == CentrePose.z;
    var d := Abs(s.x - 0.5);
    assert d > 0.0;
    SmoothContracts(s.x, 0.5, f);
    MulPositive(1.0 - f, d);
    var next := SmoothPose(s, CentrePose, f).x;
    assert next == Smooth(s.x, 0.5, f);
    assert Abs(next - 0.5) == (1.0 - f) * d;
  }

  lemma MulPositive(a: real, b: real)
    requires a > 0.0 && b > 0.0
    ensures a * b > 0.0
  {
  }

  lemma SquareRootOf(sqrt: real -> real, v: real, r: real)
    requires IsSquareRoot(sqrt)
    requires r >= 0.0 && v == r * r
    ensures sqrt(v) == r
  {
    var q := sqrt(v);
    assert q >= 0.0 && q * q == r * r;
    assert (q - r) * (q + r) == 0.0;
    if q + r == 0.0 {
      assert q == 0.0 && r == 0.0;
    } else {
      assert q - r == 0.0;
    }
  }

  /** The 468-point face the app synthesises from a raw pose (inner eyes at +-0.05, outer at +-0.08). */
  function SyntheticFace(rx: real, ry: real): (face: seq<Landmark>)
    ensures |face| == MinLandmarks
  {
    seq(MinLandmarks, i requires 0 <= i < MinLandmarks =>
      if i == LeftEyeInner then Landmark(rx - 0.05, ry, 0.0)
      else if i == RightEyeInner then Landmark(rx + 0.05, ry, 0.0)
      else if i == NoseTip then Landmark(rx, ry, 0.0)
      else if i == LeftEyeOuter then Landmark(rx - 0.08, ry, 0.0)
      else if i == RightEyeOuter then Landmark(rx + 0.08, ry, 0.0)
      else Landmark(0.0, 0.0, 0.0))
  }

  /** For the synthetic face the centre is the raw pose and the depth proxy is (0.1 + 0.08) / 0.15 = 1.2. */
  lemma SyntheticFaceTarget(rx: real, ry: real, sqrt: real -> real)
    requires IsSquareRoot(sqrt)
    ensures Target(SyntheticFace(rx, ry), sqrt)
      == HeadPose(Clamp(MinXY, MaxXY, rx), Clamp(MinXY, MaxXY, ry), 1.2)
  {
    var face := SyntheticFace(rx, ry);
    assert face[LeftEyeInner] == Landmark(rx - 0.05, ry, 0.0);
    assert face[RightEyeInner] == Landmark(rx + 0.05, ry, 0.0);
    assert face[NoseTip] == Landmark(rx, ry, 0.0);
    assert face[LeftEyeOuter] == Landmark(rx - 0.08, ry, 0.0);
    assert face[RightEyeOuter] == Landmark(rx + 0.08, ry, 0.0);
    SquareRootOf(sqrt, 0.01, 0.1);
    SquareRootOf(sqrt, 0.0256, 0.16);
    assert Distance(face[LeftEyeInner], face[RightEyeInner], sqrt) == 0.1;
    assert Distance(face[LeftEyeOuter], face[RightEyeOuter], sqrt) == 0.16;
    assert DepthProxy(face, sqrt) == 1.2;
    assert CentreX(face) == rx;
    assert CentreY(face) == ry;
  }

  /**
   * The box invariant does not hold from the constructor's state {0, 0, 1}: with
   * the default factor and a centred synthetic face the first output has x = 0.15.
   */
  lemma FirstOutputFromInitialStateLeavesBox(sqrt: real -> real)
    requires IsSquareRoot(sqrt)
    ensures SmoothPose(InitialPose, Target(SyntheticFace(0.5, 0.5), sqrt), DefaultSmoothingFactor).x == 0.15
    ensures !InBox(SmoothPose(InitialPose, Target(SyntheticFace(0.5, 0.5), sqrt), DefaultSmoothingFactor))
  {
    SyntheticFaceTarget(0.5, 0.5, sqrt);
  }

  /** The stateful smoother; the returned poses are values, so callers never alias the state. */
  class HeadPoseTracker {
    var smoothedPose: HeadPose
    var smoothingFactor: real

    ghost predicate Valid()
      reads this
    {
      MinSmoothingFactor <= smoothingFactor <= MaxSmoothingFactor
    }

    /** An out-of-range factor is clamped into [0.1, 0.9], never rejected. */
    constructor (smoothingFactor: real := DefaultSmoothingFactor)
      ensures Valid()
      ensures this.smoothingFactor == Clamp(MinSmoothingFactor, MaxSmoothingFactor, smoothingFactor)
      ensures smoothedPose == InitialPose
    {
      this.smoothedPose := InitialPose;
      this.smoothingFactor := Clamp(MinSmoothingFactor, MaxSmoothingFactor, smoothingFactor);
    }

    method ExtractHeadPoseFromLandmarks(landmarks: Landmarks, sqrt: real -> real) returns (r: Option<HeadPose>)
      requires Valid()
      modifies this`smoothedPose
      ensures Valid()
      ensures FirstFace(landmarks).None? ==> r == None && smoothedPose == old(smoothedPose)
      ensures FirstFace(landmarks).Some? ==>
        smoothedPose == SmoothPose(old(smoothedPose), Target(FirstFace(landmarks).value, sqrt), smoothingFactor)
        && r == Some(smoothedPose)
      ensures old(InBox(smoothedPose)) ==> InBox(smoothedPose)
    {
      if landmarks.None? || |landmarks.value| == 0 {
        return None;
      }
      var firstFace := landmarks.value[0];
      if firstFace.None? || |firstFace.value| < MinLandmarks {
        return None;
      }
      var face := firstFace.value;
      var leftEyeInner := face[LeftEyeInner];
      var rightEyeInner := face[RightEyeInner];
      var noseTip := face[NoseTip];
      var leftEyeOuter := face[LeftEyeOuter];
      var rightEyeOuter := face[RightEyeOuter];

      var faceX := (leftEyeInner.x + rightEyeInner.x + noseTip.x) / 3.0;
      var faceY := (leftEyeInner.y + rightEyeInner.y + noseTip.y) / 3.0;
      var interOcularDist := sqrt(Square(rightEyeInner.x - leftEyeInner.x) + Square(rightEyeInner.y - leftEyeInner.y));
      var eyeWidth := sqrt(Square(rightEyeOuter.x - leftEyeOuter.x) + Square(rightEyeOuter.y - leftEyeOuter.y));
      var depthProxy := (interOcularDist + eyeWidth * 0.5) / (BaseInterOcularDistance * 1.5);

      var clampedX := Clamp(MinXY, MaxXY, faceX);
      var clampedY := Clamp(MinXY, MaxXY, faceY);
      var clampedZ := Clamp(MinZ, MaxZ, depthProxy);

      ghost var before := smoothedPose;
      assert Target(face, sqrt) == HeadPose(clampedX, clampedY, clampedZ) by {
        assert faceX == CentreX(face) && faceY == CentreY(face);
        assert depthProxy == DepthProxy(face, sqrt);
      }
      smoothedPose := smoothedPose.(x := Smooth(smoothedPose.x, clampedX, smoothingFactor));
      smoothedPose := smoothedPose.(y := Smooth(smoothedPose.y, clampedY, smoothingFactor));
      smoothedPose := smoothedPose.(z := Smooth(smoothedPose.z, clampedZ, smoothingFactor));
      assert smoothedPose == SmoothPose(before, HeadPose(clampedX, clampedY, clampedZ), smoothingFactor);
      if InBox(before) {
        SmoothPoseKeepsBox(before, Target(face, sqrt), smoothingFactor);
      }
      return Some(smoothedPose);
    }

    method GetSmoothedPose() returns (p: HeadPose)
      ensures p == smoothedPose
    {
      p := smoothedPose;
    }

    /** Back to the centred neutral pose; the smoothing factor is untouched. */
    method Reset()
      requires Valid()
      modifies this`smoothedPose
      ensures Valid()
      ensures smoothedPose == CentrePose && InBox(smoothedPose)
      ensures smoothingFactor == old(smoothingFactor)
    {
      smoothedPose := CentrePose;
    }
  }

  /** `headPoseToCamera`: centre-relative offsets scaled per axis, depth around baseZ. */
  function HeadPoseToCamera(p: HeadPose, strengthX: real := 3.0, strengthY: real := 3.0,
                            strengthZ: real := 4.0, baseZ: real := 8.0): (c: Vec3)
    ensures p == CentrePose ==> c == Vec3(0.0, 0.0, baseZ)
  {
    Vec3((0.5 - p.x) * strengthX, (0.5 - p.y) * strengthY, baseZ - (p.z - 1.0) * strengthZ)
  }

  /** With positive strength, camera x strictly decreases as the pose moves right (and y likewise). */
  lemma CameraMovesOpposite(p: HeadPose, q: HeadPose, strengthX: real, strengthY: real, strengthZ: real, baseZ: real)
    ensures strengthX > 0.0 && p.x < q.x ==> (HeadPoseToCamera(p, strengthX, strengthY, strengthZ, baseZ).x
                           > HeadPoseToCamera(q, strengthX, strengthY, strengthZ, baseZ).x)
    ensures strengthY > 0.0 && p.y < q.y ==> (HeadPoseToCamera(p, strengthX, strengthY, strengthZ, baseZ).y
                           > HeadPoseToCamera(q, strengthX, strengthY, strengthZ, baseZ).y)
  {
    if strengthX > 0.0 && p.x < q.x { assert (q.x - p.x) * strengthX > 0.0; }
    if strengthY > 0.0 && p.y < q.y { assert (q.y - p.y) * strengthY > 0.0; }
  }

  /** With non-zero strengths the map loses nothing: distinct poses give distinct camera positions. */
  lemma CameraMapInjective(p: HeadPose, q: HeadPose, strengthX: real, strengthY: real, strengthZ: real, baseZ: real)
    requires strengthX != 0.0 && strengthY != 0.0 && strengthZ != 0.0
    requires HeadPoseToCamera(p, strengthX, strengthY, strengthZ, baseZ)
          == HeadPoseToCamera(q, strengthX, strengthY, strengthZ, baseZ)
    ensures p == q
  {
    assert (q.x - p.x) * strengthX == 0.0;
    assert (q.y - p.y) * strengthY == 0.0;
    assert (q.z - p.z) * strengthZ == 0.0;
  }

  /** The default mapping places the centred viewer at (0, 0, 8). */
  lemma DefaultCameraAtCentre()
    ensures HeadPoseToCamera(CentrePose) == Vec3(0.0, 0.0, 8.0)
  {
  }
}
