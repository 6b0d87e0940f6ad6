/**
 * Math shared by the GPU backends: the six clipping planes of a
 * view-projection matrix (Gribb-Hartmann extraction), the bounding-sphere
 * visibility test against them, and the split distances of cascaded shadow
 * maps (the practical split scheme).
 *
 * Matrices here are concrete: the extraction reads their entries. The
 * square root and the power function are parameters, since only their
 * results at a few points matter to the properties proved.
 */
module GpuMath {
  import opened Geometry

  datatype Vec4 = Vec4(x: real, y: real, z: real, w: real)

  /** A glam matrix: four columns. */
  datatype ColumnMatrix = ColumnMatrix(c0: Vec4, c1: Vec4, c2: Vec4, c3: Vec4)

  /** The plane a*x + b*y + c*z + d = 0; its positive side is inside the frustum. */
  datatype Plane = Plane(a: real, b: real, c: real, d: real)

  function Component(v: Vec4, k: nat): real
    requires k < 4
  {
    match k
    case 0 => v.x
    case 1 => v.y
    case 2 => v.z
    case 3 => v.w
  }

  /** Row `k` of the matrix: entry `k` of each column. */
  function Row(m: ColumnMatrix, k: nat): Vec4
    requires k < 4
  {
    Vec4(Component(m.c0, k), Component(m.c1, k), Component(m.c2, k), Component(m.c3, k))
  }

  /** Matrix times column vector. */
  function Transform(m: ColumnMatrix, v: Vec4): Vec4
  {
    Vec4(m.c0.x * v.x + m.c1.x * v.y + m.c2.x * v.z + m.c3.x * v.w,
         m.c0.y * v.x + m.c1.y * v.y + m.c2.y * v.z + m.c3.y * v.w,
         m.c0.z * v.x + m.c1.z * v.y + m.c2.z * v.z + m.c3.z * v.w,
         m.c0.w * v.x + m.c1.w * v.y + m.c2.w * v.z + m.c3.w * v.w)
  }

  function Evaluate(p: Plane, v: Vec4): real
  {
    p.a * v.x + p.b * v.y + p.c * v.z + p.d * v.w
  }

  function PlaneSum(u: Vec4, v: Vec4): Plane { Plane(u.x + v.x, u.y + v.y, u.z + v.z, u.w + v.w) }

  function PlaneDifference(u: Vec4, v: Vec4): Plane { Plane(u.x - v.x, u.y - v.y, u.z - v.z, u.w - v.w) }

  /** The planes before normalisation, in the order left, right, bottom, top, near, far. */
  function RawPlanes(m: ColumnMatrix): seq<Plane>
  {
    var w := Row(m, 3);
    [PlaneSum(w, Row(m, 0)), PlaneDifference(w, Row(m, 0)),
     PlaneSum(w, Row(m, 1)), PlaneDifference(w, Row(m, 1)),
     PlaneSum(w, Row(m, 2)), PlaneDifference(w, Row(m, 2))]
  }

  /**
   * The six raw planes bound the clip volume: evaluated at a point, they give
   * w + x, w - x, w + y, w - y, w + z, w - z of the point's clip coordinates.
   */
  lemma RawPlanesBoundClipVolume(m: ColumnMatrix, v: Vec4)
    ensures var clip := Transform(m, v);
      var planes := RawPlanes(m);
      && Evaluate(planes[0], v) == clip.w + clip.x && Evaluate(planes[1], v) == clip.w - clip.x
      && Evaluate(planes[2], v) == clip.w + clip.y && Evaluate(planes[3], v) == clip.w - clip.y
      && Evaluate(planes[4], v) == clip.w + clip.z && Evaluate(planes[5], v) == clip.w - clip.z
  {
    var clip := Transform(m, v);
    var w := Row(m, 3);
    assert RowTimes(Row(m, 0), v) == clip.x && RowTimes(Row(m, 1), v) == clip.y;
    assert RowTimes(Row(m, 2), v) == clip.z && RowTimes(w, v) == clip.w;
    EvaluateCombined(w, Row(m, 0), v);
    EvaluateCombined(w, Row(m, 1), v);
    EvaluateCombined(w, Row(m, 2), v);
  }

  /** A row of the matrix applied to a vector: one coordinate of the product. */
  function RowTimes(r: Vec4, v: Vec4): real
  {
    r.x * v.x + r.y * v.y + r.z * v.z + r.w * v.w
  }

  /** Evaluating a sum or difference of rows is the sum or difference of the rows applied. */
  lemma EvaluateCombined(u: Vec4, r: Vec4, v: Vec4)
    ensures Evaluate(PlaneSum(u, r), v) == RowTimes(u, v) + RowTimes(r, v)
    ensures Evaluate(PlaneDifference(u, r), v) == RowTimes(u, v) - RowTimes(r, v)
  {
  }

  const NormalEpsilon: real := 0.00000001

  function NormalLengthSquared(p: Plane): real
  {
    p.a * p.a + p.b * p.b + p.c * p.c
  }

  /**
   * Divide a plane by the length of its normal, computed with `sqrt`, when
   * that length exceeds 1e-8; a degenerate plane is kept as it is.
   */
  function NormalizePlane(p: Plane, sqrt: real -> real): (r: Plane)
    ensures sqrt(NormalLengthSquared(p)) <= NormalEpsilon ==> r == p
    ensures var len := sqrt(NormalLengthSquared(p));
      len > NormalEpsilon ==> r.a * len == p.a && r.b * len == p.b && r.c * len == p.c && r.d * len == p.d
  {
    var len := sqrt(NormalLengthSquared(p));
    if len > NormalEpsilon then Plane(p.a / len, p.b / len, p.c / len, p.d / len) else p
  }

  /** When `sqrt` is a square root, a rescaled plane has a unit normal. */
  lemma NormalizedNormalIsUnit(p: Plane, sqrt: real -> real)
    requires var len := sqrt(NormalLengthSquared(p)); len * len == NormalLengthSquared(p) && len > NormalEpsilon
    ensures NormalLengthSquared(NormalizePlane(p, sqrt)) == 1.0
  {
    var len := sqrt(NormalLengthSquared(p));
    var r := NormalizePlane(p, sqrt);
    var square := len * len;
    assert r.a * len == p.a && r.b * len == p.b && r.c * len == p.c;
    ScaledSquare(r.a, len);
    ScaledSquare(r.b, len);
    ScaledSquare(r.c, len);
    assert NormalLengthSquared(r) * square == NormalLengthSquared(p);
    UnitFactor(NormalLengthSquared(r), square, NormalLengthSquared(p));
  }

  lemma ScaledSquare(x: real, k: real)
    ensures (x * k) * (x * k) == (x * x) * (k * k)
  {
  }

  lemma UnitFactor(x: real, k: real, n: real)
    requires k > 0.0 && x * k == n && n == k
    ensures x == 1.0
  {
    assert (x - 1.0) * k == 0.0;
  }

  /** Normalisation divides a plane by a positive number, so no point changes side. */
  lemma NormalizeKeepsSides(p: Plane, sqrt: real -> real, v: Vec4)
    ensures Evaluate(NormalizePlane(p, sqrt), v) >= 0.0 <==> Evaluate(p, v) >= 0.0
  {
    var len := sqrt(NormalLengthSquared(p));
    if len > NormalEpsilon {
      var r := NormalizePlane(p, sqrt);
      assert Evaluate(r, v) * len == Evaluate(p, v) by {
        assert r.a * len == p.a && r.b * len == p.b && r.c * len == p.c && r.d * len == p.d;
      }
      PositiveFactorKeepsSign(Evaluate(r, v), len);
    }
  }

  lemma PositiveFactorKeepsSign(x: real, k: real)
    requires k > 0.0
    ensures x * k >= 0.0 <==> x >= 0.0
  {
    if x < 0.0 {
      assert x * k < 0.0;
    }
  }

  /** The six planes, each normalised. */
  function FrustumPlanes(m: ColumnMatrix, sqrt: real -> real): (r: seq<Plane>)
    ensures |r| == 6
  {
    var raw := RawPlanes(m);
    seq(6, i requires 0 <= i < 6 => NormalizePlane(raw[i], sqrt))
  }

  /** Extraction: build the six planes from the rows, then normalise them in place. */
  method ExtractFrustumPlanes(vp: ColumnMatrix, sqrt: real -> real) returns (planes: seq<Plane>)
    ensures planes == FrustumPlanes(vp, sqrt)
  {
    var row0 := Vec4(vp.c0.x, vp.c1.x, vp.c2.x, vp.c3.x);
    var row1 := Vec4(vp.c0.y, vp.c1.y, vp.c2.y, vp.c3.y);
    var row2 := Vec4(vp.c0.z, vp.c1.z, vp.c2.z, vp.c3.z);
    var row3 := Vec4(vp.c0.w, vp.c1.w, vp.c2.w, vp.c3.w);

    var a := new Plane[6];
    a[0], a[1] := PlaneSum(row3, row0), PlaneDifference(row3, row0);
    a[2], a[3] := PlaneSum(row3, row1), PlaneDifference(row3, row1);
    a[4], a[5] := PlaneSum(row3, row2), PlaneDifference(row3, row2);
    ghost var raw := RawPlanes(vp);
    assert a[..] == raw;

    for i := 0 to 6
      invariant forall j :: 0 <= j < i ==> a[j] == NormalizePlane(raw[j], sqrt)
      invariant forall j :: i <= j < 6 ==> a[j] == raw[j]
    {
      var p := a[i];
      var len := sqrt(NormalLengthSquared(p));
      if len > NormalEpsilon {
        a[i] := Plane(p.a / len, p.b / len, p.c / len, p.d / len);
      }
      assert a[i] == NormalizePlane(raw[i], sqrt);
    }
    planes := a[..];
  }

  /** Signed distance of a point from a plane (a true distance when the normal is a unit vector). */
  function SignedDistance(p: Plane, center: Vec3): real
  {
    p.a * center.x + p.b * center.y + p.c * center.z + p.d
  }

  /** A sphere is kept unless it lies wholly on the outer side of some plane. */
  predicate SphereVisible(planes: seq<Plane>, center: Vec3, radius: real)
  {
    forall i :: 0 <= i < |planes| ==> SignedDistance(planes[i], center) >= -radius
  }

  /** The test, plane by plane, returning at the first plane that culls the sphere. */
  method SphereInFrustum(planes: seq<Plane>, center: Vec3, radius: real) returns (visible: bool)
    requires |planes| == 6
    ensures visible <==> forall i :: 0 <= i < |planes| ==> SignedDistance(planes[i], center) >= -radius
  {
    for i := 0 to |planes|
      invariant forall j :: 0 <= j < i ==> SignedDistance(planes[j], center) >= -radius
    {
      var p := planes[i];
      var dist := p.a * center.x + p.b * center.y + p.c * center.z + p.d;
      if dist < -radius {
        return false;
      }
    }
    return true;
  }

  /** A larger sphere around the same center is never culled when the smaller one is kept. */
  lemma VisibleForLargerRadius(planes: seq<Plane>, center: Vec3, radius: real, larger: real)
    requires SphereVisible(planes, center, radius) && radius <= larger
    ensures SphereVisible(planes, center, larger)
  {
  }

  /**
   * A point inside the clip volume (-w <= x, y, z <= w after transformation)
   * passes the test with radius 0 against the extracted planes, whatever
   * square-root function produced them.
   */
  lemma ClipVolumePointsVisible(m: ColumnMatrix, sqrt: real -> real, point: Vec3)
    requires var clip := Transform(m, Vec4(point.x, point.y, point.z, 1.0));
      && -clip.w <= clip.x <= clip.w && -clip.w <= clip.y <= clip.w && -clip.w <= clip.z <= clip.w
    ensures SphereVisible(FrustumPlanes(m, sqrt), point, 0.0)
  {
    var v := Vec4(point.x, point.y, point.z, 1.0);
    var raw := RawPlanes(m);
    var planes := FrustumPlanes(m, sqrt);
    RawPlanesBoundClipVolume(m, v);
    forall i | 0 <= i < 6
      ensures SignedDistance(planes[i], point) >= -0.0
    {
      NormalizeKeepsSides(raw[i], sqrt, v);
      DistanceAtPoint(planes[i], point);
    }
  }

  /** A point's signed distance is the plane evaluated at the point in homogeneous form. */
  lemma DistanceAtPoint(p: Plane, point: Vec3)
    ensures SignedDistance(p, point) == Evaluate(p, Vec4(point.x, point.y, point.z, 1.0))
  {
  }

  // ----- Cascaded shadow map splits -----

  /**
   * Split `i` of `n`: a blend, weighted by `lambda`, of the logarithmic split
   * near * (far / near)^(i / n) and the uniform split near + (far - near) * i / n.
   */
  function Split(near: real, far: real, n: nat, lambda: real, pow: (real, real) -> real, i: nat): real
    requires near != 0.0 && n > 0
  {
    var p := i as real / n as real;
    var logarithmic := near * pow(far / near, p);
    var uniform := near + (far - near) * p;
    lambda * logarithmic + (1.0 - lambda) * uniform
  }

  /** The split distances: `near`, then one per cascade. */
  method ComputeCascadeSplits(near: real, far: real, numCascades: nat, lambda: real, pow: (real, real) -> real)
      returns (splits: seq<real>)
    requires near != 0.0
    ensures |splits| == numCascades + 1 && splits[0] == near
    ensures forall i :: 1 <= i <= numCascades ==> splits[i] == Split(near, far, numCascades, lambda, pow, i)
  {
    splits := [near];
    for i := 1 to numCascades + 1
      invariant |splits| == i && splits[0] == near
      invariant forall j :: 1 <= j < i ==> splits[j] == Split(near, far, numCascades, lambda, pow, j)
    {
      var p := i as real / numCascades as real;
      var cLog := near * pow(far / near, p);
      var cLinear := near + (far - near) * p;
      splits := splits + [lambda * cLog + (1.0 - lambda) * cLinear];
    }
  }

  /** The last split reaches the far plane, when `pow` returns its base at exponent 1. */
  lemma LastSplitIsFar(near: real, far: real, n: nat, lambda: real, pow: (real, real) -> real)
    requires near != 0.0 && n > 0 && pow(far / near, 1.0) == far / near
    ensures Split(near, far, n, lambda, pow, n) == far
  {
    assert n as real / n as real == 1.0;
    assert near * (far / near) == far;
  }

  /** With `lambda == 0` the splits are uniform, and they increase from `near` to `far`. */
  lemma UniformSplits(near: real, far: real, n: nat, pow: (real, real) -> real, i: nat, j: nat)
    requires near != 0.0 && n > 0
    ensures Split(near, far, n, 0.0, pow, i) == near + (far - near) * (i as real / n as real)
    ensures near < far && i < j ==> Split(near, far, n, 0.0, pow, i) < Split(near, far, n, 0.0, pow, j)
  {
    if near < far && i < j {
      var p := i as real / n as real;
      var q := j as real / n as real;
      assert p < q;
      assert (far - near) * p < (far - near) * q;
    }
  }
}
