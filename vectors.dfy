/** Unity's Vector2, Vector3 and Quaternion as records of reals, with the
    vector arithmetic the two controllers use. */
module Vectors {

  datatype Vec2 = Vec2(x: real, y: real)

  datatype Vec3 = Vec3(x: real, y: real, z: real)

  /** Rotations are only produced and passed on by engine routines
      (Quaternion.Slerp, Quaternion.LookRotation), never inspected. */
  datatype Quaternion = Quaternion(x: real, y: real, z: real, w: real)

  const ZERO2: Vec2 := Vec2(0.0, 0.0)
  const ZERO3: Vec3 := Vec3(0.0, 0.0, 0.0)

  /** Unity's Vector2.kEpsilon / Vector3.kEpsilon. */
  const EPSILON: real := 0.00001

  function Add(a: Vec3, b: Vec3): Vec3 {
    Vec3(a.x + b.x, a.y + b.y, a.z + b.z)
  }

  function Sub(a: Vec3, b: Vec3): Vec3 {
    Vec3(a.x - b.x, a.y - b.y, a.z - b.z)
  }

  /** `v * k` */
  function Scale(a: Vec3, k: real): Vec3 {
    Vec3(a.x * k, a.y * k, a.z * k)
  }

  /** `v / k` */
  function Div(a: Vec3, k: real): Vec3
    requires k != 0.0
  {
    Vec3(a.x / k, a.y / k, a.z / k)
  }

  /** The vector with its y component overwritten (`v.y = y`). */
  function WithY(a: Vec3, y: real): Vec3 {
    a.(y := y)
  }

  function Dot(a: Vec3, b: Vec3): real {
    a.x * b.x + a.y * b.y + a.z * b.z
  }

  function SqrMagnitude(a: Vec3): (r: real)
    ensures 0.0 <= r
  {
    a.x * a.x + a.y * a.y + a.z * a.z
  }

  function SqrMagnitude2(a: Vec2): (r: real)
    ensures 0.0 <= r
  {
    a.x * a.x + a.y * a.y
  }

  /** Unity's `v == Vector2.zero`: equality on Vector2 is approximate, true when
      the squared length of the difference is below kEpsilon squared. */
  predicate ApproxZero2(a: Vec2) {
    SqrMagnitude2(a) < EPSILON * EPSILON
  }

  /** Unity's `v == Vector3.zero`, approximate in the same way. */
  predicate ApproxZero3(a: Vec3) {
    SqrMagnitude(a) < EPSILON * EPSILON
  }

  /** Scaling a vector by `k` scales its squared length by `k * k`. */
  lemma ScaledSqrMagnitude(v: Vec3, k: real)
    ensures SqrMagnitude(Scale(v, k)) == (k * k) * SqrMagnitude(v)
  {
  }

  /** The dot product of a scaled vector with itself is the scale times its squared length. */
  lemma ScaledDot(v: Vec3, k: real)
    ensures Dot(Scale(v, k), v) == k * SqrMagnitude(v)
  {
    var a, b, c := v.x * v.x, v.y * v.y, v.z * v.z;
    assert (v.x * k) * v.x == k * a;
    assert (v.y * k) * v.y == k * b;
    assert (v.z * k) * v.z == k * c;
  }

  lemma SquareOfSum(s: real, p: real, q: real, a: real, b: real)
    requires s == p * a + q * b
    ensures s * s == (a * a) * (p * p) + (b * b) * (q * q) + 2.0 * (a * b) * (p * q)
  {
  }

  /** The squared length of a weighted sum of two vectors. */
  lemma SqrMagnitudeOfSum(f: Vec3, r: Vec3, a: real, b: real)
    ensures SqrMagnitude(Add(Scale(f, a), Scale(r, b))) ==
      (a * a) * SqrMagnitude(f) + (b * b) * SqrMagnitude(r) + 2.0 * (a * b) * Dot(f, r)
  {
    var u := Add(Scale(f, a), Scale(r, b));
    var aa, bb, ab := a * a, b * b, a * b;
    var fx, fy, fz, rx, ry, rz := f.x * f.x, f.y * f.y, f.z * f.z, r.x * r.x, r.y * r.y, r.z * r.z;
    var dx, dy, dz := f.x * r.x, f.y * r.y, f.z * r.z;
    SquareOfSum(u.x, f.x, r.x, a, b);
    SquareOfSum(u.y, f.y, r.y, a, b);
    SquareOfSum(u.z, f.z, r.z, a, b);
    assert SqrMagnitude(u) ==
      (aa * fx + bb * rx + 2.0 * ab * dx) + (aa * fy + bb * ry + 2.0 * ab * dy) + (aa * fz + bb * rz + 2.0 * ab * dz);
    assert aa * SqrMagnitude(f) == aa * fx + aa * fy + aa * fz;
    assert bb * SqrMagnitude(r) == bb * rx + bb * ry + bb * rz;
    assert 2.0 * ab * Dot(f, r) == 2.0 * ab * dx + 2.0 * ab * dy + 2.0 * ab * dz;
  }

  /** The dot product of two scaled vectors is the product of the scales times their dot product. */
  lemma ScaledDotScaled(a: Vec3, b: Vec3, p: real, q: real)
    ensures Dot(Scale(a, p), Scale(b, q)) == (p * q) * Dot(a, b)
  {
    var pq := p * q;
    var dx, dy, dz := a.x * b.x, a.y * b.y, a.z * b.z;
    assert (a.x * p) * (b.x * q) == pq * dx;
    assert (a.y * p) * (b.y * q) == pq * dy;
    assert (a.z * p) * (b.z * q) == pq * dz;
    assert pq * Dot(a, b) == pq * dx + pq * dy + pq * dz;
  }
}
