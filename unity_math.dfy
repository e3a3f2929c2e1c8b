/** The engine maths the controllers rely on. Mathf.Clamp and the Vector3
    operations built from a square root are written out as Unity defines them;
    the transcendental and interpolation routines stay abstract, as function
    values the caller supplies. */
module UnityMath {
  import opened Vectors

  /** Engine routines whose code is not part of this model. */
  datatype Library = Library(
    sqrt: real -> real,                                  // Mathf.Sqrt, behind Vector3.magnitude
    sin: real -> real,                                   // Mathf.Sin
    cos: real -> real,                                   // Mathf.Cos
    lerp: (Vec3, Vec3, real) -> Vec3,                    // Vector3.Lerp
    slerp: (Quaternion, Quaternion, real) -> Quaternion, // Quaternion.Slerp
    lookRotation: Vec3 -> Quaternion)                    // Quaternion.LookRotation

  /** Mathf.Deg2Rad as a single-precision constant. */
  const DEG2RAD: real := 0.0174532924

  /** What the proofs need of the engine's square root. */
  ghost predicate SqrtLaw(math: Library) {
    forall q :: 0.0 <= q ==> 0.0 <= math.sqrt(q) && math.sqrt(q) * math.sqrt(q) == q
  }

  /** What the proofs need of the engine's sine and cosine. */
  ghost predicate TrigLaw(math: Library) {
    forall a :: math.sin(a) * math.sin(a) + math.cos(a) * math.cos(a) == 1.0
  }

  /** Mathf.Clamp: a value below `min` gives `min`, else one above `max` gives `max`. */
  function Clamp(value: real, min: real, max: real): (r: real)
    ensures min <= max ==> min <= r <= max
    ensures min <= value <= max ==> r == value
    ensures value < min ==> r == min
    ensures min <= value && max < value ==> r == max
  {
    if value < min then min else if value > max then max else value
  }

  /** Vector3.magnitude */
  function Magnitude(v: Vec3, math: Library): (r: real)
    ensures SqrtLaw(math) ==> 0.0 <= r && r * r == SqrMagnitude(v)
  {
    math.sqrt(SqrMagnitude(v))
  }

  /** Vector3.Normalize: divide by the magnitude when it exceeds kEpsilon,
      otherwise the zero vector. */
  function Normalized(v: Vec3, math: Library): (r: Vec3)
    ensures v.y == 0.0 ==> r.y == 0.0
  {
    var mag := Magnitude(v, math);
    if mag > EPSILON then Div(v, mag) else ZERO3
  }

  lemma SqrtAt(math: Library, q: real)
    requires SqrtLaw(math) && 0.0 <= q
    ensures 0.0 <= math.sqrt(q) && math.sqrt(q) * math.sqrt(q) == q
  {
  }

  /** For a non-negative root `s` of `q`, `s < t` exactly when `q < t * t`. */
  lemma RootBelow(q: real, s: real, t: real)
    requires 0.0 <= s && s * s == q && 0.0 < t
    ensures s < t <==> q < t * t
  {
    var a, b, c := s * s, t * s, t * t;
    if s < t {
      assert a <= b by { assert (t - s) * s >= 0.0; }
      assert b < c by { assert (t - s) * t > 0.0; }
    } else {
      assert a >= b by { assert (s - t) * s >= 0.0; }
      assert b >= c by { assert (s - t) * t >= 0.0; }
    }
  }

  /** The non-negative root of one is one. */
  lemma RootOfOne(s: real)
    requires 0.0 <= s && s * s == 1.0
    ensures s == 1.0
  {
    var d, e := s - 1.0, s + 1.0;
    assert d * e == 0.0;
    assert d == (d * e) / e;
  }

  /** Comparing a magnitude with a positive threshold is comparing squared lengths. */
  lemma MagnitudeBelow(math: Library, v: Vec3, t: real)
    requires SqrtLaw(math) && 0.0 < t
    ensures Magnitude(v, math) < t <==> SqrMagnitude(v) < t * t
  {
    SqrtAt(math, SqrMagnitude(v));
    RootBelow(SqrMagnitude(v), Magnitude(v, math), t);
  }

  /** The engine's square root of one is one. */
  lemma SqrtOne(math: Library)
    requires SqrtLaw(math)
    ensures math.sqrt(1.0) == 1.0
  {
    SqrtAt(math, 1.0);
    RootOfOne(math.sqrt(1.0));
  }

  /** A vector longer than kEpsilon normalises to a unit vector in its own direction. */
  lemma NormalizedIsUnit(math: Library, v: Vec3)
    requires SqrtLaw(math) && Magnitude(v, math) > EPSILON
    ensures Normalized(v, math) == Div(v, Magnitude(v, math))
    ensures SqrMagnitude(Normalized(v, math)) == 1.0
    ensures Magnitude(Normalized(v, math), math) == 1.0
  {
    var m := Magnitude(v, math);
    SqrtAt(math, SqrMagnitude(v));
    assert m * m == SqrMagnitude(v);
    var i := 1.0 / m;
    assert i * m == 1.0;
    var n := Div(v, m);
    assert n == Scale(v, i);
    assert SqrMagnitude(n) == SqrMagnitude(v) * (i * i);
    assert SqrMagnitude(v) * (i * i) == (m * i) * (m * i);
    SqrtOne(math);
  }

  /** `n` times a per-frame change `c`: the change after `n` equal frames. */
  function Times(n: nat, c: real): real {
    n as real * c
  }

  /** `n * c` is `(n - 1) * c + c`, and non-negative for non-negative `c`. */
  lemma NextMultiple(n: nat, c: real)
    requires 0 < n
    ensures Times(n, c) == Times(n - 1, c) + c
    ensures 0.0 <= c ==> 0.0 <= Times(n - 1, c)
  {
    var k := (n - 1) as real;
    assert n as real == k + 1.0;
    assert (k + 1.0) * c == k * c + c;
  }
}
