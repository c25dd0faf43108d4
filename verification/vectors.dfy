/** Three-component vectors over the reals, standing in for three.js's
    `Vector3` (whose components are JavaScript doubles). */
module Vectors {

  datatype Vec3 = Vec3(x: real, y: real, z: real)

  const Origin: Vec3 := Vec3(0.0, 0.0, 0.0)

  function Add(a: Vec3, b: Vec3): Vec3
  {
    Vec3(a.x + b.x, a.y + b.y, a.z + b.z)
  }

  function Sub(a: Vec3, b: Vec3): Vec3
  {
    Vec3(a.x - b.x, a.y - b.y, a.z - b.z)
  }

  function Neg(a: Vec3): Vec3
  {
    Vec3(-a.x, -a.y, -a.z)
  }

  function Scale(a: Vec3, s: real): Vec3
  {
    Vec3(s * a.x, s * a.y, s * a.z)
  }

  function Dot(a: Vec3, b: Vec3): real
  {
    a.x * b.x + a.y * b.y + a.z * b.z
  }

  function Cross(a: Vec3, b: Vec3): Vec3
  {
    Vec3(a.y * b.z - a.z * b.y, a.z * b.x - a.x * b.z, a.x * b.y - a.y * b.x)
  }

  /** The scalar triple product `a · (b × c)`: six times the signed volume
      of the tetrahedron spanned by the origin and the three points. */
  function Triple(a: Vec3, b: Vec3, c: Vec3): real
  {
    Dot(a, Cross(b, c))
  }

  function MinReal(a: real, b: real): real
  {
    if a <= b then a else b
  }

  function MaxReal(a: real, b: real): real
  {
    if a >= b then a else b
  }

  /** Component-wise minimum, as `Vector3.min`. */
  function Min(a: Vec3, b: Vec3): Vec3
  {
    Vec3(MinReal(a.x, b.x), MinReal(a.y, b.y), MinReal(a.z, b.z))
  }

  /** Component-wise maximum, as `Vector3.max`. */
  function Max(a: Vec3, b: Vec3): Vec3
  {
    Vec3(MaxReal(a.x, b.x), MaxReal(a.y, b.y), MaxReal(a.z, b.z))
  }

  /** `a` lies component-wise between `lo` and `hi`. */
  predicate Between(lo: Vec3, a: Vec3, hi: Vec3)
  {
    lo.x <= a.x <= hi.x && lo.y <= a.y <= hi.y && lo.z <= a.z <= hi.z
  }

  /** One component of a cross product of scaled vectors, with `ss` the
      square of `s`. */
  lemma ScaledDifference(p: real, q: real, r: real, t: real, s: real, ss: real)
    requires ss == s * s
    ensures (s * p) * (s * q) - (s * r) * (s * t) == ss * (p * q - r * t)
  {
    assert (s * p) * (s * q) == (s * s) * (p * q);
    assert (s * r) * (s * t) == (s * s) * (r * t);
  }

  /** Scaling both operands of a cross product by `s` scales it by `s²`. */
  lemma CrossScales(b: Vec3, c: Vec3, s: real)
    ensures Cross(Scale(b, s), Scale(c, s)) == Scale(Cross(b, c), s * s)
  {
    var ss := s * s;
    ScaledDifference(b.y, c.z, b.z, c.y, s, ss);
    ScaledDifference(b.z, c.x, b.x, c.z, s, ss);
    ScaledDifference(b.x, c.y, b.y, c.x, s, ss);
  }

  /** The dot product is bilinear in its scale factors. */
  lemma DotScales(a: Vec3, v: Vec3, s: real, t: real)
    ensures Dot(Scale(a, s), Scale(v, t)) == (s * t) * Dot(a, v)
  {
    assert (s * a.x) * (t * v.x) == (s * t) * (a.x * v.x);
    assert (s * a.y) * (t * v.y) == (s * t) * (a.y * v.y);
    assert (s * a.z) * (t * v.z) == (s * t) * (a.z * v.z);
  }

  /** The triple product is homogeneous of degree three: scaling all three
      points by `s` scales it by `s³`. */
  lemma TripleScales(a: Vec3, b: Vec3, c: Vec3, s: real)
    ensures Triple(Scale(a, s), Scale(b, s), Scale(c, s)) == s * s * s * Triple(a, b, c)
  {
    calc {
      Triple(Scale(a, s), Scale(b, s), Scale(c, s));
      Dot(Scale(a, s), Cross(Scale(b, s), Scale(c, s)));
      { CrossScales(b, c, s); }
      Dot(Scale(a, s), Scale(Cross(b, c), s * s));
      { DotScales(a, Cross(b, c), s, s * s); }
      (s * (s * s)) * Triple(a, b, c);
      { CubeAssociates(s, Triple(a, b, c)); }
      s * s * s * Triple(a, b, c);
    }
  }

  lemma CubeAssociates(s: real, d: real)
    ensures (s * (s * s)) * d == s * s * s * d
  {
  }
}
