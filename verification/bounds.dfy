/** Axis-aligned bounding boxes, as three.js's `Box3` builds them from a
    position buffer, and the translation `centerGeometry`
    (frontend/src/App.jsx) applies to put a geometry's box centre at the
    origin. */
module Bounds {
  import opened Vectors
  import opened Volume

  /** A `Box3`: three.js marks an empty box with `min = +∞, max = -∞`;
      here it is its own constructor. */
  datatype Box = Empty | Box(lo: Vec3, hi: Vec3)

  /** The vertices of a position buffer, three floats each, in buffer order.
      A trailing partial vertex is not a vertex. */
  function Points(buf: Buffer): (r: seq<Vec3>)
    ensures |r| == |buf| / 3
    decreases |buf|
  {
    if |buf| < 3 then [] else [VertexAt(buf, 0)] + Points(buf[3..])
  }

  /** `Box3.expandByPoint`. */
  function ExpandByPoint(b: Box, p: Vec3): (r: Box)
    ensures r.Box?
  {
    match b
    case Empty => Box(p, p)
    case Box(lo, hi) => Box(Min(lo, p), Max(hi, p))
  }

  /** `Box3.setFromPoints`: start empty and expand by each point in turn. */
  function BoundsOf(pts: seq<Vec3>): (b: Box)
    ensures b.Empty? <==> pts == []
  {
    if pts == [] then Empty
    else ExpandByPoint(BoundsOf(pts[..|pts| - 1]), pts[|pts| - 1])
  }

  /** The box of a non-empty point set contains every point and each of its
      faces touches one: it is the smallest box containing the points. */
  lemma {:induction false} BoundsTight(pts: seq<Vec3>)
    requires pts != []
    ensures forall k :: 0 <= k < |pts| ==> Between(BoundsOf(pts).lo, pts[k], BoundsOf(pts).hi)
    ensures Attained(BoundsOf(pts), pts)
  {
    var n := |pts| - 1;
    var p := pts[n];
    if n == 0 {
      assert pts[0] == p;
    } else {
      var init := pts[..n];
      BoundsTight(init);
      var b := BoundsOf(init);
      assert forall k :: 0 <= k < n ==> pts[k] == init[k];
      ExpandAttained(b, init, p);
    }
  }

  lemma ExpandAttained(b: Box, init: seq<Vec3>, p: Vec3)
    requires b.Box? && Attained(b, init)
    requires forall k :: 0 <= k < |init| ==> Between(b.lo, init[k], b.hi)
    ensures forall k :: 0 <= k < |init + [p]| ==>
      Between(ExpandByPoint(b, p).lo, (init + [p])[k], ExpandByPoint(b, p).hi)
    ensures Attained(ExpandByPoint(b, p), init + [p])
  {
    var r := ExpandByPoint(b, p);
    var q := init + [p];
    assert q[|init|] == p;
    assert forall k :: 0 <= k < |init| ==> q[k] == init[k];
    var kx :| 0 <= kx < |init| && init[kx].x == b.lo.x;
    var ky :| 0 <= ky < |init| && init[ky].y == b.lo.y;
    var kz :| 0 <= kz < |init| && init[kz].z == b.lo.z;
    var jx :| 0 <= jx < |init| && init[jx].x == b.hi.x;
    var jy :| 0 <= jy < |init| && init[jy].y == b.hi.y;
    var jz :| 0 <= jz < |init| && init[jz].z == b.hi.z;
    assert q[kx].x == b.lo.x && q[ky].y == b.lo.y && q[kz].z == b.lo.z;
    assert q[jx].x == b.hi.x && q[jy].y == b.hi.y && q[jz].z == b.hi.z;
  }

  /** Each face of the box touches some point: the box is the tightest one. */
  predicate Attained(b: Box, pts: seq<Vec3>)
    requires b.Box?
  {
    (exists k :: 0 <= k < |pts| && pts[k].x == b.lo.x) &&
    (exists k :: 0 <= k < |pts| && pts[k].y == b.lo.y) &&
    (exists k :: 0 <= k < |pts| && pts[k].z == b.lo.z) &&
    (exists k :: 0 <= k < |pts| && pts[k].x == b.hi.x) &&
    (exists k :: 0 <= k < |pts| && pts[k].y == b.hi.y) &&
    (exists k :: 0 <= k < |pts| && pts[k].z == b.hi.z)
  }

  /** `Box3.setFromBufferAttribute`. */
  function FromBuffer(buf: Buffer): Box
  {
    BoundsOf(Points(buf))
  }

  /** `Box3.union`: an empty box is the unit. */
  function Union(a: Box, b: Box): (r: Box)
    ensures r.Empty? <==> a.Empty? && b.Empty?
  {
    match (a, b)
    case (Empty, _) => b
    case (_, Empty) => a
    case (Box(lo1, hi1), Box(lo2, hi2)) => Box(Min(lo1, lo2), Max(hi1, hi2))
  }

  /** `Box3.applyMatrix4` for a translation by `d`; an empty box stays
      empty. */
  function Shift(b: Box, d: Vec3): (r: Box)
    ensures r.Empty? <==> b.Empty?
  {
    match b
    case Empty => Empty
    case Box(lo, hi) => Box(Add(lo, d), Add(hi, d))
  }

  /** `Box3.getCenter`: the origin for an empty box. */
  function Center(b: Box): Vec3
  {
    match b
    case Empty => Origin
    case Box(lo, hi) => Vec3((lo.x + hi.x) / 2.0, (lo.y + hi.y) / 2.0, (lo.z + hi.z) / 2.0)
  }

  /** `Box3.getSize`: zero for an empty box. */
  function Size(b: Box): Vec3
  {
    match b
    case Empty => Origin
    case Box(lo, hi) => Sub(hi, lo)
  }

  /** The component of `d` that a coordinate at buffer index `i` carries. */
  function Component(d: Vec3, i: nat): real
  {
    if i % 3 == 0 then d.x else if i % 3 == 1 then d.y else d.z
  }

  /** `BufferGeometry.applyMatrix4` for a translation by `d`. */
  function Translate(buf: Buffer, d: Vec3): (r: Buffer)
    ensures |r| == |buf|
  {
    seq(|buf|, i requires 0 <= i < |buf| => buf[i] + Component(d, i))
  }

  function ShiftPoints(pts: seq<Vec3>, d: Vec3): (r: seq<Vec3>)
    ensures |r| == |pts|
  {
    seq(|pts|, k requires 0 <= k < |pts| => Add(pts[k], d))
  }

  /** `centerGeometry`: translate the buffer by minus the centre of its
      bounds. Afterwards the bounds are centred on the origin and keep their
      size, and every vertex moved by the same offset. */
  function CenterGeometry(buf: Buffer): (r: Buffer)
    ensures |r| == |buf|
    ensures Center(FromBuffer(r)) == Origin
    ensures Size(FromBuffer(r)) == Size(FromBuffer(buf))
    ensures exists d :: Points(r) == ShiftPoints(Points(buf), d)
  {
    var d := Neg(Center(FromBuffer(buf)));
    TranslateBounds(buf, d);
    CenteredByShift(FromBuffer(buf));
    Translate(buf, d)
  }

  /** Translating the buffer translates its bounds. */
  lemma TranslateBounds(buf: Buffer, d: Vec3)
    ensures Points(Translate(buf, d)) == ShiftPoints(Points(buf), d)
    ensures FromBuffer(Translate(buf, d)) == Shift(FromBuffer(buf), d)
  {
    PointsTranslate(buf, d);
    BoundsShift(Points(buf), d);
  }

  /** Shifting a box by minus its centre centres it and keeps its size. */
  lemma CenteredByShift(b: Box)
    ensures Center(Shift(b, Neg(Center(b)))) == Origin
    ensures Size(Shift(b, Neg(Center(b)))) == Size(b)
  {
  }

  lemma {:induction false} PointsTranslate(buf: Buffer, d: Vec3)
    ensures Points(Translate(buf, d)) == ShiftPoints(Points(buf), d)
    decreases |buf|
  {
    if |buf| >= 3 {
      var t := Translate(buf, d);
      assert t[3..] == Translate(buf[3..], d) by {
        assert forall i :: 0 <= i < |buf| - 3 ==> t[3..][i] == buf[3..][i] + Component(d, i);
      }
      assert VertexAt(t, 0) == Add(VertexAt(buf, 0), d);
      PointsTranslate(buf[3..], d);
    }
  }

  /** Bounds commute with translation. */
  lemma {:induction false} BoundsShift(pts: seq<Vec3>, d: Vec3)
    ensures BoundsOf(ShiftPoints(pts, d)) == Shift(BoundsOf(pts), d)
  {
    if pts != [] {
      var n := |pts| - 1;
      assert ShiftPoints(pts, d)[..n] == ShiftPoints(pts[..n], d);
      BoundsShift(pts[..n], d);
    }
  }

  /** `BoundsOf` over a concatenation is the union of the parts' bounds. */
  lemma {:induction false} BoundsAppend(a: seq<Vec3>, b: seq<Vec3>)
    ensures BoundsOf(a + b) == Union(BoundsOf(a), BoundsOf(b))
    decreases |b|
  {
    if b == [] {
      assert a + b == a;
    } else {
      var n := |b| - 1;
      assert (a + b)[..|a + b| - 1] == a + b[..n];
      assert (a + b)[|a + b| - 1] == b[n];
      BoundsAppend(a, b[..n]);
      ExpandUnion(BoundsOf(a), BoundsOf(b[..n]), b[n]);
    }
  }

  lemma ExpandUnion(x: Box, y: Box, p: Vec3)
    ensures ExpandByPoint(Union(x, y), p) == Union(x, ExpandByPoint(y, p))
  {
  }

  /** Vertices of a concatenation of whole-vertex buffers. */
  lemma {:induction false} PointsAppend(a: Buffer, b: Buffer)
    requires |a| % 3 == 0
    ensures Points(a + b) == Points(a) + Points(b)
    decreases |a|
  {
    if a == [] {
      assert a + b == b;
    } else {
      assert (a + b)[3..] == a[3..] + b;
      assert VertexAt(a + b, 0) == VertexAt(a, 0);
      PointsAppend(a[3..], b);
    }
  }
}
