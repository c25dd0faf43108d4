/** Enclosed volume of a triangle soup, as `computeGeometryVolume` computes
    it (frontend/src/App.jsx). A buffer is the flat `position` array: three
    coordinates per vertex, three vertices (nine floats) per triangle. */
module Volume {
  import opened Vectors

  type Buffer = seq<real>

  /** Floats per triangle: three vertices of three coordinates each. */
  const TriangleStride: nat := 9

  /** The vertex whose x coordinate sits at index `i`, for a vertex that
      lies wholly inside the buffer. */
  function VertexAt(buf: Buffer, i: nat): Vec3
    requires i + 3 <= |buf|
  {
    Vec3(buf[i], buf[i + 1], buf[i + 2])
  }

  /** Coordinate `i` as the volume loop reads it. A read past the end of
      the array gives `undefined`, and `new Vector3(x = 0, y = 0, z = 0)`
      replaces an `undefined` argument with 0. */
  function Coord(buf: Buffer, i: nat): real
  {
    if i < |buf| then buf[i] else 0.0
  }

  /** The vertex the loop builds from indices `i`, `i + 1`, `i + 2`. */
  function PaddedVertex(buf: Buffer, i: nat): Vec3
  {
    Vec3(Coord(buf, i), Coord(buf, i + 1), Coord(buf, i + 2))
  }

  /** Signed volume of the tetrahedron spanned by the origin and the
      triangle starting at index `i`: `v0 · (v1 × v2) / 6`. */
  function Tetrahedron(buf: Buffer, i: nat): real
  {
    Triple(PaddedVertex(buf, i), PaddedVertex(buf, i + 3), PaddedVertex(buf, i + 6)) / 6.0
  }

  /** The buffer holds whole triangles only. */
  predicate WholeTriangles(buf: Buffer)
  {
    |buf| % TriangleStride == 0
  }

  /** The buffer after its first triangle; empty when the first triangle
      is the last one, whole or partial. */
  function Rest(buf: Buffer): (r: Buffer)
    ensures buf != [] ==> |r| < |buf|
  {
    if |buf| <= TriangleStride then [] else buf[TriangleStride..]
  }

  /** Sum of the signed tetrahedron volumes of the triangles the loop
      visits, first triangle first; a partial last triangle is read
      zero-padded. */
  function SignedVolume(buf: Buffer): real
    decreases |buf|
  {
    if buf == [] then 0.0 else Tetrahedron(buf, 0) + SignedVolume(Rest(buf))
  }

  function Abs(r: real): (a: real)
    ensures a >= 0.0
    ensures a == r || a == -r
  {
    if r < 0.0 then -r else r
  }

  /** The volume `computeGeometryVolume` reports: the absolute value of the
      signed sum. */
  function GeometryVolume(buf: Buffer): (r: real)
    ensures r >= 0.0
    ensures buf == [] ==> r == 0.0
  {
    Abs(SignedVolume(buf))
  }

  /** The loop of `computeGeometryVolume`, stepping nine floats at a time
      and accumulating each triangle's signed tetrahedron volume. */
  method ComputeGeometryVolume(buf: Buffer) returns (r: real)
    ensures r >= 0.0
    ensures r == Abs(SignedVolume(buf))
  {
    var volume := 0.0;
    var i := 0;
    assert Suffix(buf, 0) == buf;
    while i < |buf|
      invariant volume + SignedVolume(Suffix(buf, i)) == SignedVolume(buf)
      decreases |buf| - i
    {
      LoopStep(buf, i);
      volume := volume + Tetrahedron(buf, i);
      i := i + TriangleStride;
    }
    return Abs(volume);
  }

  /** The part of the buffer the loop has yet to visit from index `i`. */
  function Suffix(buf: Buffer, i: nat): Buffer
  {
    if i < |buf| then buf[i..] else []
  }

  /** The suffix from `i` sums to the triangle at `i` plus the suffix from
      `i + 9`. */
  lemma LoopStep(buf: Buffer, i: nat)
    requires i < |buf|
    ensures SignedVolume(Suffix(buf, i))
         == Tetrahedron(buf, i) + SignedVolume(Suffix(buf, i + TriangleStride))
  {
    SuffixStep(buf, i);
    FirstStep(buf[i..]);
  }

  /** One step of the loop seen on the suffix from `i`: its first triangle
      is the triangle at `i`, and what follows it is the suffix from
      `i + 9`, or nothing once the buffer is exhausted. */
  lemma SuffixStep(buf: Buffer, i: nat)
    requires i < |buf|
    ensures Tetrahedron(buf[i..], 0) == Tetrahedron(buf, i)
    ensures i + TriangleStride <= |buf| ==> Rest(buf[i..]) == buf[i + TriangleStride..]
    ensures i + TriangleStride > |buf| ==> Rest(buf[i..]) == []
  {
    var t := buf[i..];
    assert forall k: nat :: Coord(t, k) == Coord(buf, i + k);
    assert PaddedVertex(t, 0) == PaddedVertex(buf, i);
    assert PaddedVertex(t, 3) == PaddedVertex(buf, i + 3);
    assert PaddedVertex(t, 6) == PaddedVertex(buf, i + 6);
    if i + TriangleStride < |buf| {
      assert t[TriangleStride..] == buf[i + TriangleStride..];
    }
  }

  /** A triangle missing its last vertex, or its last two, spans no
      volume: a zero vertex makes the triple product vanish. */
  lemma MissingVertexVanishes(buf: Buffer)
    requires |buf| < TriangleStride && |buf| % 3 == 0
    ensures Tetrahedron(buf, 0) == 0.0
  {
    assert PaddedVertex(buf, 6) == Origin;
  }

  /** For a buffer of whole vertices the zero-padded read agrees with the
      sum over its whole triangles only: a trailing partial triangle
      contributes nothing. */
  lemma {:induction false} WholeVerticesIgnorePadding(buf: Buffer)
    requires |buf| % 3 == 0
    ensures SignedVolume(buf) == SignedVolume(buf[..|buf| - |buf| % TriangleStride])
    decreases |buf|
  {
    var r := |buf| % TriangleStride;
    if r == 0 {
      assert buf[..|buf|] == buf;
    } else if |buf| < TriangleStride {
      MissingVertexVanishes(buf);
      assert buf[..0] == [];
    } else {
      var tail := buf[TriangleStride..];
      var p := buf[..|buf| - r];
      var q := tail[..|tail| - r];
      assert SignedVolume(buf) == Tetrahedron(buf, 0) + SignedVolume(tail) by {
        assert Rest(buf) == tail;
      }
      assert SignedVolume(p) == Tetrahedron(p, 0) + SignedVolume(q) by {
        assert |p| >= TriangleStride;
        if |p| == TriangleStride {
          assert q == [];
        } else {
          assert Rest(p) == q;
        }
      }
      PrefixKeepsFirstTriangle(buf, |buf| - r);
      assert SignedVolume(tail) == SignedVolume(q) by {
        DropTriangleKeepsRemainder(|buf|);
        WholeVerticesIgnorePadding(tail);
      }
    }
  }

  lemma DropTriangleKeepsRemainder(n: nat)
    requires n >= TriangleStride
    ensures (n - TriangleStride) % TriangleStride == n % TriangleStride
    ensures (n - TriangleStride) % 3 == n % 3
  {
  }

  /** Cutting the buffer after its first triangle leaves that triangle's
      volume unchanged. */
  lemma PrefixKeepsFirstTriangle(buf: Buffer, n: nat)
    requires TriangleStride <= n <= |buf|
    ensures Tetrahedron(buf[..n], 0) == Tetrahedron(buf, 0)
  {
    var p := buf[..n];
    assert PaddedVertex(p, 0) == PaddedVertex(buf, 0);
    assert PaddedVertex(p, 3) == PaddedVertex(buf, 3);
    assert PaddedVertex(p, 6) == PaddedVertex(buf, 6);
  }

  /** One triangle whose third vertex has only its x coordinate,
      `[0,1,0, 0,0,1, 1]`: the missing y and z are read as 0, so the third
      vertex is (1,0,0) and the volume is 1/6, not NaN. */
  lemma PartialTriangleExample()
    ensures GeometryVolume([0.0, 1.0, 0.0, 0.0, 0.0, 1.0, 1.0]) == 1.0 / 6.0
  {
    var buf := [0.0, 1.0, 0.0, 0.0, 0.0, 1.0, 1.0];
    assert PaddedVertex(buf, 0) == Vec3(0.0, 1.0, 0.0);
    assert PaddedVertex(buf, 3) == Vec3(0.0, 0.0, 1.0);
    assert PaddedVertex(buf, 6) == Vec3(1.0, 0.0, 0.0);
    assert Rest(buf) == [];
  }

  /** Every coordinate multiplied by `s`. */
  function ScaleBuffer(buf: Buffer, s: real): (r: Buffer)
    ensures |r| == |buf|
    ensures forall i :: 0 <= i < |buf| ==> r[i] == s * buf[i]
  {
    seq(|buf|, i requires 0 <= i < |buf| => s * buf[i])
  }

  /** `k · x`, kept as a function application: the solver matches equal
      arguments of an application, which it does not do inside a product of
      two non-constant terms. */
  function Times(k: real, x: real): real
  {
    k * x
  }

  function Cube(r: real): real
  {
    r * r * r
  }

  lemma TimesDistributes(k: real, a: real, b: real)
    ensures Times(k, a + b) == Times(k, a) + Times(k, b)
  {
  }

  /** Scaling the coordinates by `s` scales the signed volume by `s³`. */
  lemma SignedVolumeScales(buf: Buffer, s: real)
    ensures SignedVolume(ScaleBuffer(buf, s)) == s * s * s * SignedVolume(buf)
  {
    SignedVolumeScalesBy(buf, s);
  }

  lemma {:induction false} SignedVolumeScalesBy(buf: Buffer, s: real)
    ensures SignedVolume(ScaleBuffer(buf, s)) == Times(s * s * s, SignedVolume(buf))
    decreases |buf|
  {
    if buf != [] {
      var k := s * s * s;
      var rest := Rest(buf);
      ScaledFirstStep(buf, s);
      SignedVolumeScalesBy(rest, s);
      FirstStep(buf);
      CombineScaled(k, Tetrahedron(buf, 0), SignedVolume(rest), SignedVolume(buf),
                    SignedVolume(ScaleBuffer(rest, s)), SignedVolume(ScaleBuffer(buf, s)));
    }
  }

  /** The unfolding of `SignedVolume` on a non-empty buffer. */
  lemma FirstStep(buf: Buffer)
    requires buf != []
    ensures SignedVolume(buf) == Tetrahedron(buf, 0) + SignedVolume(Rest(buf))
  {
  }

  /** One step of the scaled sum: the scaled first triangle, then the
      scaled rest. */
  lemma ScaledFirstStep(buf: Buffer, s: real)
    requires buf != []
    ensures SignedVolume(ScaleBuffer(buf, s))
         == Times(s * s * s, Tetrahedron(buf, 0)) + SignedVolume(ScaleBuffer(Rest(buf), s))
  {
    var sb := ScaleBuffer(buf, s);
    assert sb != [];
    FirstStep(sb);
    ScaledTetrahedron(buf, s);
    ScaleRest(buf, s);
  }

  lemma CombineScaled(k: real, t: real, r: real, total: real, sr: real, stotal: real)
    requires total == t + r
    requires stotal == Times(k, t) + sr
    requires sr == Times(k, r)
    ensures stotal == Times(k, total)
  {
    TimesDistributes(k, t, r);
  }

  lemma ScaleRest(buf: Buffer, s: real)
    ensures Rest(ScaleBuffer(buf, s)) == ScaleBuffer(Rest(buf), s)
  {
    if |buf| > TriangleStride {
      var rest := buf[TriangleStride..];
      assert forall j :: 0 <= j < |rest| ==>
        ScaleBuffer(buf, s)[TriangleStride..][j] == ScaleBuffer(rest, s)[j];
    }
  }

  /** Scaling reads as scaling even past the end: the padding 0 scales to
      0. */
  lemma ScaledVertex(buf: Buffer, s: real, i: nat)
    ensures PaddedVertex(ScaleBuffer(buf, s), i) == Scale(PaddedVertex(buf, i), s)
  {
  }

  lemma ScaledTetrahedron(buf: Buffer, s: real)
    ensures Tetrahedron(ScaleBuffer(buf, s), 0) == Times(s * s * s, Tetrahedron(buf, 0))
  {
    ScaledVertex(buf, s, 0);
    ScaledVertex(buf, s, 3);
    ScaledVertex(buf, s, 6);
    TetraScales(PaddedVertex(buf, 0), PaddedVertex(buf, 3), PaddedVertex(buf, 6), s);
  }

  /** Tetrahedron volume is homogeneous of degree three in the vertices. */
  lemma TetraScales(a: Vec3, b: Vec3, c: Vec3, s: real)
    ensures Triple(Scale(a, s), Scale(b, s), Scale(c, s)) / 6.0
         == Times(s * s * s, Triple(a, b, c) / 6.0)
  {
    var k := s * s * s;
    TripleScales(a, b, c, s);
    DivideBySix(k, Triple(a, b, c));
    assert Times(k, Triple(a, b, c) / 6.0) == k * (Triple(a, b, c) / 6.0);
  }

  lemma DivideBySix(k: real, t: real)
    ensures (k * t) / 6.0 == k * (t / 6.0)
  {
  }

  /** The identity `calculateEstimate` relies on when it multiplies the
      computed volume by `scaleFactor³` instead of rescaling the geometry:
      scaling every coordinate by `s` scales the reported volume by `|s|³`,
      for every buffer, a partial last triangle included. */
  lemma VolumeScales(buf: Buffer, s: real)
    ensures GeometryVolume(ScaleBuffer(buf, s)) == Cube(Abs(s)) * GeometryVolume(buf)
  {
    VolumeScalesTimes(buf, s);
    TimesIs(Cube(Abs(s)), GeometryVolume(buf));
  }

  /** `VolumeScales` with the product kept behind `Times`. */
  lemma VolumeScalesTimes(buf: Buffer, s: real)
    ensures GeometryVolume(ScaleBuffer(buf, s)) == Times(Cube(Abs(s)), GeometryVolume(buf))
  {
    AbsSignedVolumeScales(buf, s);
  }

  lemma TimesIs(k: real, v: real)
    ensures Times(k, v) == k * v
  {
  }

  lemma AbsSignedVolumeScales(buf: Buffer, s: real)
    ensures Abs(SignedVolume(ScaleBuffer(buf, s)))
         == Times(Cube(Abs(s)), Abs(SignedVolume(buf)))
  {
    SignedVolumeScalesBy(buf, s);
    AbsCube(s, SignedVolume(buf));
  }

  lemma AbsCube(s: real, v: real)
    ensures Abs(Times(s * s * s, v)) == Times(Cube(Abs(s)), Abs(v))
  {
    if s < 0.0 {
      NegativeCube(s, v);
    }
  }

  lemma NegativeCube(s: real, v: real)
    requires s < 0.0
    ensures s * s * s * v == -((-s) * (-s) * (-s) * v)
  {
  }

  /** Volume is additive over concatenation after a whole-triangle buffer:
      the signed (pre-absolute-value) volume of `a + b` is the sum of
      theirs. */
  lemma {:induction false} SignedVolumeAppend(a: Buffer, b: Buffer)
    requires WholeTriangles(a)
    ensures SignedVolume(a + b) == SignedVolume(a) + SignedVolume(b)
    decreases |a|
  {
    if |a| == 0 {
      assert a + b == b;
    } else {
      assert Rest(a + b) == Rest(a) + b by {
        if |a| > TriangleStride {
          assert (a + b)[TriangleStride..] == a[TriangleStride..] + b;
        } else if b != [] {
          assert (a + b)[TriangleStride..] == b;
        }
      }
      assert Tetrahedron(a + b, 0) == Tetrahedron(a, 0) by {
        assert PaddedVertex(a + b, 0) == PaddedVertex(a, 0);
        assert PaddedVertex(a + b, 3) == PaddedVertex(a, 3);
        assert PaddedVertex(a + b, 6) == PaddedVertex(a, 6);
      }
      SignedVolumeAppend(Rest(a), b);
    }
  }

  /** Concatenation of a sequence of buffers, in order. */
  function Concat(parts: seq<Buffer>): (r: Buffer)
    ensures |parts| == 1 ==> r == parts[0]
  {
    if parts == [] then [] else parts[0] + Concat(parts[1..])
  }

  function SumSigned(parts: seq<Buffer>): real
  {
    if parts == [] then 0.0 else SignedVolume(parts[0]) + SumSigned(parts[1..])
  }

  predicate AllWhole(parts: seq<Buffer>)
  {
    forall k :: 0 <= k < |parts| ==> WholeTriangles(parts[k])
  }

  /** The signed volume of a merge of whole-triangle buffers is the sum of
      the parts' signed volumes. */
  lemma {:induction false} SignedVolumeConcat(parts: seq<Buffer>)
    requires AllWhole(parts)
    ensures WholeTriangles(Concat(parts))
    ensures SignedVolume(Concat(parts)) == SumSigned(parts)
  {
    if parts != [] {
      SignedVolumeConcat(parts[1..]);
      WholeAppend(parts[0], Concat(parts[1..]));
      SignedVolumeAppend(parts[0], Concat(parts[1..]));
    }
  }

  lemma WholeAppend(a: Buffer, b: Buffer)
    requires WholeTriangles(a) && WholeTriangles(b)
    ensures WholeTriangles(a + b)
  {
  }
}
