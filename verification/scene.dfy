/** The scene tree a 3MF file loads into, and the functions of
    frontend/src/App.jsx that walk it: `getAllMeshes`, `createMergedGeometry`,
    `calculateBounds` and `centerGroup`, with three.js's
    `Box3.setFromObject` as the reference they are measured against.
    Object transforms are translations: a node's world offset is the sum of
    the positions on the path from the root down to it. */
module Scene {
  import opened Wrappers
  import opened Vectors
  import opened Volume
  import opened Bounds

  /** A group, or a mesh whose geometry may lack a `position` attribute. */
  datatype Kind = Group | Mesh(positions: Option<Buffer>)

  datatype Node = Node(position: Vec3, kind: Kind, children: seq<Node>)

  /** A mesh found by the walk, with its world offset (`matrixWorld`). */
  datatype Placed = Placed(node: Node, world: Vec3)

  function World(n: Node, parent: Vec3): Vec3
  {
    Add(parent, n.position)
  }

  // ---------------------------------------------------------------------
  // getAllMeshes

  /** `getAllMeshes(object, meshes)`: push the node if it is a mesh, then
      recurse into each child in order, all into the one accumulator. */
  function CollectMeshes(n: Node, parent: Vec3, acc: seq<Placed>): seq<Placed>
    decreases n
  {
    var acc' := if n.kind.Mesh? then acc + [Placed(n, World(n, parent))] else acc;
    CollectEach(n.children, World(n, parent), acc')
  }

  /** `children.forEach(child => getAllMeshes(child, meshes))`. */
  function CollectEach(cs: seq<Node>, parent: Vec3, acc: seq<Placed>): seq<Placed>
    decreases cs
  {
    if cs == [] then acc
    else CollectEach(cs[1..], parent, CollectMeshes(cs[0], parent, acc))
  }

  /** The meshes of a tree in pre-order, stated structurally: the node
      itself, then each child's subtree from left to right. */
  function MeshesOf(n: Node, parent: Vec3): seq<Placed>
    decreases n
  {
    (if n.kind.Mesh? then [Placed(n, World(n, parent))] else [])
      + MeshesOfEach(n.children, World(n, parent))
  }

  function MeshesOfEach(cs: seq<Node>, parent: Vec3): seq<Placed>
    decreases cs
  {
    if cs == [] then [] else MeshesOf(cs[0], parent) + MeshesOfEach(cs[1..], parent)
  }

  /** Number of mesh nodes in a tree. */
  function CountMeshes(n: Node): nat
    decreases n
  {
    (if n.kind.Mesh? then 1 else 0) + CountEach(n.children)
  }

  function CountEach(cs: seq<Node>): nat
    decreases cs
  {
    if cs == [] then 0 else CountMeshes(cs[0]) + CountEach(cs[1..])
  }

  /** The accumulator walk appends exactly the pre-order mesh list. */
  lemma {:induction false} CollectIsPreorder(n: Node, parent: Vec3, acc: seq<Placed>)
    ensures CollectMeshes(n, parent, acc) == acc + MeshesOf(n, parent)
    decreases n
  {
    var w := World(n, parent);
    var acc' := if n.kind.Mesh? then acc + [Placed(n, w)] else acc;
    CollectEachIsPreorder(n.children, w, acc');
  }

  lemma {:induction false} CollectEachIsPreorder(cs: seq<Node>, parent: Vec3, acc: seq<Placed>)
    ensures CollectEach(cs, parent, acc) == acc + MeshesOfEach(cs, parent)
    decreases cs
  {
    if cs != [] {
      CollectIsPreorder(cs[0], parent, acc);
      CollectEachIsPreorder(cs[1..], parent, acc + MeshesOf(cs[0], parent));
    }
  }

  /** Every mesh of the tree is listed once: the list is as long as the tree
      has mesh nodes, and holds nothing but meshes. */
  lemma {:induction false} MeshesCounted(n: Node, parent: Vec3)
    ensures |MeshesOf(n, parent)| == CountMeshes(n)
    ensures forall i :: 0 <= i < |MeshesOf(n, parent)| ==> MeshesOf(n, parent)[i].node.kind.Mesh?
    decreases n
  {
    MeshesEachCounted(n.children, World(n, parent));
  }

  lemma {:induction false} MeshesEachCounted(cs: seq<Node>, parent: Vec3)
    ensures |MeshesOfEach(cs, parent)| == CountEach(cs)
    ensures forall i :: 0 <= i < |MeshesOfEach(cs, parent)| ==> MeshesOfEach(cs, parent)[i].node.kind.Mesh?
    decreases cs
  {
    if cs != [] {
      MeshesCounted(cs[0], parent);
      MeshesEachCounted(cs[1..], parent);
    }
  }

  /** `getAllMeshes(root)`: every mesh of the tree, once each, in pre-order. */
  function GetAllMeshes(root: Node): (r: seq<Placed>)
    ensures r == MeshesOf(root, Origin)
    ensures |r| == CountMeshes(root)
    ensures forall i :: 0 <= i < |r| ==> r[i].node.kind.Mesh?
  {
    CollectIsPreorder(root, Origin, []);
    MeshesCounted(root, Origin);
    CollectMeshes(root, Origin, [])
  }

  // ---------------------------------------------------------------------
  // createMergedGeometry

  /** The clones of the meshes that have a `position` attribute, each moved
      to world space, in walk order; meshes without one are skipped. */
  function Transformed(ms: seq<Placed>): (r: seq<Buffer>)
    ensures |r| <= |ms|
  {
    if ms == [] then []
    else
      var rest := Transformed(ms[1..]);
      match ms[0].node.kind
      case Mesh(Some(buf)) => [Translate(buf, ms[0].world)] + rest
      case _ => rest
  }

  predicate HasPositions(p: Placed)
  {
    p.node.kind.Mesh? && p.node.kind.positions.Some?
  }

  /** How three.js's `mergeGeometries` ends: it returns the merged buffer,
      returns null (attribute sets that do not match), or throws. */
  datatype MergeOutcome = Merged | ReturnedNull | Threw

  /** `createMergedGeometry(root)`, with the outcome of the library merge
      as a parameter. None stands for a null result. */
  function CreateMergedGeometry(root: Node, merge: MergeOutcome): (r: Option<Buffer>)
    ensures r.None? <==>
      (forall i :: 0 <= i < |GetAllMeshes(root)| ==> !HasPositions(GetAllMeshes(root)[i]))
      || merge == ReturnedNull
  {
    var meshes := GetAllMeshes(root);
    TransformedEmpty(meshes);
    if |meshes| == 0 then None
    else
      var geoms := Transformed(meshes);
      if |geoms| == 0 then None
      else
        match merge
        case Merged => Some(Concat(geoms))
        case ReturnedNull => None
        case Threw => Some(geoms[0])
  }

  lemma {:induction false} TransformedEmpty(ms: seq<Placed>)
    ensures Transformed(ms) == [] <==> forall i :: 0 <= i < |ms| ==> !HasPositions(ms[i])
  {
    if ms != [] {
      TransformedEmpty(ms[1..]);
      assert forall i :: 1 <= i < |ms| ==> ms[i] == ms[1..][i - 1];
    }
  }

  /** When the merge throws, the result is the first mesh in walk order
      that has positions, moved to world space; later meshes are dropped
      rather than merged. */
  lemma {:induction false} FallbackIsFirst(ms: seq<Placed>, k: nat)
    requires k < |ms| && HasPositions(ms[k])
    requires forall i :: 0 <= i < k ==> !HasPositions(ms[i])
    ensures Transformed(ms) != []
    ensures Transformed(ms)[0] == Translate(ms[k].node.kind.positions.value, ms[k].world)
  {
    if k > 0 {
      FallbackIsFirst(ms[1..], k - 1);
    }
  }

  /** On a throwing merge, `createMergedGeometry` returns the world-space
      clone of the first mesh, in walk order, that has positions. */
  lemma ThrowFallsBackToFirstMesh(root: Node, k: nat)
    requires k < |GetAllMeshes(root)| && HasPositions(GetAllMeshes(root)[k])
    requires forall i :: 0 <= i < k ==> !HasPositions(GetAllMeshes(root)[i])
    ensures CreateMergedGeometry(root, Threw)
         == Some(Translate(GetAllMeshes(root)[k].node.kind.positions.value, GetAllMeshes(root)[k].world))
  {
    FallbackIsFirst(GetAllMeshes(root), k);
  }

  /** The signed volume of the merged geometry is the sum of the signed
      volumes of the world-space clones, provided each holds whole
      triangles. */
  lemma MergedVolume(root: Node)
    requires AllWhole(Transformed(GetAllMeshes(root)))
    requires CreateMergedGeometry(root, Merged).Some?
    ensures SignedVolume(CreateMergedGeometry(root, Merged).value)
         == SumSigned(Transformed(GetAllMeshes(root)))
  {
    SignedVolumeConcat(Transformed(GetAllMeshes(root)));
  }

  // ---------------------------------------------------------------------
  // Bounds of a scene

  /** The box one mesh contributes in world space; a geometry without
      positions computes an empty box. */
  function MeshBox(positions: Option<Buffer>, world: Vec3): Box
  {
    match positions
    case None => Empty
    case Some(buf) => Shift(FromBuffer(buf), world)
  }

  function OwnBox(n: Node, world: Vec3): Box
  {
    if n.kind.Mesh? then MeshBox(n.kind.positions, world) else Empty
  }

  /** `Box3.expandByObject`: union in the node's own geometry box, then
      each child's, in order. */
  function ExpandByObject(n: Node, parent: Vec3, box: Box): Box
    decreases n
  {
    ExpandEach(n.children, World(n, parent), Union(box, OwnBox(n, World(n, parent))))
  }

  function ExpandEach(cs: seq<Node>, parent: Vec3, box: Box): Box
    decreases cs
  {
    if cs == [] then box else ExpandEach(cs[1..], parent, ExpandByObject(cs[0], parent, box))
  }

  /** `Box3.setFromObject(root)`. */
  function SetFromObject(root: Node): Box
  {
    ExpandByObject(root, Origin, Empty)
  }

  /** Union of the mesh boxes of a walk, in order, onto `box`. */
  function UnionMeshes(box: Box, ms: seq<Placed>): Box
    decreases |ms|
  {
    if ms == [] then box
    else UnionMeshes(Union(box, OwnBox(ms[0].node, ms[0].world)), ms[1..])
  }

  /** `calculateBounds(group)`: the union of the world boxes of the meshes
      `getAllMeshes` finds. A mesh without positions makes the source throw
      (None). */
  function CalculateBounds(root: Node): (r: Option<Box>)
    ensures r.Some? <==> forall i :: 0 <= i < |GetAllMeshes(root)| ==> HasPositions(GetAllMeshes(root)[i])
  {
    var ms := GetAllMeshes(root);
    if forall i :: 0 <= i < |ms| ==> HasPositions(ms[i]) then Some(UnionMeshes(Empty, ms)) else None
  }

  lemma {:induction false} UnionMeshesAppend(box: Box, xs: seq<Placed>, ys: seq<Placed>)
    ensures UnionMeshes(box, xs + ys) == UnionMeshes(UnionMeshes(box, xs), ys)
    decreases |xs|
  {
    if xs == [] {
      assert xs + ys == ys;
    } else {
      assert (xs + ys)[1..] == xs[1..] + ys;
      UnionMeshesAppend(Union(box, OwnBox(xs[0].node, xs[0].world)), xs[1..], ys);
    }
  }

  /** Walking the tree box by box is the same as folding over the mesh
      list: groups contribute nothing. */
  lemma {:induction false} ExpandIsUnionOfMeshes(n: Node, parent: Vec3, box: Box)
    ensures ExpandByObject(n, parent, box) == UnionMeshes(box, MeshesOf(n, parent))
    decreases n
  {
    var w := World(n, parent);
    var own := if n.kind.Mesh? then [Placed(n, w)] else [];
    var box' := Union(box, OwnBox(n, w));
    ExpandEachIsUnionOfMeshes(n.children, w, box');
    UnionMeshesAppend(box, own, MeshesOfEach(n.children, w));
    if !n.kind.Mesh? {
      assert box' == box;
    }
  }

  lemma {:induction false} ExpandEachIsUnionOfMeshes(cs: seq<Node>, parent: Vec3, box: Box)
    ensures ExpandEach(cs, parent, box) == UnionMeshes(box, MeshesOfEach(cs, parent))
    decreases cs
  {
    if cs != [] {
      ExpandIsUnionOfMeshes(cs[0], parent, box);
      ExpandEachIsUnionOfMeshes(cs[1..], parent, ExpandByObject(cs[0], parent, box));
      UnionMeshesAppend(box, MeshesOf(cs[0], parent), MeshesOfEach(cs[1..], parent));
    }
  }

  /** `calculateBounds` agrees with `Box3.setFromObject` whenever it does
      not throw. */
  lemma CalculateBoundsAgrees(root: Node)
    requires CalculateBounds(root).Some?
    ensures CalculateBounds(root).value == SetFromObject(root)
  {
    ExpandIsUnionOfMeshes(root, Origin, Empty);
  }

  lemma UnionAssociates(a: Box, b: Box, c: Box)
    ensures Union(Union(a, b), c) == Union(a, Union(b, c))
  {
  }

  /** Every mesh has positions holding whole vertices. */
  predicate WholeVertices(ms: seq<Placed>)
  {
    forall i :: 0 <= i < |ms| ==> HasPositions(ms[i]) && |ms[i].node.kind.positions.value| % 3 == 0
  }

  /** Folding the mesh boxes is taking the box of the concatenated
      world-space buffers. */
  lemma {:induction false} UnionMeshesIsMergedBox(box: Box, ms: seq<Placed>)
    requires WholeVertices(ms)
    ensures UnionMeshes(box, ms) == Union(box, FromBuffer(Concat(Transformed(ms))))
    decreases |ms|
  {
    if ms != [] {
      var m := ms[0];
      var t := Translate(m.node.kind.positions.value, m.world);
      var rest := Concat(Transformed(ms[1..]));
      assert WholeVertices(ms[1..]) by {
        assert forall i :: 0 <= i < |ms[1..]| ==> ms[1..][i] == ms[i + 1];
      }
      UnionMeshesIsMergedBox(Union(box, OwnBox(m.node, m.world)), ms[1..]);
      assert Concat(Transformed(ms)) == t + rest;
      PointsAppend(t, rest);
      BoundsAppend(Points(t), Points(rest));
      TranslateBounds(m.node.kind.positions.value, m.world);
      UnionAssociates(box, OwnBox(m.node, m.world), FromBuffer(rest));
    }
  }

  /** When every mesh has whole-vertex positions and the library merge
      succeeds, the dimensions `calculateBounds` reports are those of the
      merged geometry the estimate is computed from. */
  lemma MergedBoundsAgree(root: Node)
    requires WholeVertices(GetAllMeshes(root))
    requires CreateMergedGeometry(root, Merged).Some?
    ensures CalculateBounds(root) == Some(FromBuffer(CreateMergedGeometry(root, Merged).value))
  {
    UnionMeshesIsMergedBox(Empty, GetAllMeshes(root));
  }

  // ---------------------------------------------------------------------
  // centerGroup

  /** `centerGroup(group)`: move the root by minus the centre of the scene
      box. Only the root's position changes, by exactly the box's shift;
      an empty box (no mesh with positions) has centre (0,0,0) and leaves
      the position as it was. */
  function CenterGroup(root: Node): (r: Node)
    ensures r.kind == root.kind && r.children == root.children
    ensures Sub(r.position, root.position) == Neg(Center(SetFromObject(root)))
    ensures SetFromObject(root) == Empty ==> r.position == root.position
    ensures SetFromObject(r) == Shift(SetFromObject(root), Neg(Center(SetFromObject(root))))
    ensures Center(SetFromObject(r)) == Origin
    ensures Size(SetFromObject(r)) == Size(SetFromObject(root))
  {
    var c := Center(SetFromObject(root));
    var r := root.(position := Sub(root.position, c));
    ShiftRoot(root, Neg(c));
    assert r == root.(position := Add(root.position, Neg(c)));
    CenteredByShift(SetFromObject(root));
    r
  }

  /** Moving the root moves the whole scene box. */
  lemma ShiftRoot(root: Node, d: Vec3)
    ensures SetFromObject(root.(position := Add(root.position, d)))
         == Shift(SetFromObject(root), d)
  {
    var moved := root.(position := Add(root.position, d));
    assert World(moved, Origin) == Add(World(root, Origin), d);
    ShiftEach(root.children, World(root, Origin), d, Union(Empty, OwnBox(root, World(root, Origin))));
    ShiftOwn(root, World(root, Origin), d);
  }

  lemma ShiftOwn(n: Node, w: Vec3, d: Vec3)
    ensures OwnBox(n, Add(w, d)) == Shift(OwnBox(n, w), d)
  {
    if n.kind.Mesh? && n.kind.positions.Some? {
      ShiftShift(FromBuffer(n.kind.positions.value), w, d);
    }
  }

  lemma ShiftShift(b: Box, w: Vec3, d: Vec3)
    ensures Shift(b, Add(w, d)) == Shift(Shift(b, w), d)
  {
  }

  lemma ShiftUnion(a: Box, b: Box, d: Vec3)
    ensures Union(Shift(a, d), Shift(b, d)) == Shift(Union(a, b), d)
  {
  }

  lemma {:induction false} ShiftExpand(n: Node, parent: Vec3, d: Vec3, box: Box)
    ensures ExpandByObject(n, Add(parent, d), Shift(box, d)) == Shift(ExpandByObject(n, parent, box), d)
    decreases n
  {
    var w := World(n, parent);
    assert World(n, Add(parent, d)) == Add(w, d);
    ShiftOwn(n, w, d);
    ShiftUnion(box, OwnBox(n, w), d);
    ShiftEach(n.children, w, d, Union(box, OwnBox(n, w)));
  }

  lemma {:induction false} ShiftEach(cs: seq<Node>, parent: Vec3, d: Vec3, box: Box)
    ensures ExpandEach(cs, Add(parent, d), Shift(box, d)) == Shift(ExpandEach(cs, parent, box), d)
    decreases cs
  {
    if cs != [] {
      ShiftExpand(cs[0], parent, d, box);
      ShiftEach(cs[1..], parent, d, ExpandByObject(cs[0], parent, box));
    }
  }
}
