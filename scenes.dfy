/**
 * Scenes: the importer's scene graph as plain values, and the order in
 * which the loader visits it.  A node lists indices into the scene's mesh
 * table and child nodes; table entries and children may be null.
 */
module Scenes {
  import opened Common
  import opened Textures
  import opened Meshes

  /** Position, normal and first texture-coordinate channel of one source vertex. */
  datatype SourceVertex = SourceVertex(position: Vec3, normal: Vec3, texCoord: Vec3)

  datatype Face = Face(indices: seq<nat>)

  /**
   * A source mesh.  `hasNormals` and `hasTexCoords` say whether the normal
   * array and texture-coordinate channel 0 exist; when they do not, the
   * corresponding fields of the vertices carry no meaning.
   */
  datatype SceneMesh = SceneMesh(
    vertices: seq<SourceVertex>,
    hasNormals: bool,
    hasTexCoords: bool,
    faces: seq<Face>,
    materialIndex: nat)

  /** The relative texture paths of each kind, in slot order; a missing kind has no slots. */
  datatype Material = Material(slots: map<TextureKind, seq<string>>)

  datatype Node = Node(meshRefs: seq<nat>, children: seq<Option<Node>>)

  datatype Scene = Scene(
    meshes: seq<Option<SceneMesh>>,
    materials: seq<Option<Material>>,
    root: Option<Node>,
    incomplete: bool)

  function Slots(material: Material, kind: TextureKind): seq<string> {
    if kind in material.slots then material.slots[kind] else []
  }

  /** Every mesh reference of the node and of its non-null descendants indexes the mesh table. */
  predicate RefsInScene(refs: seq<nat>, scene: Scene) {
    forall i :: 0 <= i < |refs| ==> refs[i] < |scene.meshes|
  }

  predicate NodeInScene(node: Node, scene: Scene)
    decreases node
  {
    && RefsInScene(node.meshRefs, scene)
    && (forall i :: 0 <= i < |node.children| && node.children[i].Some? ==>
          NodeInScene(node.children[i].value, scene))
  }

  /** The conversion stops at the first vertex when the mesh has vertices but no normals. */
  predicate Truncated(src: SceneMesh) {
    |src.vertices| > 0 && !src.hasNormals
  }

  /**
   * The loader reads a mesh's material index only when it converts the mesh
   * in full; that index must then lie within the material table.
   */
  predicate MaterialResolves(src: SceneMesh, scene: Scene) {
    Truncated(src) || src.materialIndex < |scene.materials|
  }

  /** Every non-null mesh that `refs` name has a material index the loader can read. */
  predicate RefsMaterialsResolve(refs: seq<nat>, scene: Scene) {
    forall i :: 0 <= i < |refs| && refs[i] < |scene.meshes| && scene.meshes[refs[i]].Some? ==> MaterialResolves(scene.meshes[refs[i]].value, scene)
  }

  /** The same for the meshes of the node and of its non-null descendants. */
  predicate MaterialsResolve(node: Node, scene: Scene)
    decreases node
  {
    && RefsMaterialsResolve(node.meshRefs, scene)
    && (forall i :: 0 <= i < |node.children| && node.children[i].Some? ==>
          MaterialsResolve(node.children[i].value, scene))
  }

  /** The non-null meshes referenced by `refs`, in reference order. */
  function OwnMeshes(refs: seq<nat>, scene: Scene): (ms: seq<SceneMesh>)
    requires RefsInScene(refs, scene)
    ensures |ms| <= |refs|
    ensures (forall i :: 0 <= i < |refs| ==> scene.meshes[refs[i]].Some?) ==> |ms| == |refs|
  {
    if refs == [] then []
    else
      var last := scene.meshes[refs[|refs| - 1]];
      OwnMeshes(refs[..|refs| - 1], scene) + (if last.Some? then [last.value] else [])
  }

  /** The positions of `refs` whose mesh-table entry is non-null. */
  function NonNullPositions(refs: seq<nat>, scene: Scene): set<nat>
    requires RefsInScene(refs, scene)
  {
    set i: nat | i < |refs| && scene.meshes[refs[i]].Some?
  }

  /**
   * A node's own meshes skip exactly the null entries: there is one per
   * reference to a non-null entry, and they are the meshes those references
   * name.
   */
  lemma OwnMeshesAreNonNull(refs: seq<nat>, scene: Scene)
    requires RefsInScene(refs, scene)
    ensures |OwnMeshes(refs, scene)| == |NonNullPositions(refs, scene)|
    ensures forall m :: m in OwnMeshes(refs, scene) <==> exists i :: 0 <= i < |refs| && scene.meshes[refs[i]] == Some(m)
  {
    OwnMeshesCount(refs, scene);
    OwnMeshesMembers(refs, scene);
  }

  lemma {:induction false} OwnMeshesCount(refs: seq<nat>, scene: Scene)
    requires RefsInScene(refs, scene)
    ensures |OwnMeshes(refs, scene)| == |NonNullPositions(refs, scene)|
  {
    if refs != [] {
      var n := |refs| - 1;
      var init := refs[..n];
      assert RefsInScene(init, scene);
      OwnMeshesCount(init, scene);
      assert forall i :: 0 <= i < n ==> init[i] == refs[i];
      if scene.meshes[refs[n]].Some? {
        assert NonNullPositions(refs, scene) == NonNullPositions(init, scene) + {n};
      } else {
        assert NonNullPositions(refs, scene) == NonNullPositions(init, scene);
      }
    }
  }

  lemma {:induction false} OwnMeshesMembers(refs: seq<nat>, scene: Scene)
    requires RefsInScene(refs, scene)
    ensures forall m :: m in OwnMeshes(refs, scene) <==> exists i :: 0 <= i < |refs| && scene.meshes[refs[i]] == Some(m)
  {
    if refs != [] {
      var n := |refs| - 1;
      var init := refs[..n];
      assert RefsInScene(init, scene);
      OwnMeshesMembers(init, scene);
      forall m ensures m in OwnMeshes(refs, scene) <==> exists i :: 0 <= i < |refs| && scene.meshes[refs[i]] == Some(m) {
        if m in OwnMeshes(refs, scene) {
          if m in OwnMeshes(init, scene) {
            var i :| 0 <= i < |init| && scene.meshes[init[i]] == Some(m);
            assert scene.meshes[refs[i]] == Some(m);
          } else {
            assert scene.meshes[refs[n]] == Some(m);
          }
        }
        if exists i :: 0 <= i < |refs| && scene.meshes[refs[i]] == Some(m) {
          var i :| 0 <= i < |refs| && scene.meshes[refs[i]] == Some(m);
          if i < n {
            assert scene.meshes[init[i]] == Some(m);
          }
        }
      }
    }
  }

  /** The own meshes of two reference lists, one after the other, are those of their concatenation. */
  lemma {:induction false} OwnMeshesAppend(a: seq<nat>, b: seq<nat>, scene: Scene)
    requires RefsInScene(a, scene) && RefsInScene(b, scene)
    ensures RefsInScene(a + b, scene)
    ensures OwnMeshes(a + b, scene) == OwnMeshes(a, scene) + OwnMeshes(b, scene)
    decreases |b|
  {
    assert forall i :: 0 <= i < |a + b| ==> (a + b)[i] == if i < |a| then a[i] else b[i - |a|];
    if b == [] {
      assert a + b == a;
    } else {
      var b' := b[..|b| - 1];
      assert RefsInScene(b', scene);
      OwnMeshesAppend(a, b', scene);
      assert (a + b)[..|a + b| - 1] == a + b';
    }
  }

  /**
   * The source meshes in the order the loader converts them: the node's own
   * meshes, then the flattening of each non-null child, left to right.
   */
  function Flatten(node: Node, scene: Scene): seq<SceneMesh>
    requires NodeInScene(node, scene)
    decreases node, |node.children| + 1
  {
    OwnMeshes(node.meshRefs, scene) + FlattenChildren(node, |node.children|, scene)
  }

  /** The flattening of the first `k` children of `node`. */
  function FlattenChildren(node: Node, k: nat, scene: Scene): seq<SceneMesh>
    requires NodeInScene(node, scene) && k <= |node.children|
    decreases node, k
  {
    if k == 0 then []
    else
      var child := node.children[k - 1];
      FlattenChildren(node, k - 1, scene) + (if child.Some? then Flatten(child.value, scene) else [])
  }

  /** The non-null nodes reachable from `node`, in depth-first pre-order. */
  function Nodes(node: Node): (ns: seq<Node>)
    ensures |ns| >= 1 && ns[0] == node
    decreases node, |node.children| + 1
  {
    [node] + NodesOfChildren(node, |node.children|)
  }

  function NodesOfChildren(node: Node, k: nat): seq<Node>
    requires k <= |node.children|
    decreases node, k
  {
    if k == 0 then []
    else
      var child := node.children[k - 1];
      NodesOfChildren(node, k - 1) + (if child.Some? then Nodes(child.value) else [])
  }

  /** Every node in the list lies in the scene. */
  predicate AllInScene(ns: seq<Node>, scene: Scene) {
    forall i :: 0 <= i < |ns| ==> NodeInScene(ns[i], scene)
  }

  /** The own meshes of each node of `ns`, concatenated in list order. */
  function OwnMeshesOfAll(ns: seq<Node>, scene: Scene): seq<SceneMesh>
    requires AllInScene(ns, scene)
  {
    if ns == [] then []
    else OwnMeshesOfAll(ns[..|ns| - 1], scene) + OwnMeshes(ns[|ns| - 1].meshRefs, scene)
  }

  lemma AllInScenePrefix(ns: seq<Node>, n: nat, scene: Scene)
    requires AllInScene(ns, scene) && n <= |ns|
    ensures AllInScene(ns[..n], scene)
  {
  }

  lemma AllInSceneAppend(a: seq<Node>, b: seq<Node>, scene: Scene)
    requires AllInScene(a, scene) && AllInScene(b, scene)
    ensures AllInScene(a + b, scene)
  {
    forall i | 0 <= i < |a + b|
      ensures NodeInScene((a + b)[i], scene)
    {
      if i < |a| {
        assert (a + b)[i] == a[i];
      } else {
        assert (a + b)[i] == b[i - |a|];
      }
    }
  }

  lemma {:induction false} OwnMeshesOfAllAppend(a: seq<Node>, b: seq<Node>, scene: Scene)
    requires AllInScene(a, scene) && AllInScene(b, scene)
    ensures AllInScene(a + b, scene)
    ensures OwnMeshesOfAll(a + b, scene) == OwnMeshesOfAll(a, scene) + OwnMeshesOfAll(b, scene)
    decreases |b|
  {
    AllInSceneAppend(a, b, scene);
    if b == [] {
      assert a + b == a;
    } else {
      var b' := b[..|b| - 1];
      AllInScenePrefix(b, |b| - 1, scene);
      OwnMeshesOfAllAppend(a, b', scene);
      assert (a + b)[..|a + b| - 1] == a + b';
    }
  }

  /** The mesh references of the nodes of `ns`, node after node. */
  function RefsOf(ns: seq<Node>): seq<nat> {
    if ns == [] then [] else RefsOf(ns[..|ns| - 1]) + ns[|ns| - 1].meshRefs
  }

  lemma {:induction false} OwnMeshesOfAllRefs(ns: seq<Node>, scene: Scene)
    requires AllInScene(ns, scene)
    ensures RefsInScene(RefsOf(ns), scene)
    ensures OwnMeshesOfAll(ns, scene) == OwnMeshes(RefsOf(ns), scene)
  {
    if ns != [] {
      var init := ns[..|ns| - 1];
      assert AllInScene(init, scene);
      OwnMeshesOfAllRefs(init, scene);
      assert NodeInScene(ns[|ns| - 1], scene);
      OwnMeshesAppend(RefsOf(init), ns[|ns| - 1].meshRefs, scene);
    }
  }

  /**
   * The meshes a node yields are one per non-null reference held by the
   * node and its reachable non-null descendants: null references and null
   * children contribute nothing.
   */
  lemma FlattenCount(node: Node, scene: Scene)
    requires NodeInScene(node, scene)
    ensures RefsInScene(RefsOf(Nodes(node)), scene)
    ensures Flatten(node, scene) == OwnMeshes(RefsOf(Nodes(node)), scene)
    ensures |Flatten(node, scene)| == |NonNullPositions(RefsOf(Nodes(node)), scene)|
  {
    FlattenIsPreOrder(node, scene);
    OwnMeshesOfAllRefs(Nodes(node), scene);
    OwnMeshesAreNonNull(RefsOf(Nodes(node)), scene);
  }

  /**
   * Flattening is pre-order: it is the concatenation of the own meshes of
   * every reachable non-null node, taken in depth-first pre-order, so a
   * node's meshes come before any of its descendants' and siblings are
   * visited left to right.
   */
  lemma {:induction false} FlattenIsPreOrder(node: Node, scene: Scene)
    requires NodeInScene(node, scene)
    ensures AllInScene(Nodes(node), scene)
    ensures Flatten(node, scene) == OwnMeshesOfAll(Nodes(node), scene)
    decreases node, |node.children| + 1
  {
    var k := |node.children|;
    var below := NodesOfChildren(node, k);
    ChildrenArePreOrder(node, k, scene);
    assert AllInScene([node], scene);
    OwnMeshesOfAllAppend([node], below, scene);
    assert [node][..0] == [];
    assert OwnMeshesOfAll([node], scene) == OwnMeshes(node.meshRefs, scene);
    assert Nodes(node) == [node] + below;
  }

  lemma {:induction false} ChildrenArePreOrder(node: Node, k: nat, scene: Scene)
    requires NodeInScene(node, scene) && k <= |node.children|
    ensures AllInScene(NodesOfChildren(node, k), scene)
    ensures FlattenChildren(node, k, scene) == OwnMeshesOfAll(NodesOfChildren(node, k), scene)
    decreases node, k
  {
    if k > 0 {
      ChildrenArePreOrder(node, k - 1, scene);
      var child := node.children[k - 1];
      if child.Some? {
        FlattenIsPreOrder(child.value, scene);
        OwnMeshesOfAllAppend(NodesOfChildren(node, k - 1), Nodes(child.value), scene);
      } else {
        OwnMeshesOfAllAppend(NodesOfChildren(node, k - 1), [], scene);
      }
    }
  }

  /** A node whose references are all non-null contributes one mesh per reference, in order. */
  lemma {:induction false} OwnMeshesWithoutNulls(refs: seq<nat>, scene: Scene)
    requires RefsInScene(refs, scene)
    requires forall i :: 0 <= i < |refs| ==> scene.meshes[refs[i]].Some?
    ensures OwnMeshes(refs, scene) == seq(|refs|, i requires 0 <= i < |refs| && refs[i] < |scene.meshes| && scene.meshes[refs[i]].Some? => scene.meshes[refs[i]].value)
  {
    if refs != [] {
      OwnMeshesWithoutNulls(refs[..|refs| - 1], scene);
    }
  }

  /** Null mesh references and null children add nothing: the two-child example loads exactly two meshes, in child order. */
  lemma TwoChildrenExample(m1: SceneMesh, m2: SceneMesh)
    ensures
      var scene := Scene([Some(m1), None, Some(m2)], [], None, false);
      var root := Node([], [Some(Node([0, 1], [])), None, Some(Node([2], [None]))]);
      NodeInScene(root, scene) && Flatten(root, scene) == [m1, m2]
  {
    var scene := Scene([Some(m1), None, Some(m2)], [], None, false);
    var left := Node([0, 1], []);
    var right := Node([2], [None]);
    var root := Node([], [Some(left), None, Some(right)]);
    assert NodeInScene(left, scene);
    assert NodeInScene(right, scene);
    assert NodeInScene(root, scene);
    calc {
      Flatten(left, scene);
      OwnMeshes([0, 1], scene);
      { assert [0, 1][..1] == [0]; }
      OwnMeshes([0], scene) + [];
      [m1];
    }
    calc {
      Flatten(right, scene);
      OwnMeshes([2], scene) + FlattenChildren(right, 1, scene);
      [m2];
    }
    calc {
      Flatten(root, scene);
      FlattenChildren(root, 3, scene);
      FlattenChildren(root, 2, scene) + [m2];
      FlattenChildren(root, 1, scene) + [m2];
      [m1, m2];
    }
  }
}
