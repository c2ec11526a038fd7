/** The scene the Assimp importer hands to the model loader, as plain data:
    a node tree whose nodes refer to meshes by index, the meshes with their
    vertex, normal, texture-coordinate and face arrays, and the materials
    with their diffuse and specular texture slots. */
module Scene {
  import opened Geometry
  import opened Wrappers
  import opened Sequences

  /** AI_SCENE_FLAGS_INCOMPLETE in Assimp's scene.h. */
  const AI_SCENE_FLAGS_INCOMPLETE: nat := 1

  /** aiMesh: mTextureCoords[0] is None when the first channel is absent;
      each face is its mIndices list; mMaterialIndex indexes the materials. */
  datatype AiMesh = AiMesh(
    vertices: seq<Vec3>,
    normals: seq<Vec3>,
    textureCoords0: Option<seq<Vec3>>,
    faces: seq<seq<nat>>,
    materialIndex: nat)

  /** aiMaterial, reduced to the texture paths of its diffuse and specular
      slots, in slot order (GetTextureCount / GetTexture). */
  datatype AiMaterial = AiMaterial(diffuse: seq<string>, specular: seq<string>)

  /** aiNode: mMeshes indexes the scene's meshes; mChildren are the subtrees. */
  datatype AiNode = AiNode(meshes: seq<nat>, children: seq<AiNode>)

  /** aiScene: mRootNode may be null; mFlags as the importer set it. */
  datatype AiScene = AiScene(root: Option<AiNode>, meshes: seq<AiMesh>, materials: seq<AiMaterial>, flags: nat)

  /** What Assimp guarantees of a mesh and what processMesh relies on when it
      indexes the arrays without checking. */
  predicate MeshWellFormed(s: AiScene, m: AiMesh)
  {
    && |m.normals| == |m.vertices|
    && (m.textureCoords0.Some? ==> |m.textureCoords0.value| >= |m.vertices|)
    && m.materialIndex < |s.materials|
  }

  predicate MeshesWellFormed(s: AiScene)
  {
    forall i :: 0 <= i < |s.meshes| ==> MeshWellFormed(s, s.meshes[i])
  }

  /** Every index in the list names a mesh of the scene. */
  predicate MeshIndices(s: AiScene, indices: seq<nat>)
  {
    forall k :: 0 <= k < |indices| ==> indices[k] < |s.meshes|
  }

  /** Every mesh index in the subtree names a mesh of the scene. */
  predicate NodeWellFormed(s: AiScene, n: AiNode)
    decreases n
  {
    && (forall i :: 0 <= i < |n.meshes| ==> n.meshes[i] < |s.meshes|)
    && (forall i :: 0 <= i < |n.children| ==> NodeWellFormed(s, n.children[i]))
  }

  predicate WellFormed(s: AiScene)
  {
    MeshesWellFormed(s) && (s.root.Some? ==> NodeWellFormed(s, s.root.value))
  }

  /** The mesh indices of a subtree in pre-order: the node's own meshes,
      then each child's subtree in child order. */
  function Preorder(n: AiNode): seq<nat>
    decreases n
  {
    n.meshes + Concat(ChildrenPreorder(n))
  }

  function ChildrenPreorder(n: AiNode): (r: seq<seq<nat>>)
    ensures |r| == |n.children|
    decreases n, 0
  {
    seq(|n.children|, i requires 0 <= i < |n.children| => Preorder(n.children[i]))
  }

  /** The pre-order list of a well-formed subtree names only meshes of the scene. */
  lemma {:induction false} PreorderInRange(s: AiScene, n: AiNode)
    requires NodeWellFormed(s, n)
    ensures MeshIndices(s, Preorder(n))
    decreases n
  {
    var cs := ChildrenPreorder(n);
    var flat: seq<nat> := Concat(cs);
    forall j | 0 <= j < |flat| ensures flat[j] < |s.meshes| {
      ConcatMember(cs, j);
      var i, k :| 0 <= i < |cs| && 0 <= k < |cs[i]| && flat[j] == cs[i][k];
      assert cs[i] == Preorder(n.children[i]);
      PreorderInRange(s, n.children[i]);
    }
    assert Preorder(n) == n.meshes + flat;
  }

  /** The subtrees of the first i children name only meshes of the scene. */
  lemma ChildrenPrefixInRange(s: AiScene, n: AiNode, i: nat)
    requires NodeWellFormed(s, n) && i <= |n.children|
    ensures MeshIndices(s, Concat(ChildrenPreorder(n)[..i]))
  {
    var cs := ChildrenPreorder(n)[..i];
    var flat: seq<nat> := Concat(cs);
    forall j | 0 <= j < |flat| ensures flat[j] < |s.meshes| {
      ConcatMember(cs, j);
      var c, k :| 0 <= c < |cs| && 0 <= k < |cs[c]| && flat[j] == cs[c][k];
      assert cs[c] == Preorder(n.children[c]);
      PreorderInRange(s, n.children[c]);
    }
  }

  /** root -> [childA(mesh 0), childB(mesh 1, mesh 2)] flattens to [0, 1, 2]. */
  lemma PreorderExample()
    ensures Preorder(AiNode([], [AiNode([0], []), AiNode([1, 2], [])])) == [0, 1, 2]
  {
    var a, b := AiNode([0], []), AiNode([1, 2], []);
    var root := AiNode([], [a, b]);
    assert Preorder(a) == [0] by { assert Concat(ChildrenPreorder(a)) == []; }
    assert Preorder(b) == [1, 2] by { assert Concat(ChildrenPreorder(b)) == []; }
    var cs := ChildrenPreorder(root);
    assert cs == [[0], [1, 2]];
    assert cs[..1] == [[0]];
    assert Concat(cs) == Concat([[0]]) + [1, 2];
    assert Concat([[0]]) == Concat([[0]][..0]) + [0];
  }
}
