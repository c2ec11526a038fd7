/** The Model class: it imports a scene into meshes, shares textures
    between them through its cache, keeps a bounding box of all vertex
    positions and can rescale the model into a target interval. */
module Models {
  import opened Geometry
  import opened Wrappers
  import opened Sequences
  import opened Scene
  import opened TextureCache
  import opened Meshes
  import opened SceneImport
  import opened BoundingBox
  import opened Normalization
  import Helpers

  /** How a load ends: the source prints the importer's error and exits the
      process on Fatal. */
  datatype LoadStatus = Loaded | Fatal

  /** find_last_of('/'): the index of the last slash, if there is one. */
  function LastSlash(path: string): (r: Option<nat>)
    ensures r.Some? ==> r.value < |path| && path[r.value] == '/'
    ensures r.Some? ==> forall k :: r.value < k < |path| ==> path[k] != '/'
    ensures r.None? <==> forall k :: 0 <= k < |path| ==> path[k] != '/'
    decreases |path|
  {
    if |path| == 0 then None
    else if path[|path| - 1] == '/' then Some(|path| - 1)
    else LastSlash(path[..|path| - 1])
  }

  /** substr(0, find_last_of('/')): what precedes the last slash, or the
      whole path when it has none (npos keeps the whole string). */
  function DirectoryOf(path: string): (d: string)
    ensures |d| <= |path| && d == path[..|d|]
    ensures LastSlash(path).None? ==> d == path
  {
    match LastSlash(path)
    case Some(k) => path[..k]
    case None => path
  }

  /** The directory, joined back with what follows the last slash the way
      loadTexture joins names, gives the path again. */
  lemma DirectoryJoin(path: string)
    requires LastSlash(path).Some?
    ensures JoinPath(DirectoryOf(path), path[|DirectoryOf(path)| + 1..]) == path
  {
    var k := LastSlash(path).value;
    assert path == path[..k] + [path[k]] + path[k + 1..];
  }

  lemma DirectoryExample()
    ensures DirectoryOf("models/crate.obj") == "models"
    ensures DirectoryOf("crate.obj") == "crate.obj"
  {
    assert LastSlash("models/crate.obj") == Some(6) by {
      var p := "models/crate.obj";
      assert p[6] == '/';
      assert forall k :: 6 < k < |p| ==> p[k] != '/';
    }
    assert LastSlash("crate.obj").None? by {
      var p := "crate.obj";
      assert forall k :: 0 <= k < |p| ==> p[k] != '/';
    }
  }

  /** The data of a list of meshes, read from the objects. */
  function MeshesData(ms: seq<Mesh>): seq<MeshData>
    reads ms
  {
    seq(|ms|, i reads ms requires 0 <= i < |ms| => ms[i].Data())
  }

  lemma MeshesDataSnoc(ms: seq<Mesh>, m: Mesh)
    ensures MeshesData(ms + [m]) == MeshesData(ms) + [m.Data()]
  {
    assert (ms + [m])[..|ms|] == ms;
  }

  /** The vertex lists of the meshes. */
  function VertexLists(data: seq<MeshData>): (r: seq<seq<Vertex>>)
    ensures |r| == |data| && forall i :: 0 <= i < |data| ==> r[i] == data[i].vertices
  {
    seq(|data|, i requires 0 <= i < |data| => data[i].vertices)
  }

  /** Every vertex of every mesh, mesh after mesh. */
  function AllVertices(data: seq<MeshData>): seq<Vertex>
  {
    Concat(VertexLists(data))
  }

  /** The mesh data after normalize: every vertex position remapped by the
      box `b` onto [lo, hi]; indices and textures as they were. */
  function NormalizeData(data: seq<MeshData>, b: Bounds, lo: real, hi: real): (r: seq<MeshData>)
    requires Scalable(b)
    ensures |r| == |data|
    ensures forall k :: 0 <= k < |data| ==>
      r[k].vertices == NormalizeVertices(data[k].vertices, b, lo, hi) &&
      r[k].indices == data[k].indices && r[k].textures == data[k].textures
  {
    seq(|data|, k requires 0 <= k < |data| =>
      MeshData(NormalizeVertices(data[k].vertices, b, lo, hi), data[k].indices, data[k].textures))
  }

  class Model {
    var minX: real
    var maxX: real
    var minY: real
    var maxY: real
    var minZ: real
    var maxZ: real
    var centerPosition: Vec3
    var meshes: seq<Mesh>
    var loadedTextures: seq<Texture>
    var filepath: string
    var directory: string
    /** The texture name glGenTextures hands out next. */
    var nextTextureId: nat
    /** The image files stbi_load has read, in order. */
    var textureLoads: seq<string>

    /** Each mesh is its own object with its current vertex and index
        lists on the GPU, and the texture cache is consistent. */
    predicate Valid()
      reads this`meshes, this`loadedTextures, this`nextTextureId, this`textureLoads, meshes
    {
      && (forall i, j :: 0 <= i < j < |meshes| ==> meshes[i] != meshes[j])
      && (forall i :: 0 <= i < |meshes| ==> meshes[i].gpu == Buffers(meshes[i].vertices, meshes[i].indices))
      && TextureCache.Valid(CacheState())
    }

    function Box(): Bounds
      reads this`minX, this`maxX, this`minY, this`maxY, this`minZ, this`maxZ
    {
      Bounds(minX, maxX, minY, maxY, minZ, maxZ)
    }

    function CacheState(): Cache
      reads this`loadedTextures, this`nextTextureId, this`textureLoads
    {
      Cache(loadedTextures, nextTextureId, textureLoads)
    }

    function Data(): seq<MeshData>
      reads this`meshes, meshes
    {
      MeshesData(meshes)
    }

    /** Model(modelFilepath): a non-empty path is kept with its directory;
        the box and center start at zero; nothing is loaded. */
    constructor (modelFilepath: string)
      ensures modelFilepath != "" ==> filepath == modelFilepath && directory == DirectoryOf(modelFilepath)
      ensures modelFilepath == "" ==> filepath == "" && directory == ""
      ensures Box() == Bounds(0.0, 0.0, 0.0, 0.0, 0.0, 0.0) && centerPosition == Vec3(0.0, 0.0, 0.0)
      ensures meshes == [] && loadedTextures == [] && textureLoads == [] && nextTextureId == 1
      ensures Valid()
    {
      if modelFilepath != "" {
        filepath := modelFilepath;
        directory := DirectoryOf(modelFilepath);
      } else {
        filepath := "";
        directory := "";
      }
      minX, minY, minZ, maxX, maxY, maxZ := 0.0, 0.0, 0.0, 0.0, 0.0, 0.0;
      centerPosition := Vec3(0.0, 0.0, 0.0);
      meshes := [];
      loadedTextures := [];
      nextTextureId := 1;
      textureLoads := [];
    }

    /** loadTexture: reads directory + '/' + the path into a new texture
        object and returns its name. */
    method LoadTexture(texturePath: string, textureDirectory: string) returns (id: nat)
      modifies this`nextTextureId, this`textureLoads
      ensures id == old(nextTextureId) && nextTextureId == old(nextTextureId) + 1
      ensures textureLoads == old(textureLoads) + [JoinPath(textureDirectory, texturePath)]
    {
      var filename := textureDirectory + "/" + texturePath;
      id := nextTextureId;
      nextTextureId := nextTextureId + 1;
      textureLoads := textureLoads + [filename];
    }

    /** loadMaterialTextures: for each slot, the first cached texture with
        the slot's path, or a newly loaded one that is then cached. */
    method LoadMaterialTextures(paths: seq<string>, typeName: string) returns (textures: seq<Texture>)
      modifies this`loadedTextures, this`nextTextureId, this`textureLoads
      ensures (textures, CacheState()) == AcquireAll(old(CacheState()), directory, paths, typeName)
    {
      ghost var c0 := CacheState();
      textures := [];
      for i := 0 to |paths|
        invariant (textures, CacheState()) == AcquireAll(c0, directory, paths[..i], typeName)
      {
        var path := paths[i];
        var isTextureAlreadyLoaded := false;
        ghost var before := CacheState();
        ghost var step := Acquire(before, directory, path, typeName);
        ghost var prev := textures;
        var j := 0;
        while j < |loadedTextures|
          invariant 0 <= j <= |loadedTextures|
          invariant forall k :: 0 <= k < j ==> loadedTextures[k].filepath != path
        {
          if path == loadedTextures[j].filepath {
            textures := textures + [loadedTextures[j]];
            isTextureAlreadyLoaded := true;
            assert FindByPath(loadedTextures, path) == Some(j);
            assert textures == prev + [step.0] && CacheState() == step.1;
            break;
          }
          j := j + 1;
        }
        if !isTextureAlreadyLoaded {
          assert FindByPath(loadedTextures, path) == None;
          var id := LoadTexture(path, directory);
          var texture := Texture(id, typeName, path);
          textures := textures + [texture];
          loadedTextures := loadedTextures + [texture];
          assert textures == prev + [step.0] && CacheState() == step.1;
        }
        AcquireAllPrefixStep(c0, directory, paths, i, typeName);
      }
      assert paths[..|paths|] == paths;
    }

    /** processMesh: copies the vertices, the face indices and the material's
        diffuse then specular textures into a new mesh and uploads it. */
    /** The material part of processMesh: for a material index above 0,
        the diffuse textures and then the specular ones, through the cache. */
    method ProcessMaterial(mesh: AiMesh, scene: AiScene) returns (textures: seq<Texture>)
      requires mesh.materialIndex < |scene.materials|
      modifies this`loadedTextures, this`nextTextureId, this`textureLoads
      ensures textures == MeshTextures(scene, mesh, old(CacheState()), directory).0
      ensures CacheState() == MeshTextures(scene, mesh, old(CacheState()), directory).1
    {
      textures := [];
      if mesh.materialIndex > 0 {
        var material := scene.materials[mesh.materialIndex];
        var diffuseMaps := LoadMaterialTextures(material.diffuse, "diffuse");
        textures := textures + diffuseMaps;
        var specularMaps := LoadMaterialTextures(material.specular, "specular");
        textures := textures + specularMaps;
        assert textures == diffuseMaps + specularMaps;
      }
    }

    method ProcessMesh(mesh: AiMesh, scene: AiScene) returns (newMesh: Mesh)
      requires MeshWellFormed(scene, mesh)
      modifies this`loadedTextures, this`nextTextureId, this`textureLoads
      ensures fresh(newMesh)
      ensures (newMesh.Data(), CacheState()) == ImportMesh(scene, mesh, old(CacheState()), directory)
      ensures newMesh.gpu == Buffers(newMesh.vertices, newMesh.indices)
    {
      ghost var c0 := CacheState();
      var vertices: seq<Vertex> := [];
      for i := 0 to |mesh.vertices|
        invariant unchanged(this)
        invariant |vertices| == i && forall k :: 0 <= k < i ==> vertices[k] == ImportVertex(mesh, k)
      {
        var position := mesh.vertices[i];
        var normal := mesh.normals[i];
        var textureCoords: Vec2;
        if mesh.textureCoords0.Some? {
          textureCoords := Vec2(mesh.textureCoords0.value[i].x, mesh.textureCoords0.value[i].y);
        } else {
          textureCoords := Vec2(0.0, 0.0);
        }
        vertices := vertices + [Vertex(position, normal, textureCoords)];
      }

      var indices: seq<nat> := [];
      for i := 0 to |mesh.faces|
        invariant unchanged(this)
        invariant indices == Concat(mesh.faces[..i])
      {
        var face := mesh.faces[i];
        for j := 0 to |face|
          invariant unchanged(this)
          invariant indices == Concat(mesh.faces[..i]) + face[..j]
        {
          indices := indices + [face[j]];
          assert face[..j + 1] == face[..j] + [face[j]];
        }
        assert face[..|face|] == face;
        ConcatPrefixStep(mesh.faces, i);
      }
      assert mesh.faces[..|mesh.faces|] == mesh.faces;

      var textures := ProcessMaterial(mesh, scene);

      assert vertices == ImportVertices(mesh);
      assert indices == FaceIndices(mesh);
      newMesh := new Mesh(vertices, indices, textures);
      newMesh.Load();
      assert newMesh.Data() == MeshData(vertices, indices, textures);
      assert c0 == old(CacheState());
      assert ImportMesh(scene, mesh, c0, directory) == (MeshData(vertices, indices, textures), CacheState());
    }

    /** processNode: the node's meshes in order, then each child's subtree;
        the two loops are ProcessOwnMeshes and ProcessChildren. */
    method ProcessNode(node: AiNode, scene: AiScene)
      requires MeshesWellFormed(scene) && NodeWellFormed(scene, node)
      requires Valid()
      modifies this`meshes, this`loadedTextures, this`nextTextureId, this`textureLoads
      ensures MeshIndices(scene, Preorder(node))
      ensures Valid()
      ensures (MeshesData(meshes), CacheState()) ==
        (old(MeshesData(meshes)) + ImportMeshes(scene, Preorder(node), old(CacheState()), directory).0,
         ImportMeshes(scene, Preorder(node), old(CacheState()), directory).1)
      decreases node, 1
    {
      ghost var c0 := CacheState();
      ghost var d0 := MeshesData(meshes);
      ProcessOwnMeshes(node, scene);
      ghost var c1 := CacheState();
      ProcessChildren(node, scene);
      PreorderInRange(scene, node);
      ImportMeshesAppend(scene, node.meshes, Concat<nat>(ChildrenPreorder(node)), c0, directory);
      AppendAssoc(d0, ImportMeshes(scene, node.meshes, c0, directory).0,
                  ImportMeshes(scene, Concat<nat>(ChildrenPreorder(node)), c1, directory).0);
    }

    /** `meshes.push_back(processMesh(mesh, scene))`. */
    method AddMesh(mesh: AiMesh, scene: AiScene)
      requires MeshWellFormed(scene, mesh) && Valid()
      modifies this`meshes, this`loadedTextures, this`nextTextureId, this`textureLoads
      ensures Valid()
      ensures |meshes| == |old(meshes)| + 1 && meshes[..|old(meshes)|] == old(meshes) && fresh(meshes[|old(meshes)|])
      ensures (MeshesData(meshes), CacheState()) ==
        (old(MeshesData(meshes)) + [ImportMesh(scene, mesh, old(CacheState()), directory).0],
         ImportMesh(scene, mesh, old(CacheState()), directory).1)
    {
      ghost var ms := meshes;
      ImportMeshKeepsCacheValid(scene, mesh, CacheState(), directory);
      var processed := ProcessMesh(mesh, scene);
      assert MeshesData(ms) == old(MeshesData(meshes));
      meshes := meshes + [processed];
      assert meshes[..|ms|] == ms;
      MeshesDataSnoc(ms, processed);
    }

    /** The first loop of processNode: each mesh the node names, processed
        and appended in order. */
    method ProcessOwnMeshes(node: AiNode, scene: AiScene)
      requires MeshesWellFormed(scene) && NodeWellFormed(scene, node)
      requires Valid()
      modifies this`meshes, this`loadedTextures, this`nextTextureId, this`textureLoads
      ensures MeshIndices(scene, node.meshes)
      ensures Valid()
      ensures (MeshesData(meshes), CacheState()) ==
        (old(MeshesData(meshes)) + ImportMeshes(scene, node.meshes, old(CacheState()), directory).0,
         ImportMeshes(scene, node.meshes, old(CacheState()), directory).1)
    {
      ghost var c0 := CacheState();
      ghost var d0 := MeshesData(meshes);
      ghost var acc: (seq<MeshData>, Cache) := ([], c0);
      assert node.meshes[..0] == [];
      for i := 0 to |node.meshes|
        invariant Valid()
        invariant MeshIndices(scene, node.meshes[..i])
        invariant acc == ImportMeshes(scene, node.meshes[..i], c0, directory)
        invariant MeshesData(meshes) == d0 + acc.0 && CacheState() == acc.1
      {
        ImportMeshesPrefixStep(scene, node.meshes, i, c0, directory);
        assert MeshIndices(scene, node.meshes[..i + 1]);
        ghost var step := ImportMesh(scene, scene.meshes[node.meshes[i]], acc.1, directory);
        AddMesh(scene.meshes[node.meshes[i]], scene);
        AppendAssoc(d0, acc.0, [step.0]);
        acc := (acc.0 + [step.0], step.1);
      }
      assert node.meshes[..|node.meshes|] == node.meshes;
    }

    /** The second loop of processNode: each child's subtree in order. */
    method ProcessChildren(node: AiNode, scene: AiScene)
      requires MeshesWellFormed(scene) && NodeWellFormed(scene, node)
      requires Valid()
      modifies this`meshes, this`loadedTextures, this`nextTextureId, this`textureLoads
      ensures MeshIndices(scene, Concat<nat>(ChildrenPreorder(node)))
      ensures Valid()
      ensures (MeshesData(meshes), CacheState()) ==
        (old(MeshesData(meshes)) + ImportMeshes(scene, Concat<nat>(ChildrenPreorder(node)), old(CacheState()), directory).0,
         ImportMeshes(scene, Concat<nat>(ChildrenPreorder(node)), old(CacheState()), directory).1)
      decreases node, 0
    {
      ghost var c0 := CacheState();
      ghost var d0 := MeshesData(meshes);
      ghost var cs := ChildrenPreorder(node);
      ghost var acc: (seq<MeshData>, Cache) := ([], c0);
      assert cs[..0] == [];
      for i := 0 to |node.children|
        invariant Valid()
        invariant MeshIndices(scene, Concat<nat>(cs[..i]))
        invariant acc == ImportMeshes(scene, Concat<nat>(cs[..i]), c0, directory)
        invariant MeshesData(meshes) == d0 + acc.0 && CacheState() == acc.1
      {
        ghost var sub := Preorder(node.children[i]);
        assert cs[i] == sub;
        PreorderInRange(scene, node.children[i]);
        ImportMeshesAppend(scene, Concat<nat>(cs[..i]), sub, c0, directory);
        ghost var step := ImportMeshes(scene, sub, acc.1, directory);
        ProcessNode(node.children[i], scene);
        AppendAssoc(d0, acc.0, step.0);
        acc := (acc.0 + step.0, step.1);
        ConcatPrefixStep(cs, i);
      }
      assert cs[..|node.children|] == cs;
    }

    /** calculateBoundingBox: the box of every vertex position of every
        mesh, scanned mesh after mesh, and its midpoint as the center. */
    method CalculateBoundingBox()
      modifies this`minX, this`maxX, this`minY, this`maxY, this`minZ, this`maxZ, this`centerPosition
      ensures Box() == BoxOf(AllVertices(Data()))
      ensures centerPosition == Center(Box())
    {
      ghost var lists := VertexLists(Data());
      var maxFloatValue := SEED;
      minX, minY, minZ := maxFloatValue, maxFloatValue, maxFloatValue;
      maxX, maxY, maxZ := -maxFloatValue, -maxFloatValue, -maxFloatValue;
      assert lists[..0] == [];
      for i := 0 to |meshes|
        invariant Box() == BoxOf(Concat(lists[..i]))
      {
        assert lists[i] == meshes[i].vertices;
        ConcatPrefixStep(lists, i);
        ScanMesh(meshes[i], Concat(lists[..i]));
      }
      assert lists[..|meshes|] == lists;
      assert Data() == old(Data());
      UpdateCenter();
    }

    /** The inner loop of calculateBoundingBox: the box scanned so far over
        `done`, extended by the positions of one mesh's vertices. */
    method ScanMesh(m: Mesh, ghost done: seq<Vertex>)
      requires Box() == BoxOf(done)
      modifies this`minX, this`maxX, this`minY, this`maxY, this`minZ, this`maxZ
      ensures Box() == BoxOf(done + m.vertices)
    {
      ghost var vs := m.vertices;
      assert done + vs[..0] == done;
      for j := 0 to |m.vertices|
        invariant vs == m.vertices
        invariant Box() == BoxOf(done + vs[..j])
      {
        var vector := m.vertices[j].position;
        // Each axis: `if (v < min) min = v; else if (v > max) max = v;`
        var x, y, z := ScanStep(Range(minX, maxX), vector.x), ScanStep(Range(minY, maxY), vector.y), ScanStep(Range(minZ, maxZ), vector.z);
        minX, maxX := x.min, x.max;
        minY, maxY := y.min, y.max;
        minZ, maxZ := z.min, z.max;
        BoxSnoc(done + vs[..j], vs[j]);
        TakeSnoc(vs, j);
        AppendAssoc(done, vs[..j], [vs[j]]);
      }
      assert vs[..|vs|] == vs;
    }

    /** The last statement of calculateBoundingBox: the center is the
        average of each axis's minimum and maximum. */
    method UpdateCenter()
      modifies this`centerPosition
      ensures centerPosition == Center(Box())
    {
      var centerX := Helpers.Average([minX, maxX]);
      var centerY := Helpers.Average([minY, maxY]);
      var centerZ := Helpers.Average([minZ, maxZ]);
      centerPosition := Vec3(centerX, centerY, centerZ);
    }

    /** load: a missing scene, a scene without a root node or one flagged
        exactly AI_SCENE_FLAGS_INCOMPLETE is fatal (the source exits);
        otherwise the root's subtree is imported and the box recomputed. */
    method Load(scene: Option<AiScene>) returns (status: LoadStatus)
      requires Valid()
      requires scene.Some? && scene.value.root.Some? && scene.value.flags != AI_SCENE_FLAGS_INCOMPLETE ==> WellFormed(scene.value)
      modifies this`meshes, this`loadedTextures, this`nextTextureId, this`textureLoads
      modifies this`minX, this`maxX, this`minY, this`maxY, this`minZ, this`maxZ, this`centerPosition
      ensures status == Fatal <==>
        scene.None? || scene.value.root.None? || scene.value.flags == AI_SCENE_FLAGS_INCOMPLETE
      ensures status == Fatal ==> unchanged(this)
      ensures status == Loaded ==> Valid()
      ensures status == Loaded ==> Data() == old(Data()) + ImportScene(scene.value, old(CacheState()), directory).0
      ensures status == Loaded ==> CacheState() == ImportScene(scene.value, old(CacheState()), directory).1
      ensures status == Loaded ==> Box() == BoxOf(AllVertices(Data())) && centerPosition == Center(Box())
    {
      if scene.None? || scene.value.root.None? || scene.value.flags == AI_SCENE_FLAGS_INCOMPLETE {
        return Fatal;
      }
      ImportRoot(scene.value);
      status := Loaded;
    }

    /** The last two statements of load: the root's subtree is imported and
        the box recomputed over all meshes. */
    method ImportRoot(s: AiScene)
      requires Valid() && s.root.Some? && WellFormed(s)
      modifies this`meshes, this`loadedTextures, this`nextTextureId, this`textureLoads
      modifies this`minX, this`maxX, this`minY, this`maxY, this`minZ, this`maxZ, this`centerPosition
      ensures Valid()
      ensures Data() == old(Data()) + ImportScene(s, old(CacheState()), directory).0
      ensures CacheState() == ImportScene(s, old(CacheState()), directory).1
      ensures Box() == BoxOf(AllVertices(Data())) && centerPosition == Center(Box())
    {
      ghost var c0 := CacheState();
      ProcessNode(s.root.value, s);
      ghost var d1, c1 := Data(), CacheState();
      assert d1 == old(Data()) + ImportScene(s, c0, directory).0;
      CalculateBoundingBox();
      assert Data() == d1 && CacheState() == c1;
    }

    /** unload: every mesh deletes its buffers, then the mesh list and the
        texture cache are cleared. The texture names and the load counter
        stay as they were. */
    method Unload()
      modifies this`meshes, this`loadedTextures, meshes
      ensures meshes == [] && loadedTextures == []
      ensures forall k :: 0 <= k < |old(meshes)| ==> old(meshes)[k].gpu == NoBuffers
      ensures Valid()
    {
      for i := 0 to |meshes|
        invariant meshes == old(meshes)
        invariant forall k :: 0 <= k < i ==> meshes[k].gpu == NoBuffers
      {
        meshes[i].Unload();
      }
      meshes := [];
      loadedTextures := [];
    }

    /** normalize(min, max): every vertex position is remapped by the box
        onto [min, max] (see NormalizeCoord), each mesh is uploaded again and
        the box recomputed. */
    method Normalize(min: real, max: real)
      requires Valid() && Scalable(Box())
      modifies this`minX, this`maxX, this`minY, this`maxY, this`minZ, this`maxZ, this`centerPosition, meshes
      ensures Valid()
      ensures Data() == NormalizeData(old(Data()), old(Box()), min, max)
      ensures Box() == BoxOf(AllVertices(Data())) && centerPosition == Center(Box())
    {
      NormalizeMeshes(min, max);
      CalculateBoundingBox();
    }

    /** normalize up to its last statement: the factor and the largest
        dimension from the box, then every mesh remapped and uploaded. */
    method NormalizeMeshes(min: real, max: real)
      requires Valid() && Scalable(Box())
      modifies meshes
      ensures Valid()
      ensures Data() == NormalizeData(old(Data()), Box(), min, max)
    {
      ghost var d0 := Data();
      ghost var b := Box();
      var size := max - min;
      var magX := Abs(maxX - minX);
      var magY := Abs(maxY - minY);
      var magZ := Abs(maxZ - minZ);
      SwitchScaleAgrees(b);
      var largestDimension := LargestDimension(magX, magY, magZ);
      var scaleFactor := SwitchScale(largestDimension, magX, magY, magZ);
      for i := 0 to |meshes|
        invariant forall k :: 0 <= k < |meshes| ==> meshes[k].gpu == Buffers(meshes[k].vertices, meshes[k].indices)
        invariant forall k :: 0 <= k < i ==> meshes[k].Data() == NormalizeData(d0, b, min, max)[k]
        invariant forall k :: i <= k < |meshes| ==> meshes[k].Data() == d0[k]
      {
        NormalizeMesh(meshes[i], min, max, size, largestDimension, scaleFactor);
      }
      assert Data() == NormalizeData(d0, b, min, max);
    }

    /** The body of normalize's outer loop for one mesh: the inner loop
        rewrites each vertex position with the switch, then the mesh is
        uploaded again. */
    method NormalizeMesh(m: Mesh, min: real, max: real, size: real, largestDimension: Axis, scaleFactor: real)
      requires Scalable(Box()) && largestDimension == Dominant(Box()) && scaleFactor == ScaleFactor(Box())
      requires size == max - min
      modifies m`vertices, m`gpu
      ensures m.vertices == NormalizeVertices(old(m.vertices), Box(), min, max)
      ensures m.gpu == Buffers(m.vertices, m.indices)
    {
      ghost var vs := m.vertices;
      ghost var b := Box();
      for j := 0 to |m.vertices|
        invariant |m.vertices| == |vs|
        invariant forall k :: 0 <= k < j ==> m.vertices[k] == NormalizeVertex(vs[k], b, min, max)
        invariant forall k :: j <= k < |vs| ==> m.vertices[k] == vs[k]
      {
        var vertex := m.vertices[j];
        var position := SwitchPosition(vertex.position, Box(), largestDimension, scaleFactor, size, min);
        SwitchPositionAgrees(vertex.position, b, largestDimension, scaleFactor, size, min, max);
        m.vertices := m.vertices[j := vertex.(position := position)];
      }
      assert m.vertices == NormalizeVertices(vs, b, min, max);
      m.Reload();
    }
  }
}
