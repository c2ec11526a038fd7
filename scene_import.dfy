/** What processNode and processMesh build from an Assimp scene, as
    functions: the mesh data of every node in pre-order, and the texture
    cache after all material slots have been resolved. */
module SceneImport {
  import opened Geometry
  import opened Wrappers
  import opened Sequences
  import opened Scene
  import opened TextureCache
  import opened Meshes

  /** Vertex i of a mesh: its position and normal, and the (x, y) of the
      first texture-coordinate channel, or (0, 0) when the mesh has none. */
  function ImportVertex(m: AiMesh, i: nat): (v: Vertex)
    requires i < |m.vertices| && |m.normals| == |m.vertices|
    requires m.textureCoords0.Some? ==> i < |m.textureCoords0.value|
    ensures v.position == m.vertices[i] && v.normal == m.normals[i]
    ensures m.textureCoords0.Some? ==>
      v.textureCoords == Vec2(m.textureCoords0.value[i].x, m.textureCoords0.value[i].y)
    ensures m.textureCoords0.None? ==> v.textureCoords == Vec2(0.0, 0.0)
  {
    var uv := match m.textureCoords0
      case Some(tc) => Vec2(tc[i].x, tc[i].y)
      case None => Vec2(0.0, 0.0);
    Vertex(m.vertices[i], m.normals[i], uv)
  }

  function ImportVertices(m: AiMesh): (vs: seq<Vertex>)
    requires |m.normals| == |m.vertices|
    requires m.textureCoords0.Some? ==> |m.textureCoords0.value| >= |m.vertices|
    ensures |vs| == |m.vertices| && forall i :: 0 <= i < |vs| ==> vs[i] == ImportVertex(m, i)
  {
    seq(|m.vertices|, i requires 0 <= i < |m.vertices| => ImportVertex(m, i))
  }

  /** The face indices one face after another. */
  function FaceIndices(m: AiMesh): seq<nat>
  {
    Concat<nat>(m.faces)
  }

  /** The textures of a mesh: none for material 0; otherwise the diffuse
      slots of its material, then the specular slots, each through the cache. */
  function MeshTextures(s: AiScene, m: AiMesh, c: Cache, directory: string): (seq<Texture>, Cache)
    requires m.materialIndex < |s.materials|
  {
    if m.materialIndex > 0 then
      var material := s.materials[m.materialIndex];
      var diffuse := AcquireAll(c, directory, material.diffuse, "diffuse");
      var specular := AcquireAll(diffuse.1, directory, material.specular, "specular");
      (diffuse.0 + specular.0, specular.1)
    else ([], c)
  }

  /** processMesh: the vertices, the face indices one face after another,
      and the textures. */
  function ImportMesh(s: AiScene, m: AiMesh, c: Cache, directory: string): (MeshData, Cache)
    requires MeshWellFormed(s, m)
  {
    var textures := MeshTextures(s, m, c, directory);
    (MeshData(ImportVertices(m), FaceIndices(m), textures.0), textures.1)
  }

  /** The meshes named by `indices`, in order, threading the cache. */
  function ImportMeshes(s: AiScene, indices: seq<nat>, c: Cache, directory: string): (seq<MeshData>, Cache)
    requires MeshesWellFormed(s)
    requires MeshIndices(s, indices)
    decreases |indices|
  {
    if |indices| == 0 then ([], c)
    else
      var init := ImportMeshes(s, indices[..|indices| - 1], c, directory);
      var last := ImportMesh(s, s.meshes[indices[|indices| - 1]], init.1, directory);
      (init.0 + [last.0], last.1)
  }

  /** One more index: the prefix's meshes, then that mesh. */
  lemma ImportMeshesPrefixStep(s: AiScene, indices: seq<nat>, i: nat, c: Cache, directory: string)
    requires MeshesWellFormed(s)
    requires MeshIndices(s, indices)
    requires i < |indices|
    ensures var (ms, c1) := ImportMeshes(s, indices[..i], c, directory);
      ImportMeshes(s, indices[..i + 1], c, directory)
        == (ms + [ImportMesh(s, s.meshes[indices[i]], c1, directory).0], ImportMesh(s, s.meshes[indices[i]], c1, directory).1)
  {
    assert indices[..i + 1][..i] == indices[..i];
  }

  /** Importing a + b is importing a, then b from the cache a left. */
  lemma {:induction false} ImportMeshesAppend(s: AiScene, a: seq<nat>, b: seq<nat>, c: Cache, directory: string)
    requires MeshesWellFormed(s)
    requires MeshIndices(s, a) && MeshIndices(s, b)
    ensures MeshIndices(s, a + b)
    ensures var (ms1, c1) := ImportMeshes(s, a, c, directory);
      var (ms2, c2) := ImportMeshes(s, b, c1, directory);
      ImportMeshes(s, a + b, c, directory) == (ms1 + ms2, c2)
    decreases |b|
  {
    if |b| == 0 {
      assert a + b == a;
      var r := ImportMeshes(s, a, c, directory);
      assert ImportMeshes(s, b, r.1, directory) == ([], r.1);
      assert r.0 + [] == r.0;
    } else {
      var b' := b[..|b| - 1];
      assert (a + b)[..|a + b| - 1] == a + b';
      assert (a + b)[|a + b| - 1] == b[|b| - 1];
      ImportMeshesAppend(s, a, b', c, directory);
      var c1 := ImportMeshes(s, a, c, directory).1;
      var ms1 := ImportMeshes(s, a, c, directory).0;
      var r := ImportMeshes(s, b', c1, directory);
      var m := ImportMesh(s, s.meshes[b[|b| - 1]], r.1, directory);
      assert ImportMeshes(s, b, c1, directory) == (r.0 + [m.0], m.1);
      assert ImportMeshes(s, a + b, c, directory) == ((ms1 + r.0) + [m.0], m.1);
      assert (ms1 + r.0) + [m.0] == ms1 + (r.0 + [m.0]);
    }
  }

  /** The whole scene: every mesh reachable from the root, in pre-order. */
  function ImportScene(s: AiScene, c: Cache, directory: string): (seq<MeshData>, Cache)
    requires WellFormed(s) && s.root.Some?
  {
    PreorderInRange(s, s.root.value);
    ImportMeshes(s, Preorder(s.root.value), c, directory)
  }

  /** One mesh per index, each with the vertex and index counts of its source
      mesh; the cache stays valid and only grows. */
  lemma {:induction false} ImportMeshesShape(s: AiScene, indices: seq<nat>, c: Cache, directory: string)
    requires MeshesWellFormed(s) && Valid(c)
    requires MeshIndices(s, indices)
    ensures var (ms, c') := ImportMeshes(s, indices, c, directory);
      && |ms| == |indices|
      && (forall k :: 0 <= k < |ms| ==>
            ms[k].vertices == ImportVertices(s.meshes[indices[k]])
            && ms[k].indices == FaceIndices(s.meshes[indices[k]]))
      && Valid(c') && |c.loaded| <= |c'.loaded|
    decreases |indices|
  {
    if |indices| > 0 {
      var init := indices[..|indices| - 1];
      ImportMeshesShape(s, init, c, directory);
      var c1 := ImportMeshes(s, init, c, directory).1;
      MeshTexturesSpec(s, s.meshes[indices[|indices| - 1]], c1, directory);
      var ms := ImportMeshes(s, indices, c, directory).0;
      forall k | 0 <= k < |ms| - 1
        ensures ms[k].vertices == ImportVertices(s.meshes[indices[k]])
             && ms[k].indices == FaceIndices(s.meshes[indices[k]])
      {
        assert ms[k] == ImportMeshes(s, init, c, directory).0[k] && init[k] == indices[k];
      }
    }
  }

  /** The textures of one mesh: none and no load for material 0; otherwise
      one per diffuse slot, then one per specular slot, with the slot's path
      and type; the cache stays valid and only grows. */
  lemma MeshTexturesSpec(s: AiScene, m: AiMesh, c: Cache, directory: string)
    requires m.materialIndex < |s.materials| && Valid(c)
    ensures var ts, c' := MeshTextures(s, m, c, directory).0, MeshTextures(s, m, c, directory).1;
      && Valid(c') && |c.loaded| <= |c'.loaded|
      && (forall j :: 0 <= j < |c.loaded| ==> c'.loaded[j] == c.loaded[j])
      && (m.materialIndex == 0 ==> ts == [] && c' == c)
      && (m.materialIndex > 0 ==>
            SlotTextures(ts, s.materials[m.materialIndex].diffuse, s.materials[m.materialIndex].specular, c'.loaded))
  {
    if m.materialIndex > 0 {
      var material := s.materials[m.materialIndex];
      var r1 := AcquireAll(c, directory, material.diffuse, "diffuse");
      var r2 := AcquireAll(r1.1, directory, material.specular, "specular");
      TwoSlotListsKeep(c, directory, material.diffuse, material.specular);
      TwoSlotListsPaths(c, directory, material.diffuse, material.specular);
      assert MeshTextures(s, m, c, directory) == (r1.0 + r2.0, r2.1);
    } else {
      assert MeshTextures(s, m, c, directory) == ([], c);
    }
  }

  /** Importing a mesh keeps the cache valid. */
  lemma ImportMeshKeepsCacheValid(s: AiScene, m: AiMesh, c: Cache, directory: string)
    requires MeshWellFormed(s, m) && Valid(c)
    ensures Valid(ImportMesh(s, m, c, directory).1)
  {
    if m.materialIndex > 0 {
      var material := s.materials[m.materialIndex];
      TwoSlotListsKeep(c, directory, material.diffuse, material.specular);
    }
  }

  /** The diffuse list, then the specular list, through one cache: the
      cache stays valid and keeps its entries. */
  lemma TwoSlotListsKeep(c: Cache, directory: string, diffuse: seq<string>, specular: seq<string>)
    requires Valid(c)
    ensures var c1 := AcquireAll(c, directory, diffuse, "diffuse").1;
      var c2 := AcquireAll(c1, directory, specular, "specular").1;
      && Valid(c2) && |c.loaded| <= |c2.loaded|
      && (forall j :: 0 <= j < |c.loaded| ==> c2.loaded[j] == c.loaded[j])
  {
    AcquireAllKeeps(c, directory, diffuse, "diffuse");
    AcquireAllKeeps(AcquireAll(c, directory, diffuse, "diffuse").1, directory, specular, "specular");
  }

  /** One texture per diffuse slot, then one per specular slot, each with
      its slot's path and present in the cache list `loaded`. */
  predicate SlotTextures(ts: seq<Texture>, diffuse: seq<string>, specular: seq<string>, loaded: seq<Texture>)
  {
    && |ts| == |diffuse| + |specular|
    && (forall i :: 0 <= i < |diffuse| ==> ts[i].filepath == diffuse[i] && ts[i] in loaded)
    && (forall i :: 0 <= i < |specular| ==> ts[|diffuse| + i].filepath == specular[i] && ts[|diffuse| + i] in loaded)
  }

  /** The diffuse list, then the specular list: one texture per slot, with
      the slot's path, each in the final cache. */
  lemma TwoSlotListsPaths(c: Cache, directory: string, diffuse: seq<string>, specular: seq<string>)
    requires Valid(c)
    ensures var r1 := AcquireAll(c, directory, diffuse, "diffuse");
      var r2 := AcquireAll(r1.1, directory, specular, "specular");
      SlotTextures(r1.0 + r2.0, diffuse, specular, r2.1.loaded)
  {
    AcquireAllKeeps(c, directory, diffuse, "diffuse");
    AcquireAllPaths(c, directory, diffuse, "diffuse");
    var r1 := AcquireAll(c, directory, diffuse, "diffuse");
    AcquireAllKeeps(r1.1, directory, specular, "specular");
    AcquireAllPaths(r1.1, directory, specular, "specular");
    var r2 := AcquireAll(r1.1, directory, specular, "specular");
    AppendSlotTextures(r1.0, r2.0, diffuse, specular, r1.1.loaded, r2.1.loaded);
  }

  lemma AppendSlotTextures(d: seq<Texture>, sp: seq<Texture>, diffuse: seq<string>, specular: seq<string>,
                           loaded1: seq<Texture>, loaded2: seq<Texture>)
    requires |d| == |diffuse| && forall i :: 0 <= i < |d| ==> d[i].filepath == diffuse[i] && d[i] in loaded1
    requires |sp| == |specular| && forall i :: 0 <= i < |sp| ==> sp[i].filepath == specular[i] && sp[i] in loaded2
    requires |loaded1| <= |loaded2| && forall j :: 0 <= j < |loaded1| ==> loaded2[j] == loaded1[j]
    ensures SlotTextures(d + sp, diffuse, specular, loaded2)
  {
    var ts := d + sp;
    forall i | 0 <= i < |diffuse| ensures ts[i].filepath == diffuse[i] && ts[i] in loaded2 {
      assert ts[i] == d[i];
      GrowingKeepsMembers(loaded1, loaded2, d[i]);
    }
    forall i | 0 <= i < |specular| ensures ts[|diffuse| + i].filepath == specular[i] && ts[|diffuse| + i] in loaded2 {
      assert ts[|diffuse| + i] == sp[i];
    }
  }

  /** The faces of a triangulated mesh give three indices each. */
  lemma TriangleIndices(m: AiMesh)
    requires forall f :: 0 <= f < |m.faces| ==> |m.faces[f]| == 3
    ensures |FaceIndices(m)| == 3 * |m.faces|
  {
    ConcatUniformLength(m.faces, 3);
  }

  /** Faces whose indices name vertices of the mesh give index data that
      names vertices of the imported mesh. */
  lemma IndicesInRange(m: AiMesh)
    requires forall f, k :: 0 <= f < |m.faces| && 0 <= k < |m.faces[f]| ==> m.faces[f][k] < |m.vertices|
    ensures forall j :: 0 <= j < |FaceIndices(m)| ==> FaceIndices(m)[j] < |m.vertices|
  {
    forall j | 0 <= j < |FaceIndices(m)| ensures FaceIndices(m)[j] < |m.vertices| {
      ConcatMember(m.faces, j);
    }
  }
}
