/** The texture cache a model keeps while importing: every texture file is
    loaded once, under a fresh texture name, and later requests for the same
    path reuse the cached entry. */
module TextureCache {
  import opened Geometry
  import opened Wrappers

  /** `loaded` is the model's loadedTextures list; `nextId` is the next
      texture name the driver hands out; `loads` lists the files read, in
      order, as directory + '/' + path. */
  datatype Cache = Cache(loaded: seq<Texture>, nextId: nat, loads: seq<string>)

  /** The file name loadTexture opens. */
  function JoinPath(directory: string, file: string): (r: string)
    ensures |r| == |directory| + 1 + |file|
    ensures r[..|directory|] == directory && r[|directory|] == '/' && r[|directory| + 1..] == file
  {
    directory + "/" + file
  }

  /** The first cached texture whose path is `path`. */
  function FindByPath(loaded: seq<Texture>, path: string): (r: Option<nat>)
    ensures r.Some? ==> r.value < |loaded| && loaded[r.value].filepath == path
    ensures r.Some? ==> forall k :: 0 <= k < r.value ==> loaded[k].filepath != path
    ensures r.None? <==> forall k :: 0 <= k < |loaded| ==> loaded[k].filepath != path
  {
    if |loaded| == 0 then None
    else match FindByPath(loaded[..|loaded| - 1], path)
      case Some(j) => Some(j)
      case None => if loaded[|loaded| - 1].filepath == path then Some(|loaded| - 1) else None
  }

  predicate DistinctPaths(loaded: seq<Texture>)
  {
    forall i, j :: 0 <= i < j < |loaded| ==> loaded[i].filepath != loaded[j].filepath
  }

  /** The cache holds each path once, its names were handed out in order,
      and the next name is fresh. */
  predicate Valid(c: Cache)
  {
    && DistinctPaths(c.loaded)
    && (forall i :: 0 <= i < |c.loaded| ==> c.loaded[i].id < c.nextId)
    && (forall i, j :: 0 <= i < j < |c.loaded| ==> c.loaded[i].id < c.loaded[j].id)
  }

  /** One texture slot of a material: reuse the cached texture of that path,
      or load the file under a fresh name and cache it. */
  function Acquire(c: Cache, directory: string, path: string, typeName: string): (Texture, Cache)
  {
    match FindByPath(c.loaded, path)
    case Some(j) => (c.loaded[j], c)
    case None =>
      var t := Texture(c.nextId, typeName, path);
      (t, Cache(c.loaded + [t], c.nextId + 1, c.loads + [JoinPath(directory, path)]))
  }

  /** All slots of one texture type of a material, in slot order. */
  function AcquireAll(c: Cache, directory: string, paths: seq<string>, typeName: string): (seq<Texture>, Cache)
    decreases |paths|
  {
    if |paths| == 0 then ([], c)
    else
      var r := AcquireAll(c, directory, paths[..|paths| - 1], typeName);
      var t := Acquire(r.1, directory, paths[|paths| - 1], typeName);
      (r.0 + [t.0], t.1)
  }

  /** One more slot: the prefix's textures, then that slot's. */
  lemma AcquireAllPrefixStep(c: Cache, directory: string, paths: seq<string>, i: nat, typeName: string)
    requires i < |paths|
    ensures var r := AcquireAll(c, directory, paths[..i], typeName);
      var t := Acquire(r.1, directory, paths[i], typeName);
      AcquireAll(c, directory, paths[..i + 1], typeName) == (r.0 + [t.0], t.1)
  {
    assert paths[..i + 1][..i] == paths[..i];
  }

  /** How `c'` extends `c`: the old entries and loads are kept, and every
      new entry is a texture of the given type, under the next fresh name,
      whose file was read once, in entry order. */
  predicate Extends(c: Cache, c': Cache, directory: string, typeName: string)
  {
    && |c.loaded| <= |c'.loaded|
    && (forall j :: 0 <= j < |c.loaded| ==> c'.loaded[j] == c.loaded[j])
    && c'.nextId == c.nextId + (|c'.loaded| - |c.loaded|)
    && |c'.loads| == |c.loads| + (|c'.loaded| - |c.loaded|)
    && (forall j :: 0 <= j < |c.loads| ==> c'.loads[j] == c.loads[j])
    && (forall j :: |c.loaded| <= j < |c'.loaded| ==>
          && c'.loaded[j].typeName == typeName
          && c'.loaded[j].id == c.nextId + (j - |c.loaded|)
          && c'.loads[|c.loads| + (j - |c.loaded|)] == JoinPath(directory, c'.loaded[j].filepath))
  }

  /** One request: the texture has the requested path and sits in the new
      cache; a cached path is served by its cached entry without any load; an
      unknown path is loaded once and appended under the next name. */
  lemma AcquireSpec(c: Cache, directory: string, path: string, typeName: string)
    requires Valid(c)
    ensures var (t, c') := Acquire(c, directory, path, typeName);
      && Valid(c')
      && t.filepath == path
      && t in c'.loaded
      && Extends(c, c', directory, typeName)
      && (FindByPath(c.loaded, path).Some? ==> c' == c && t == c.loaded[FindByPath(c.loaded, path).value])
      && (FindByPath(c.loaded, path).None? ==>
            t == Texture(c.nextId, typeName, path) && c'.loaded == c.loaded + [t]
            && c'.loads == c.loads + [JoinPath(directory, path)])
  {
  }

  /** Extends is transitive. */
  lemma ExtendsTrans(c0: Cache, c1: Cache, c2: Cache, directory: string, typeName: string)
    requires Extends(c0, c1, directory, typeName) && Extends(c1, c2, directory, typeName)
    ensures Extends(c0, c2, directory, typeName)
  {
  }

  /** A whole slot list keeps the cache valid, and the cache only grows by
      freshly loaded textures of this type. */
  lemma {:induction false} AcquireAllExtends(c: Cache, directory: string, paths: seq<string>, typeName: string)
    requires Valid(c)
    ensures var c' := AcquireAll(c, directory, paths, typeName).1;
      Valid(c') && Extends(c, c', directory, typeName)
    decreases |paths|
  {
    if |paths| > 0 {
      var init := paths[..|paths| - 1];
      AcquireAllExtends(c, directory, init, typeName);
      var c1 := AcquireAll(c, directory, init, typeName).1;
      AcquireSpec(c1, directory, paths[|paths| - 1], typeName);
      ExtendsTrans(c, c1, AcquireAll(c, directory, paths, typeName).1, directory, typeName);
    }
  }

  /** The part of AcquireAllExtends most callers need: validity and the kept prefix. */
  lemma AcquireAllKeeps(c: Cache, directory: string, paths: seq<string>, typeName: string)
    requires Valid(c)
    ensures var c' := AcquireAll(c, directory, paths, typeName).1;
      && Valid(c') && |c.loaded| <= |c'.loaded|
      && forall j :: 0 <= j < |c.loaded| ==> c'.loaded[j] == c.loaded[j]
  {
    AcquireAllExtends(c, directory, paths, typeName);
  }

  /** An entry stays in a cache that grows at its end. */
  lemma GrowingKeepsMembers(a: seq<Texture>, b: seq<Texture>, t: Texture)
    requires |a| <= |b| && forall j :: 0 <= j < |a| ==> b[j] == a[j]
    requires t in a
    ensures t in b
  {
    var k :| 0 <= k < |a| && a[k] == t;
    assert b[k] == t;
  }

  /** One slot: the texture has the slot's path and is in the cache, which
      keeps what it had. */
  lemma AcquireKeeps(c: Cache, directory: string, path: string, typeName: string)
    ensures var r := Acquire(c, directory, path, typeName);
      && r.0.filepath == path && r.0 in r.1.loaded
      && |c.loaded| <= |r.1.loaded| && forall j :: 0 <= j < |c.loaded| ==> r.1.loaded[j] == c.loaded[j]
  {
  }

  /** One texture per slot, with the slot's path, each in the final cache. */
  lemma {:induction false} AcquireAllPaths(c: Cache, directory: string, paths: seq<string>, typeName: string)
    ensures var r := AcquireAll(c, directory, paths, typeName);
      && |r.0| == |paths|
      && (forall i :: 0 <= i < |r.0| ==> r.0[i].filepath == paths[i] && r.0[i] in r.1.loaded)
    decreases |paths|
  {
    if |paths| > 0 {
      var init := paths[..|paths| - 1];
      var p := paths[|paths| - 1];
      AcquireAllPaths(c, directory, init, typeName);
      var ts1 := AcquireAll(c, directory, init, typeName).0;
      var c1 := AcquireAll(c, directory, init, typeName).1;
      AcquireKeeps(c1, directory, p, typeName);
      var t := Acquire(c1, directory, p, typeName).0;
      var c2 := Acquire(c1, directory, p, typeName).1;
      var ts := ts1 + [t];
      assert AcquireAll(c, directory, paths, typeName) == (ts, c2);
      forall i | 0 <= i < |ts1| ensures ts[i].filepath == paths[i] && ts[i] in c2.loaded {
        assert ts[i] == ts1[i] && paths[i] == init[i];
        GrowingKeepsMembers(c1.loaded, c2.loaded, ts1[i]);
      }
    }
  }

  /** A path found in a cache is found at the same entry once the cache has grown. */
  lemma FindInExtension(a: seq<Texture>, b: seq<Texture>, path: string)
    requires |a| <= |b| && forall j :: 0 <= j < |a| ==> b[j] == a[j]
    requires FindByPath(a, path).Some?
    ensures FindByPath(b, path) == FindByPath(a, path)
  {
    var j := FindByPath(a, path).value;
    assert b[j].filepath == path;
    var r := FindByPath(b, path);
    assert r.Some? && r.value <= j;
    assert a[r.value] == b[r.value];
  }

  /** Slots whose path was already cached get the cached entry. */
  lemma {:induction false} AcquireAllCached(c: Cache, directory: string, paths: seq<string>, typeName: string)
    requires Valid(c)
    ensures var ts := AcquireAll(c, directory, paths, typeName).0;
      && |ts| == |paths|
      && (forall i :: 0 <= i < |ts| && FindByPath(c.loaded, paths[i]).Some? ==>
            ts[i] == c.loaded[FindByPath(c.loaded, paths[i]).value])
    decreases |paths|
  {
    AcquireAllPaths(c, directory, paths, typeName);
    if |paths| > 0 {
      var init := paths[..|paths| - 1];
      var p := paths[|paths| - 1];
      AcquireAllCached(c, directory, init, typeName);
      AcquireAllExtends(c, directory, init, typeName);
      var (ts1, c1) := AcquireAll(c, directory, init, typeName);
      var (t, c2) := Acquire(c1, directory, p, typeName);
      var ts := ts1 + [t];
      assert AcquireAll(c, directory, paths, typeName).0 == ts;
      forall i | 0 <= i < |ts| && FindByPath(c.loaded, paths[i]).Some?
        ensures ts[i] == c.loaded[FindByPath(c.loaded, paths[i]).value]
      {
        if i < |ts1| {
          assert ts[i] == ts1[i] && paths[i] == init[i];
        } else {
          FindInExtension(c.loaded, c1.loaded, p);
        }
      }
    }
  }

  /** Two requests for the same path, cached or not, get the same texture. */
  lemma SamePathSameTexture(c: Cache, directory: string, paths: seq<string>, typeName: string, i: nat, j: nat)
    requires Valid(c)
    requires i < |paths| && j < |paths| && paths[i] == paths[j]
    ensures var ts := AcquireAll(c, directory, paths, typeName).0;
      |ts| == |paths| && ts[i] == ts[j]
  {
    AcquireAllPaths(c, directory, paths, typeName);
    AcquireAllExtends(c, directory, paths, typeName);
    var (ts, c') := AcquireAll(c, directory, paths, typeName);
    var a :| 0 <= a < |c'.loaded| && c'.loaded[a] == ts[i];
    var b :| 0 <= b < |c'.loaded| && c'.loaded[b] == ts[j];
    assert a == b;
  }

  /** A requested path that was not cached is read from disk exactly once,
      however many slots name it. */
  lemma NewPathLoadedOnce(c: Cache, directory: string, paths: seq<string>, typeName: string, p: string)
    requires Valid(c)
    requires p in paths && FindByPath(c.loaded, p).None?
    ensures var c' := AcquireAll(c, directory, paths, typeName).1;
      exists j :: |c.loaded| <= j < |c'.loaded| && c'.loaded[j].filepath == p
        && forall j' :: 0 <= j' < |c'.loaded| && c'.loaded[j'].filepath == p ==> j' == j
  {
    AcquireAllPaths(c, directory, paths, typeName);
    AcquireAllExtends(c, directory, paths, typeName);
    var (ts, c') := AcquireAll(c, directory, paths, typeName);
    var i :| 0 <= i < |paths| && paths[i] == p;
    var j :| 0 <= j < |c'.loaded| && c'.loaded[j] == ts[i];
  }

  /** [p, p] on an empty cache reads the file once and shares the texture;
      [p, q] with p != q reads both files and gives two names. */
  lemma AcquireAllExample(directory: string, p: string, q: string, typeName: string)
    requires p != q
    ensures var (ts, c') := AcquireAll(Cache([], 1, []), directory, [p, p], typeName);
      ts == [Texture(1, typeName, p), Texture(1, typeName, p)] && c'.loads == [JoinPath(directory, p)]
    ensures var (ts, c') := AcquireAll(Cache([], 1, []), directory, [p, q], typeName);
      ts == [Texture(1, typeName, p), Texture(2, typeName, q)]
      && c'.loads == [JoinPath(directory, p), JoinPath(directory, q)]
  {
    var c0 := Cache([], 1, []);
    var t := Texture(1, typeName, p);
    assert [p, p][..1] == [p] && [p, q][..1] == [p];
    assert [p][..0] == [];
    var c1 := Cache([t], 2, [JoinPath(directory, p)]);
    assert AcquireAll(c0, directory, [], typeName) == ([], c0);
    assert FindByPath(c0.loaded, p) == None;
    assert c0.loaded + [t] == [t];
    assert Acquire(c0, directory, p, typeName).0 == t;
    assert Acquire(c0, directory, p, typeName).1 == c1;
    assert AcquireAll(c0, directory, [p], typeName) == ([t], c1);
    assert FindByPath(c1.loaded, p) == Some(0);
    assert FindByPath(c1.loaded, q) == None;
  }
}
