/** The axis-aligned bounding box calculateBoundingBox computes over the
    vertex positions of all meshes, with its `else if`: a coordinate that
    lowers the running minimum is never compared with the running maximum. */
module BoundingBox {
  import opened Geometry

  /** std::numeric_limits<float>::max(), the seed of every minimum (and,
      negated, of every maximum). */
  const SEED: real := 340282346638528859811704183484516925440.0

  datatype Range = Range(min: real, max: real)

  datatype Bounds = Bounds(minX: real, maxX: real, minY: real, maxY: real, minZ: real, maxZ: real)

  function Lo(b: Bounds, a: Axis): real
  {
    match a
    case X => b.minX
    case Y => b.minY
    case Z => b.minZ
  }

  function Hi(b: Bounds, a: Axis): real
  {
    match a
    case X => b.maxX
    case Y => b.maxY
    case Z => b.maxZ
  }

  /** One coordinate through the scan. */
  function ScanStep(r: Range, v: real): Range
  {
    if v < r.min then Range(v, r.max)
    else if v > r.max then Range(r.min, v)
    else r
  }

  /** The running range of one axis after the vertices `vs`, in order. */
  function ScanAxis(vs: seq<Vertex>, a: Axis): Range
    decreases |vs|
  {
    if |vs| == 0 then Range(SEED, -SEED)
    else ScanStep(ScanAxis(vs[..|vs| - 1], a), Coord(vs[|vs| - 1].position, a))
  }

  /** The box of a vertex list, axis by axis. */
  function BoxOf(vs: seq<Vertex>): Bounds
  {
    var x, y, z := ScanAxis(vs, X), ScanAxis(vs, Y), ScanAxis(vs, Z);
    Bounds(x.min, x.max, y.min, y.max, z.min, z.max)
  }

  /** centerPosition: the midpoint of the box on each axis. */
  function Center(b: Bounds): (c: Vec3)
    ensures forall a: Axis :: Coord(c, a) - Lo(b, a) == Hi(b, a) - Coord(c, a)
  {
    Vec3((b.minX + b.maxX) / 2.0, (b.minY + b.maxY) / 2.0, (b.minZ + b.maxZ) / 2.0)
  }

  /** The scan extended by one vertex. */
  lemma ScanAxisSnoc(vs: seq<Vertex>, v: Vertex, a: Axis)
    ensures ScanAxis(vs + [v], a) == ScanStep(ScanAxis(vs, a), Coord(v.position, a))
  {
    assert (vs + [v])[..|vs|] == vs;
  }

  /** The box extended by one vertex: one scan step on each axis. */
  lemma BoxSnoc(vs: seq<Vertex>, v: Vertex)
    ensures var b := BoxOf(vs);
      var x, y, z := ScanStep(Range(b.minX, b.maxX), v.position.x),
                     ScanStep(Range(b.minY, b.maxY), v.position.y),
                     ScanStep(Range(b.minZ, b.maxZ), v.position.z);
      BoxOf(vs + [v]) == Bounds(x.min, x.max, y.min, y.max, z.min, z.max)
  {
    ScanAxisSnoc(vs, v, X);
    ScanAxisSnoc(vs, v, Y);
    ScanAxisSnoc(vs, v, Z);
  }

  /** Coordinates a float can hold. */
  predicate Finite(vs: seq<Vertex>, a: Axis)
  {
    forall k :: 0 <= k < |vs| ==> -SEED <= Coord(vs[k].position, a) <= SEED
  }

  /** The minimum is exact: it is below every coordinate and is the seed only
      when no coordinate is below it. */
  lemma {:induction false} ScanMinExact(vs: seq<Vertex>, a: Axis)
    requires Finite(vs, a)
    ensures forall k :: 0 <= k < |vs| ==> ScanAxis(vs, a).min <= Coord(vs[k].position, a)
    ensures ScanAxis(vs, a).min == SEED || exists k :: 0 <= k < |vs| && ScanAxis(vs, a).min == Coord(vs[k].position, a)
    decreases |vs|
  {
    if |vs| > 0 {
      var init := vs[..|vs| - 1];
      assert Finite(init, a) by {
        forall k | 0 <= k < |init| ensures -SEED <= Coord(init[k].position, a) <= SEED {
          assert init[k] == vs[k];
        }
      }
      ScanMinExact(init, a);
      var r := ScanAxis(init, a);
      if ScanAxis(vs, a).min == r.min && r.min != SEED {
        var k :| 0 <= k < |init| && r.min == Coord(init[k].position, a);
        assert vs[k] == init[k];
      }
      forall k | 0 <= k < |vs| ensures ScanAxis(vs, a).min <= Coord(vs[k].position, a) {
        if k < |init| {
          assert vs[k] == init[k];
        }
      }
    }
  }

  /** What the maximum misses: every coordinate is below the maximum unless it
      lowered the running minimum when it was scanned; and the maximum is the
      negated seed or one of the coordinates. */
  lemma {:induction false} ScanMaxMisses(vs: seq<Vertex>, a: Axis)
    ensures forall k :: 0 <= k < |vs| ==>
      Coord(vs[k].position, a) <= ScanAxis(vs, a).max || Coord(vs[k].position, a) < ScanAxis(vs[..k], a).min
    ensures ScanAxis(vs, a).max == -SEED || exists k :: 0 <= k < |vs| && ScanAxis(vs, a).max == Coord(vs[k].position, a)
    decreases |vs|
  {
    if |vs| > 0 {
      var init := vs[..|vs| - 1];
      ScanMaxMisses(init, a);
      var r := ScanAxis(init, a);
      assert r.max <= ScanAxis(vs, a).max;
      if ScanAxis(vs, a).max == r.max && r.max != -SEED {
        var k :| 0 <= k < |init| && r.max == Coord(init[k].position, a);
        assert vs[k] == init[k];
      }
      forall k | 0 <= k < |vs|
        ensures Coord(vs[k].position, a) <= ScanAxis(vs, a).max || Coord(vs[k].position, a) < ScanAxis(vs[..k], a).min
      {
        if k < |init| {
          assert vs[k] == init[k] && vs[..k] == init[..k];
        } else {
          assert vs[..k] == init;
        }
      }
    }
  }

  /** Without vertices the box stays at its seeds. */
  lemma EmptyBox()
    ensures BoxOf([]) == Bounds(SEED, -SEED, SEED, -SEED, SEED, -SEED)
  {
  }

  /** A single finite vertex sets every minimum and leaves every maximum at
      its seed. */
  lemma SingleVertexBox(v: Vertex)
    requires v.position.x < SEED && v.position.y < SEED && v.position.z < SEED
    ensures BoxOf([v]) == Bounds(v.position.x, -SEED, v.position.y, -SEED, v.position.z, -SEED)
  {
    assert [v][..0] == [];
    assert ScanAxis([v], X) == ScanStep(Range(SEED, -SEED), v.position.x);
    assert ScanAxis([v], Y) == ScanStep(Range(SEED, -SEED), v.position.y);
    assert ScanAxis([v], Z) == ScanStep(Range(SEED, -SEED), v.position.z);
  }

  /** x-coordinates 1 then 0 leave minX = 0 above maxX = -SEED: the box is
      inverted even though the vertices span [0, 1]. */
  lemma InvertedBoxExample()
    ensures var vs := [Vertex(Vec3(1.0, 0.0, 0.0), Vec3(0.0, 0.0, 0.0), Vec2(0.0, 0.0)),
                       Vertex(Vec3(0.0, 0.0, 0.0), Vec3(0.0, 0.0, 0.0), Vec2(0.0, 0.0))];
      ScanAxis(vs, X) == Range(0.0, -SEED) && ScanAxis(vs, X).min > ScanAxis(vs, X).max
  {
    var v1 := Vertex(Vec3(1.0, 0.0, 0.0), Vec3(0.0, 0.0, 0.0), Vec2(0.0, 0.0));
    var v0 := Vertex(Vec3(0.0, 0.0, 0.0), Vec3(0.0, 0.0, 0.0), Vec2(0.0, 0.0));
    var vs := [v1, v0];
    assert vs[..1] == [v1];
    assert [v1][..0] == [];
    assert ScanAxis([v1], X) == Range(1.0, -SEED);
  }
}
