/** The remapping normalize applies to every vertex position: the largest
    dimension of the box is stretched onto [lo, hi], the other two are scaled
    by the same factor without being shifted. */
module Normalization {
  import opened Geometry
  import opened BoundingBox

  /** fabsf(max - min) on one axis. */
  function Magnitude(b: Bounds, a: Axis): (m: real)
    ensures m >= 0.0 && (m == 0.0 <==> Hi(b, a) == Lo(b, a))
  {
    Abs(Hi(b, a) - Lo(b, a))
  }

  /** `magY > magX ? (magZ > magY ? Z : Y) : X`: Z is considered only when Y
      beats X, and ties go to the earlier axis. */
  function LargestDimension(magX: real, magY: real, magZ: real): (a: Axis)
    ensures a == Z <==> magY > magX && magZ > magY
    ensures a == Y <==> magY > magX && magZ <= magY
    ensures a == X <==> magY <= magX
  {
    if magY > magX then (if magZ > magY then Z else Y) else X
  }

  function Dominant(b: Bounds): Axis
  {
    LargestDimension(Magnitude(b, X), Magnitude(b, Y), Magnitude(b, Z))
  }

  /** The box normalize can divide by: its chosen dimension is not flat. */
  predicate Scalable(b: Bounds)
  {
    Magnitude(b, Dominant(b)) != 0.0
  }

  /** 1 / magnitude of the chosen dimension. */
  function ScaleFactor(b: Bounds): (f: real)
    requires Scalable(b)
    ensures f > 0.0 && f * Magnitude(b, Dominant(b)) == 1.0
  {
    1.0 / Magnitude(b, Dominant(b))
  }

  /** One coordinate on axis `a`, for the target interval [lo, hi]. */
  function NormalizeCoord(v: real, a: Axis, b: Bounds, lo: real, hi: real): real
    requires Scalable(b)
  {
    if a == Dominant(b) then Stretch(v, Lo(b, a), Hi(b, a), lo, hi)
    else (hi - lo) * (v * ScaleFactor(b))
  }

  /** `size * (v - l) / (h - l) + lo`: [l, h] onto [lo, hi]. */
  function Stretch(v: real, l: real, h: real, lo: real, hi: real): real
    requires h != l
  {
    (hi - lo) * (v - l) / (h - l) + lo
  }

  lemma StretchEndpoints(l: real, h: real, lo: real, hi: real)
    requires h != l
    ensures Stretch(l, l, h, lo, hi) == lo && Stretch(h, l, h, lo, hi) == hi
  {
    MulDivCancel(hi - lo, h - l);
  }

  lemma StretchWithin(v: real, l: real, h: real, lo: real, hi: real)
    requires l <= v <= h && l != h && lo <= hi
    ensures lo <= Stretch(v, l, h, lo, hi) <= hi
  {
    MulDivAssoc(hi - lo, v - l, h - l);
    DivUnit(v - l, h - l);
    var t := (v - l) / (h - l);
    MulUnit(hi - lo, t);
    assert Stretch(v, l, h, lo, hi) == (hi - lo) * t + lo;
  }

  function NormalizePosition(p: Vec3, b: Bounds, lo: real, hi: real): (q: Vec3)
    requires Scalable(b)
    ensures forall a: Axis :: Coord(q, a) == NormalizeCoord(Coord(p, a), a, b, lo, hi)
  {
    Vec3(NormalizeCoord(p.x, X, b, lo, hi), NormalizeCoord(p.y, Y, b, lo, hi), NormalizeCoord(p.z, Z, b, lo, hi))
  }

  /** Only the position of a vertex changes. */
  function NormalizeVertex(v: Vertex, b: Bounds, lo: real, hi: real): (w: Vertex)
    requires Scalable(b)
    ensures w.normal == v.normal && w.textureCoords == v.textureCoords
    ensures w.position == NormalizePosition(v.position, b, lo, hi)
  {
    v.(position := NormalizePosition(v.position, b, lo, hi))
  }

  function NormalizeVertices(vs: seq<Vertex>, b: Bounds, lo: real, hi: real): (ws: seq<Vertex>)
    requires Scalable(b)
    ensures |ws| == |vs| && forall j :: 0 <= j < |vs| ==> ws[j] == NormalizeVertex(vs[j], b, lo, hi)
  {
    seq(|vs|, j requires 0 <= j < |vs| => NormalizeVertex(vs[j], b, lo, hi))
  }

  /** The first switch in normalize: 1 / the magnitude of the largest
      dimension. */
  function SwitchScale(largestDimension: Axis, magX: real, magY: real, magZ: real): real
    requires match largestDimension case X => magX != 0.0 case Y => magY != 0.0 case Z => magZ != 0.0
  {
    match largestDimension
    case X => 1.0 / magX
    case Y => 1.0 / magY
    case Z => 1.0 / magZ
  }

  /** Computed from the box's own magnitudes, the switch picks Dominant and
      its factor is ScaleFactor. */
  lemma SwitchScaleAgrees(b: Bounds)
    requires Scalable(b)
    ensures var magX, magY, magZ := Magnitude(b, X), Magnitude(b, Y), Magnitude(b, Z);
      LargestDimension(magX, magY, magZ) == Dominant(b) &&
      SwitchScale(Dominant(b), magX, magY, magZ) == ScaleFactor(b)
  {
  }

  /** One coordinate as the switch in normalize's loop computes it, with
      `largestDimension`, `scaleFactor` and `size` computed once up front:
      the largest dimension is stretched, the other two are scaled. */
  function SwitchCoord(v: real, a: Axis, b: Bounds, largestDimension: Axis, scaleFactor: real, size: real, min: real): real
    requires Magnitude(b, largestDimension) != 0.0
  {
    if a == largestDimension then size * (v - Lo(b, a)) / (Hi(b, a) - Lo(b, a)) + min
    else size * (v * scaleFactor)
  }

  /** The three assignments after the switch. */
  function SwitchPosition(p: Vec3, b: Bounds, largestDimension: Axis, scaleFactor: real, size: real, min: real): Vec3
    requires Magnitude(b, largestDimension) != 0.0
  {
    Vec3(SwitchCoord(p.x, X, b, largestDimension, scaleFactor, size, min),
         SwitchCoord(p.y, Y, b, largestDimension, scaleFactor, size, min),
         SwitchCoord(p.z, Z, b, largestDimension, scaleFactor, size, min))
  }

  /** With the dimension and factor normalize computes, each coordinate of
      the switch is the remapping onto [min, max]. */
  lemma SwitchCoordAgrees(v: real, a: Axis, b: Bounds, largestDimension: Axis, scaleFactor: real, size: real, min: real, max: real)
    requires Scalable(b) && largestDimension == Dominant(b) && scaleFactor == ScaleFactor(b)
    requires size == max - min
    ensures SwitchCoord(v, a, b, largestDimension, scaleFactor, size, min) == NormalizeCoord(v, a, b, min, max)
  {
    if a == largestDimension {
      StretchedCoord(v, a, b, size, min, max);
    } else {
      ScaledCoord(v, a, b, size, min, max);
    }
  }

  lemma StretchedCoord(v: real, a: Axis, b: Bounds, size: real, min: real, max: real)
    requires Scalable(b) && a == Dominant(b) && size == max - min
    ensures SwitchCoord(v, a, b, a, ScaleFactor(b), size, min) == NormalizeCoord(v, a, b, min, max)
  {
  }

  lemma ScaledCoord(v: real, a: Axis, b: Bounds, size: real, min: real, max: real)
    requires Scalable(b) && a != Dominant(b) && size == max - min
    ensures SwitchCoord(v, a, b, Dominant(b), ScaleFactor(b), size, min) == NormalizeCoord(v, a, b, min, max)
  {
  }

  lemma SwitchPositionAgrees(p: Vec3, b: Bounds, largestDimension: Axis, scaleFactor: real, size: real, min: real, max: real)
    requires Scalable(b) && largestDimension == Dominant(b) && scaleFactor == ScaleFactor(b)
    requires size == max - min
    ensures SwitchPosition(p, b, largestDimension, scaleFactor, size, min) == NormalizePosition(p, b, min, max)
  {
    SwitchCoordAgrees(p.x, X, b, largestDimension, scaleFactor, size, min, max);
    SwitchCoordAgrees(p.y, Y, b, largestDimension, scaleFactor, size, min, max);
    SwitchCoordAgrees(p.z, Z, b, largestDimension, scaleFactor, size, min, max);
  }

  lemma MulDivCancel(x: real, s: real)
    requires s != 0.0
    ensures x * s / s == x
  {
  }

  lemma MulDivAssoc(x: real, y: real, s: real)
    requires s != 0.0
    ensures x * y / s == x * (y / s)
  {
  }

  lemma DivUnit(n: real, s: real)
    requires 0.0 <= n <= s && s > 0.0
    ensures 0.0 <= n / s <= 1.0
  {
  }

  lemma MulUnit(x: real, t: real)
    requires x >= 0.0 && 0.0 <= t <= 1.0
    ensures 0.0 <= x * t <= x
  {
  }

  /** The box ends of the chosen dimension land on lo and hi. */
  lemma DominantEndpoints(b: Bounds, lo: real, hi: real)
    requires Scalable(b)
    ensures NormalizeCoord(Lo(b, Dominant(b)), Dominant(b), b, lo, hi) == lo
    ensures NormalizeCoord(Hi(b, Dominant(b)), Dominant(b), b, lo, hi) == hi
  {
    StretchEndpoints(Lo(b, Dominant(b)), Hi(b, Dominant(b)), lo, hi);
  }

  /** On the chosen dimension, a coordinate inside the box lands inside
      [lo, hi] (for a box whose ends are in order). */
  lemma DominantWithin(b: Bounds, v: real, lo: real, hi: real)
    requires Scalable(b) && lo <= hi
    requires Lo(b, Dominant(b)) <= v <= Hi(b, Dominant(b))
    ensures lo <= NormalizeCoord(v, Dominant(b), b, lo, hi) <= hi
  {
    StretchWithin(v, Lo(b, Dominant(b)), Hi(b, Dominant(b)), lo, hi);
  }

  /** Every axis is scaled by the same factor: differences of coordinates
      are multiplied by (hi - lo) / magnitude on all three axes, so the
      model keeps its proportions (for a box whose chosen ends are in order). */
  lemma UniformScale(b: Bounds, p: Vec3, q: Vec3, a: Axis, lo: real, hi: real)
    requires Scalable(b) && Lo(b, Dominant(b)) < Hi(b, Dominant(b))
    ensures NormalizeCoord(Coord(p, a), a, b, lo, hi) - NormalizeCoord(Coord(q, a), a, b, lo, hi)
         == (hi - lo) * ScaleFactor(b) * (Coord(p, a) - Coord(q, a))
  {
    var d := Dominant(b);
    if a == d {
      assert ScaleFactor(b) == 1.0 / (Hi(b, d) - Lo(b, d));
      StretchDifference(Coord(p, a), Coord(q, a), Lo(b, d), Hi(b, d), lo, hi);
    } else {
      ScaledDifference(Coord(p, a), Coord(q, a), ScaleFactor(b), hi - lo);
    }
  }

  /** On a box whose chosen dimension has its minimum above its maximum
      (which the bounding-box scan can produce), the signed divisor mirrors
      that axis: its differences are multiplied by the negated factor, while
      the other two axes keep the positive one. */
  lemma MirroredScale(b: Bounds, p: Vec3, q: Vec3, a: Axis, lo: real, hi: real)
    requires Scalable(b) && Hi(b, Dominant(b)) < Lo(b, Dominant(b))
    ensures a == Dominant(b) ==>
      NormalizeCoord(Coord(p, a), a, b, lo, hi) - NormalizeCoord(Coord(q, a), a, b, lo, hi)
        == -((hi - lo) * ScaleFactor(b) * (Coord(p, a) - Coord(q, a)))
    ensures a != Dominant(b) ==>
      NormalizeCoord(Coord(p, a), a, b, lo, hi) - NormalizeCoord(Coord(q, a), a, b, lo, hi)
        == (hi - lo) * ScaleFactor(b) * (Coord(p, a) - Coord(q, a))
  {
    var d := Dominant(b);
    if a == d {
      assert ScaleFactor(b) == 1.0 / (Lo(b, d) - Hi(b, d));
      MirroredDifference(Coord(p, a), Coord(q, a), Lo(b, d), Hi(b, d), lo, hi);
    } else {
      ScaledDifference(Coord(p, a), Coord(q, a), ScaleFactor(b), hi - lo);
    }
  }

  /** The box of the single vertex (1, 0, 0) can be normalized, and its
      chosen dimension X is inverted: minX = 1 lies above maxX = -SEED. */
  lemma MirroredBoxExample()
    ensures var b := BoxOf([Vertex(Vec3(1.0, 0.0, 0.0), Vec3(0.0, 0.0, 0.0), Vec2(0.0, 0.0))]);
      Scalable(b) && Dominant(b) == X && Hi(b, X) < Lo(b, X)
  {
    SingleVertexBox(Vertex(Vec3(1.0, 0.0, 0.0), Vec3(0.0, 0.0, 0.0), Vec2(0.0, 0.0)));
  }

  /** Stretching multiplies differences by (hi - lo) / (h - l). */
  lemma StretchDifference(u: real, w: real, l: real, h: real, lo: real, hi: real)
    requires h != l
    ensures Stretch(u, l, h, lo, hi) - Stretch(w, l, h, lo, hi) == (hi - lo) * (1.0 / (h - l)) * (u - w)
  {
    var x, s := hi - lo, h - l;
    assert x * (u - l) / s - x * (w - l) / s == x * (u - w) / s;
    assert x * (u - w) / s == x * (1.0 / s) * (u - w);
  }

  /** With h below l, stretching multiplies differences by -(hi - lo) / (l - h). */
  lemma MirroredDifference(u: real, w: real, l: real, h: real, lo: real, hi: real)
    requires h < l
    ensures Stretch(u, l, h, lo, hi) - Stretch(w, l, h, lo, hi) == -((hi - lo) * (1.0 / (l - h)) * (u - w))
  {
    StretchDifference(u, w, l, h, lo, hi);
    assert 1.0 / (h - l) == -(1.0 / (l - h));
  }

  lemma ScaledDifference(u: real, w: real, f: real, k: real)
    ensures k * (u * f) - k * (w * f) == k * f * (u - w)
  {
  }

  /** Ties go to X and Z is ignored when Y does not beat X: a box 1 wide,
      flat in y and 5 deep is scaled along x. */
  lemma DominantSkipsZ()
    ensures Dominant(Bounds(0.0, 1.0, 0.0, 0.0, 0.0, 5.0)) == X
    ensures Dominant(Bounds(0.0, 2.0, 0.0, 2.0, 0.0, 1.0)) == X
  {
  }

  /** The cube [-1, 1]^3 onto [-1, 1] changes nothing. */
  lemma UnitCubeFixed(p: Vec3)
    ensures Scalable(Bounds(-1.0, 1.0, -1.0, 1.0, -1.0, 1.0))
    ensures NormalizePosition(p, Bounds(-1.0, 1.0, -1.0, 1.0, -1.0, 1.0), -1.0, 1.0) == p
  {
    var b := Bounds(-1.0, 1.0, -1.0, 1.0, -1.0, 1.0);
    assert Dominant(b) == X;
  }

  /** The box [0,10] x [0,2] x [0,2] onto [-1, 1]: the far corner goes to
      (1, 0.4, 0.4) and the origin to (-1, 0, 0). */
  lemma BoxExample()
    ensures Scalable(Bounds(0.0, 10.0, 0.0, 2.0, 0.0, 2.0))
    ensures NormalizePosition(Vec3(10.0, 2.0, 2.0), Bounds(0.0, 10.0, 0.0, 2.0, 0.0, 2.0), -1.0, 1.0) == Vec3(1.0, 0.4, 0.4)
    ensures NormalizePosition(Vec3(0.0, 0.0, 0.0), Bounds(0.0, 10.0, 0.0, 2.0, 0.0, 2.0), -1.0, 1.0) == Vec3(-1.0, 0.0, 0.0)
  {
    var b := Bounds(0.0, 10.0, 0.0, 2.0, 0.0, 2.0);
    assert Dominant(b) == X;
    assert ScaleFactor(b) == 0.1;
  }
}
