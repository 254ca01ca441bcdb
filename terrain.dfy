/**
 * The terrain object and the diamond-square subdivision that fills it. The
 * height map is a buffer of `size * size` heights updated in place; every
 * operation is proved to compute the corresponding function of module
 * HeightMap on the buffer's contents.
 */
module DiamondSquare {
  import opened Arith
  import opened HeightMap

  /** A square height map of side `2^n + 1`, stored row-major. */
  class Terrain {
    const size: nat
    /** The largest valid coordinate. */
    const max: nat
    const heightMap: array<real>

    ghost predicate Valid()
    {
      size == max + 1 && heightMap.Length == size * size && IsPow2(max)
    }

    /** A fresh terrain of side `2^n + 1` with every height zero. */
    constructor (n: nat)
      ensures Valid() && fresh(heightMap)
      ensures size == Pow2(n) + 1 && max == size - 1
      ensures heightMap.Length == size * size
      ensures forall i :: 0 <= i < heightMap.Length ==> heightMap[i] == 0.0
    {
      size := Pow2(n) + 1;
      max := Pow2(n);
      heightMap := new real[(Pow2(n) + 1) * (Pow2(n) + 1)](_ => 0.0);
      Pow2IsPow2(n);
    }

    /** The height at column `x`, row `y`, or -1 when either is outside `[0, max]`. */
    function GetHeight(x: int, y: int): (r: real)
      requires Valid()
      reads heightMap
      ensures r == Get(heightMap[..], size, x, y)
      ensures !InRange(max, x, y) ==> r == -1.0
    {
      if x < 0 || x > max || y < 0 || y > max then -1.0
      else (CellIndex(size, x, y); heightMap[y * size + x])
    }

    /**
     * Writes `val` at `(x, y)`. `rejected` is true where the source returns -1:
     * a coordinate outside `[0, max]`, in which case nothing changes.
     */
    method SetHeight(x: int, y: int, val: real) returns (rejected: bool)
      requires Valid()
      modifies heightMap
      ensures rejected == !InRange(max, x, y)
      ensures heightMap[..] == Set(old(heightMap[..]), size, x, y, val)
      ensures rejected ==> heightMap[..] == old(heightMap[..])
    {
      if x < 0 || x > max || y < 0 || y > max {
        return true;
      }
      CellIndex(size, x, y);
      heightMap[y * size + x] := val;
      rejected := false;
    }

    /**
     * Seeds the corners with 2, 4, 3 and 2 and subdivides. `random` stands for
     * the successive results of the random source.
     */
    method Render(factor: real, random: Draw -> real)
      requires Valid()
      modifies heightMap
      ensures heightMap[..] == Generate(old(heightMap[..]), size, Noise(factor, random))
      ensures GetHeight(0, 0) == 2.0 && GetHeight(0, max) == 4.0
      ensures GetHeight(max, 0) == 3.0 && GetHeight(max, max) == 2.0
    {
      var rejected := SetHeight(0, 0, 2.0);
      rejected := SetHeight(0, max, 4.0);
      rejected := SetHeight(max, 0, 3.0);
      rejected := SetHeight(max, max, 2.0);
      Division(factor, max, max, this, random);
      CornersAfterGenerate(old(heightMap[..]), size, Noise(factor, random));
    }
  }

  /**
   * The mean of three or four values, the sentinel -1 for any other count;
   * summed in a loop as the source does.
   */
  method Average(values: seq<real>) returns (r: real)
    ensures r == Mean(values)
  {
    if |values| < 3 || |values| > 4 {
      return -1.0;
    }
    var sum := 0.0;
    var i := 0;
    while i < |values|
      invariant 0 <= i <= |values|
      invariant sum == Sum(values[..i])
    {
      assert values[..i + 1][..i] == values[..i];
      sum := sum + values[i];
      i := i + 1;
    }
    assert values[..i] == values;
    r := sum / (|values| as real);
  }

  /**
   * InSquare and InDiamond read the four neighbours of `(x, y)` at distance
   * `dist` (the source's parameter `size`, which division passes as `mid`),
   * keep the reads that are not -1 in order, and write their average plus
   * `randomVal` at `(x, y)`.
   */
  method InSquare(x: int, y: int, dist: int, randomVal: real, t: Terrain)
    requires t.Valid()
    modifies t.heightMap
    ensures t.heightMap[..] == Step(old(t.heightMap[..]), t.size, Square, x, y, dist, randomVal)
  {
    ghost var h := t.heightMap[..];
    var values := SquareReads(x, y, dist, t);
    var avg := Average(values);
    BlendIsMean(h, t.size, Square, x, y, dist);
    assert avg == Blend(TallyOf(h, t.size, Square, x, y, dist, 4));
    assert t.heightMap[..] == h;
    var _ := t.SetHeight(x, y, avg + randomVal);
  }

  /** The four diagonal reads of InSquare, each pushed unless it is -1. */
  method SquareReads(x: int, y: int, dist: int, t: Terrain) returns (values: seq<real>)
    requires t.Valid()
    ensures values == Pushed(t.heightMap[..], t.size, Square, x, y, dist, 4)
  {
    ghost var h := t.heightMap[..];
    values := [];
    var val := t.GetHeight(x - dist, y - dist);
    if val != -1.0 { values := values + [val]; }
    assert values == Pushed(h, t.size, Square, x, y, dist, 1);
    val := t.GetHeight(x + dist, y + dist);
    if val != -1.0 { values := values + [val]; }
    assert values == Pushed(h, t.size, Square, x, y, dist, 2);
    val := t.GetHeight(x + dist, y - dist);
    if val != -1.0 { values := values + [val]; }
    assert values == Pushed(h, t.size, Square, x, y, dist, 3);
    val := t.GetHeight(x - dist, y + dist);
    if val != -1.0 { values := values + [val]; }
  }

  method InDiamond(x: int, y: int, dist: int, randomVal: real, t: Terrain)
    requires t.Valid()
    modifies t.heightMap
    ensures t.heightMap[..] == Step(old(t.heightMap[..]), t.size, Diamond, x, y, dist, randomVal)
  {
    ghost var h := t.heightMap[..];
    var values := DiamondReads(x, y, dist, t);
    var avg := Average(values);
    BlendIsMean(h, t.size, Diamond, x, y, dist);
    assert avg == Blend(TallyOf(h, t.size, Diamond, x, y, dist, 4));
    assert t.heightMap[..] == h;
    var _ := t.SetHeight(x, y, avg + randomVal);
  }

  /** The four axis reads of InDiamond, each pushed unless it is -1. */
  method DiamondReads(x: int, y: int, dist: int, t: Terrain) returns (values: seq<real>)
    requires t.Valid()
    ensures values == Pushed(t.heightMap[..], t.size, Diamond, x, y, dist, 4)
  {
    ghost var h := t.heightMap[..];
    values := [];
    var val := t.GetHeight(x, y - dist);
    if val != -1.0 { values := values + [val]; }
    assert values == Pushed(h, t.size, Diamond, x, y, dist, 1);
    val := t.GetHeight(x + dist, y);
    if val != -1.0 { values := values + [val]; }
    assert values == Pushed(h, t.size, Diamond, x, y, dist, 2);
    val := t.GetHeight(x, y + dist);
    if val != -1.0 { values := values + [val]; }
    assert values == Pushed(h, t.size, Diamond, x, y, dist, 3);
    val := t.GetHeight(x - dist, y);
    if val != -1.0 { values := values + [val]; }
  }

  /**
   * One level of diamond-square with step `size`, then the next level with
   * half the step, until the half-step `mid` drops below one. Each of the
   * source's four loops is a method of its own below, with the source's
   * bounds and increments.
   */
  method Division(factor: real, size: nat, max: nat, t: Terrain, random: Draw -> real)
    requires t.Valid() && max == t.max && IsPow2(size)
    modifies t.heightMap
    ensures t.heightMap[..] == Divide(old(t.heightMap[..]), t.size, size, Noise(factor, random))
    decreases size
  {
    // the source's mid = size / 2 is below one exactly when size < 2
    if size < 2 {
      return;
    }
    SquarePass(factor, size, max, t, random);
    DiamondPass(factor, size, max, t, random);
    Division(factor, size / 2, max, t, random);
  }

  /** The square sweep: both loops of the source's first loop nest. */
  method SquarePass(factor: real, size: nat, max: nat, t: Terrain, random: Draw -> real)
    requires t.Valid() && max == t.max && size >= 2
    modifies t.heightMap
    ensures t.heightMap[..] == SweepAll(old(t.heightMap[..]), t.size, Square, size, Noise(factor, random))
  {
    ghost var noise := Noise(factor, random);
    ghost var target := SweepAll(t.heightMap[..], t.size, Square, size, noise);
    var mid: nat := size / 2;
    RowsReachRows(t.heightMap[..], t.size, Square, size, noise, mid);
    var y: nat := mid;
    while y < max
      invariant RowsReach(t.heightMap[..], t.size, Square, size, noise, y, target)
    {
      ghost var rowEnd := Row(t.heightMap[..], t.size, Square, size, noise, y, mid);
      RowReachesRow(t.heightMap[..], t.size, Square, size, noise, y, mid);
      var x: nat := mid;
      while x < max
        invariant RowReaches(t.heightMap[..], t.size, Square, size, noise, y, x, rowEnd)
      {
        InSquare(x, y, mid, Offset(factor, size, random(Draw(Square, size, x, y))), t);
        x := x + size;
      }
      y := y + size;
    }
  }

  /** The diamond sweep: both loops of the source's second loop nest. */
  method DiamondPass(factor: real, size: nat, max: nat, t: Terrain, random: Draw -> real)
    requires t.Valid() && max == t.max && size >= 2
    modifies t.heightMap
    ensures t.heightMap[..] == SweepAll(old(t.heightMap[..]), t.size, Diamond, size, Noise(factor, random))
  {
    ghost var noise := Noise(factor, random);
    ghost var target := SweepAll(t.heightMap[..], t.size, Diamond, size, noise);
    var mid: nat := size / 2;
    RowsReachRows(t.heightMap[..], t.size, Diamond, size, noise, 0);
    var y: nat := 0;
    while y < max
      invariant RowsReach(t.heightMap[..], t.size, Diamond, size, noise, y, target)
    {
      var x: nat := (y + mid) % size;
      assert x == XStart(Diamond, size, y);
      ghost var rowEnd := Row(t.heightMap[..], t.size, Diamond, size, noise, y, x);
      RowReachesRow(t.heightMap[..], t.size, Diamond, size, noise, y, x);
      while x < max
        invariant RowReaches(t.heightMap[..], t.size, Diamond, size, noise, y, x, rowEnd)
      {
        InDiamond(x, y, mid, Offset(factor, size, random(Draw(Diamond, size, x, y))), t);
        x := x + mid;
      }
      y := y + mid;
    }
  }
}
