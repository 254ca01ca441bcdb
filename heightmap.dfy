/**
 * The height map as a value: a row-major sequence of `size * size` heights,
 * with the bounds-checked read and write of the terrain object, the averaging
 * rule, and one diamond-square pass written as functions that walk the grid in
 * the very order of the source's loops. The imperative code in module DiamondSquare
 * is proved to compute exactly these functions.
 */
module HeightMap {
  import opened Arith

  /** What an out-of-range read, and an average over a wrong count, return. */
  const Sentinel: real := -1.0

  predicate InRange(max: int, x: int, y: int)
  {
    0 <= x <= max && 0 <= y <= max
  }

  /** Bounds-checked read: the height at column `x`, row `y`, or the sentinel out of range. */
  function Get(h: seq<real>, size: nat, x: int, y: int): real
    requires |h| == size * size
  {
    if InRange(size - 1, x, y) then (CellIndex(size, x, y); h[y * size + x]) else Sentinel
  }

  /** Bounds-checked write: in range the cell `(x, y)` becomes `v`, out of range nothing changes. */
  function Set(h: seq<real>, size: nat, x: int, y: int, v: real): (r: seq<real>)
    requires |h| == size * size
    ensures |r| == |h|
  {
    if InRange(size - 1, x, y) then (CellIndex(size, x, y); h[y * size + x := v]) else h
  }

  lemma GetSetSame(h: seq<real>, size: nat, x: int, y: int, v: real)
    requires |h| == size * size && InRange(size - 1, x, y)
    ensures Get(Set(h, size, x, y, v), size, x, y) == v
  {
    CellIndex(size, x, y);
  }

  /** A write changes no other cell, and a write out of range changes none at all. */
  lemma GetSetOther(h: seq<real>, size: nat, x: int, y: int, v: real, x': int, y': int)
    requires |h| == size * size
    requires x' != x || y' != y || !InRange(size - 1, x, y)
    ensures Get(Set(h, size, x, y, v), size, x', y') == Get(h, size, x', y')
  {
    if InRange(size - 1, x, y) && InRange(size - 1, x', y') {
      CellIndex(size, x, y);
      CellIndex(size, x', y');
      if y * size + x == y' * size + x' {
        CellInjective(size, x, y, x', y');
      }
    }
  }

  // ---------------------------------------------------------------------------
  // average

  /** Left-to-right sum, as the source's accumulating loop adds them. */
  function Sum(s: seq<real>): real
  {
    if s == [] then 0.0 else Sum(s[..|s| - 1]) + s[|s| - 1]
  }

  lemma {:induction false} SumBounds(s: seq<real>, lo: real, hi: real)
    requires forall i :: 0 <= i < |s| ==> lo <= s[i] <= hi
    ensures lo * (|s| as real) <= Sum(s) <= hi * (|s| as real)
  {
    if s != [] {
      SumBounds(s[..|s| - 1], lo, hi);
    }
  }

  /** The arithmetic mean of three or four values; any other count gives the sentinel. */
  function Mean(values: seq<real>): (r: real)
    ensures 3 <= |values| <= 4 ==> r * (|values| as real) == Sum(values)
    ensures !(3 <= |values| <= 4) ==> r == Sentinel
  {
    if |values| < 3 || |values| > 4 then Sentinel else Sum(values) / (|values| as real)
  }

  /** A mean of three or four values lies between their bounds. */
  lemma MeanWithin(values: seq<real>, lo: real, hi: real)
    requires 3 <= |values| <= 4
    requires forall i :: 0 <= i < |values| ==> lo <= values[i] <= hi
    ensures lo <= Mean(values) <= hi
  {
    SumBounds(values, lo, hi);
    var n := |values| as real;
    assert Mean(values) * n == Sum(values);
  }

  // ---------------------------------------------------------------------------
  // InSquare and InDiamond

  datatype Sweep = Square | Diamond

  /**
   * The `i`-th of the four reads around `(x, y)` at distance `d`, in the order
   * the source makes them: InSquare reads the diagonal neighbours, InDiamond
   * the neighbours along the axes.
   */
  function Read(h: seq<real>, size: nat, kind: Sweep, x: int, y: int, d: int, i: nat): real
    requires |h| == size * size && i < 4
  {
    match kind
    case Square =>
      if i == 0 then Get(h, size, x - d, y - d)
      else if i == 1 then Get(h, size, x + d, y + d)
      else if i == 2 then Get(h, size, x + d, y - d)
      else Get(h, size, x - d, y + d)
    case Diamond =>
      if i == 0 then Get(h, size, x, y - d)
      else if i == 1 then Get(h, size, x + d, y)
      else if i == 2 then Get(h, size, x, y + d)
      else Get(h, size, x - d, y)
  }

  /** A read is pushed onto the local array unless it equals the sentinel. */
  function Keep(v: real): seq<real>
  {
    if v == Sentinel then [] else [v]
  }

  /** The local array of InSquare or InDiamond after its first `n` reads. */
  function Pushed(h: seq<real>, size: nat, kind: Sweep, x: int, y: int, d: int, n: nat): (r: seq<real>)
    requires |h| == size * size && n <= 4
    ensures |r| <= n && Sentinel !in r
  {
    if n == 0 then [] else Pushed(h, size, kind, x, y, d, n - 1) + Keep(Read(h, size, kind, x, y, d, n - 1))
  }

  /** How many reads were kept, and what they add up to. */
  datatype Tally = Tally(count: nat, total: real)

  function Count(v: real): nat
  {
    if v == Sentinel then 0 else 1
  }

  function Weight(v: real): real
  {
    if v == Sentinel then 0.0 else v
  }

  /** The tally of the first `n` reads. */
  function TallyOf(h: seq<real>, size: nat, kind: Sweep, x: int, y: int, d: int, n: nat): Tally
    requires |h| == size * size && n <= 4
  {
    if n == 0 then Tally(0, 0.0)
    else
      var t := TallyOf(h, size, kind, x, y, d, n - 1);
      var v := Read(h, size, kind, x, y, d, n - 1);
      Tally(t.count + Count(v), t.total + Weight(v))
  }

  /**
   * The new height before the random offset: the total over the count, or the
   * sentinel unless three or four reads were kept.
   */
  function Blend(t: Tally): real
  {
    if t.count == 3 then t.total / 3.0 else if t.count == 4 then t.total / 4.0 else Sentinel
  }

  lemma SumKeep(s: seq<real>, v: real)
    ensures |s + Keep(v)| == |s| + Count(v)
    ensures Sum(s + Keep(v)) == Sum(s) + Weight(v)
  {
    if v != Sentinel {
      assert (s + [v])[..|s|] == s;
    } else {
      assert s + [] == s;
    }
  }

  /** The tally counts and adds up exactly the local array. */
  lemma {:induction false} TallyOfPushed(h: seq<real>, size: nat, kind: Sweep, x: int, y: int, d: int, n: nat)
    requires |h| == size * size && n <= 4
    ensures |Pushed(h, size, kind, x, y, d, n)| == TallyOf(h, size, kind, x, y, d, n).count
    ensures Sum(Pushed(h, size, kind, x, y, d, n)) == TallyOf(h, size, kind, x, y, d, n).total
  {
    if n > 0 {
      TallyOfPushed(h, size, kind, x, y, d, n - 1);
      SumKeep(Pushed(h, size, kind, x, y, d, n - 1), Read(h, size, kind, x, y, d, n - 1));
    }
  }

  /** Blend of the four reads is exactly average applied to the local array. */
  lemma BlendIsMean(h: seq<real>, size: nat, kind: Sweep, x: int, y: int, d: int)
    requires |h| == size * size
    ensures Blend(TallyOf(h, size, kind, x, y, d, 4)) == Mean(Pushed(h, size, kind, x, y, d, 4))
  {
    TallyOfPushed(h, size, kind, x, y, d, 4);
  }

  /** InSquare / InDiamond: cell `(x, y)` becomes the blend of its neighbours plus the offset. */
  function Step(h: seq<real>, size: nat, kind: Sweep, x: int, y: int, d: int, offset: real): (r: seq<real>)
    requires |h| == size * size
    ensures |r| == |h|
  {
    Set(h, size, x, y, Blend(TallyOf(h, size, kind, x, y, d, 4)) + offset)
  }

  /**
   * InSquare and InDiamond write only `(x, y)`; in range it receives the
   * average of the local array plus the offset.
   */
  lemma StepWrites(h: seq<real>, size: nat, kind: Sweep, x: int, y: int, d: int, offset: real, x': int, y': int)
    requires |h| == size * size
    ensures x' != x || y' != y ==> Get(Step(h, size, kind, x, y, d, offset), size, x', y') == Get(h, size, x', y')
    ensures InRange(size - 1, x, y) ==>
      Get(Step(h, size, kind, x, y, d, offset), size, x, y) == Mean(Pushed(h, size, kind, x, y, d, 4)) + offset
  {
    var v := Blend(TallyOf(h, size, kind, x, y, d, 4)) + offset;
    BlendIsMean(h, size, kind, x, y, d);
    if x' != x || y' != y {
      GetSetOther(h, size, x, y, v, x', y');
    }
    if InRange(size - 1, x, y) {
      GetSetSame(h, size, x, y, v);
    }
  }

  // ---------------------------------------------------------------------------
  // division

  /**
   * Which call of the random source is meant: the sweep, the level's step and
   * the cell. No two calls in one run share a key, so a function on keys can
   * stand for any sequence of outcomes of the source.
   */
  datatype Draw = Draw(kind: Sweep, step: nat, x: int, y: int)

  /** The roughness factor and the injected random source. */
  datatype Noise = Noise(factor: real, random: Draw -> real)

  /** `random * 2 * scale - scale` with `scale = factor * step`. */
  function Offset(factor: real, step: nat, random: real): (o: real)
    ensures factor == 0.0 ==> o == 0.0
    ensures 0.0 <= factor && 0.0 <= random < 1.0 ==> -(factor * step as real) <= o <= factor * step as real
  {
    var scale := factor * step as real;
    assert random * 2.0 * scale - scale == scale * (2.0 * random - 1.0);
    assert 0.0 <= scale && -1.0 <= 2.0 * random - 1.0 <= 1.0 ==> -scale <= scale * (2.0 * random - 1.0) <= scale;
    random * 2.0 * scale - scale
  }

  function OffsetAt(noise: Noise, kind: Sweep, step: nat, x: int, y: int): real
  {
    Offset(noise.factor, step, noise.random(Draw(kind, step, x, y)))
  }

  /** Column stride, which is also the row stride, of a sweep at a level of step `step`. */
  function Stride(kind: Sweep, step: nat): nat
  {
    match kind
    case Square => step
    case Diamond => step / 2
  }

  /** The first row of a sweep. */
  function YStart(kind: Sweep, step: nat): nat
  {
    match kind
    case Square => step / 2
    case Diamond => 0
  }

  /** The first column of a sweep in row `y`. */
  function XStart(kind: Sweep, step: nat, y: nat): nat
    requires step >= 2
  {
    match kind
    case Square => step / 2
    case Diamond => (y + step / 2) % step
  }

  /**
   * The rest of row `y` from column `x` on: the source's inner loop, which
   * visits `(x, y)` and moves on by one stride while `x < max`.
   */
  function Row(h: seq<real>, size: nat, kind: Sweep, step: nat, noise: Noise, y: nat, x: nat): (r: seq<real>)
    requires |h| == size * size && step >= 2
    ensures |r| == |h|
    decreases size - x
  {
    if x >= size - 1 then h
    else
      var h' := Step(h, size, kind, x, y, step / 2, OffsetAt(noise, kind, step, x, y));
      Row(h', size, kind, step, noise, y, x + Stride(kind, step))
  }

  /**
   * The rest of a sweep from row `y` on: the source's outer loop, which runs
   * the row from its first column and moves on by one stride while `y < max`.
   */
  function Rows(h: seq<real>, size: nat, kind: Sweep, step: nat, noise: Noise, y: nat): (r: seq<real>)
    requires |h| == size * size && step >= 2
    ensures |r| == |h|
    decreases size - y
  {
    if y >= size - 1 then h
    else Rows(Row(h, size, kind, step, noise, y, XStart(kind, step, y)), size, kind, step, noise, y + Stride(kind, step))
  }

  /**
   * `target` is what the rest of row `y` from column `x` produces: Row stated
   * as a relation, so that a loop can carry it as its invariant.
   */
  predicate RowReaches(h: seq<real>, size: nat, kind: Sweep, step: nat, noise: Noise, y: nat, x: nat, target: seq<real>)
    requires |h| == size * size && step >= 2
    decreases size - x
  {
    if x >= size - 1 then h == target
    else
      var h' := Step(h, size, kind, x, y, step / 2, OffsetAt(noise, kind, step, x, y));
      RowReaches(h', size, kind, step, noise, y, x + Stride(kind, step), target)
  }

  /** Rows stated as a relation. */
  predicate RowsReach(h: seq<real>, size: nat, kind: Sweep, step: nat, noise: Noise, y: nat, target: seq<real>)
    requires |h| == size * size && step >= 2
    decreases size - y
  {
    if y >= size - 1 then h == target
    else RowsReach(Row(h, size, kind, step, noise, y, XStart(kind, step, y)), size, kind, step, noise, y + Stride(kind, step), target)
  }

  lemma {:induction false} RowReachesRow(h: seq<real>, size: nat, kind: Sweep, step: nat, noise: Noise, y: nat, x: nat)
    requires |h| == size * size && step >= 2
    ensures RowReaches(h, size, kind, step, noise, y, x, Row(h, size, kind, step, noise, y, x))
    decreases size - x
  {
    if x < size - 1 {
      var h' := Step(h, size, kind, x, y, step / 2, OffsetAt(noise, kind, step, x, y));
      RowReachesRow(h', size, kind, step, noise, y, x + Stride(kind, step));
    }
  }

  lemma {:induction false} RowsReachRows(h: seq<real>, size: nat, kind: Sweep, step: nat, noise: Noise, y: nat)
    requires |h| == size * size && step >= 2
    ensures RowsReach(h, size, kind, step, noise, y, Rows(h, size, kind, step, noise, y))
    decreases size - y
  {
    if y < size - 1 {
      var h' := Row(h, size, kind, step, noise, y, XStart(kind, step, y));
      RowsReachRows(h', size, kind, step, noise, y + Stride(kind, step));
    }
  }

  /** One whole square sweep or diamond sweep. */
  function SweepAll(h: seq<real>, size: nat, kind: Sweep, step: nat, noise: Noise): (r: seq<real>)
    requires |h| == size * size && step >= 2
    ensures |r| == |h|
  {
    Rows(h, size, kind, step, noise, YStart(kind, step))
  }

  /** One working level of division: the square sweep, then the diamond sweep. */
  function Level(h: seq<real>, size: nat, step: nat, noise: Noise): (r: seq<real>)
    requires |h| == size * size && step >= 2
    ensures |r| == |h|
  {
    SweepAll(SweepAll(h, size, Square, step, noise), size, Diamond, step, noise)
  }

  /** The steps of the working levels: halve until the half-step drops below one. */
  function Schedule(step: nat): (s: seq<nat>)
    ensures forall k :: 0 <= k < |s| ==> s[k] >= 2
    decreases step
  {
    if step < 2 then [] else [step] + Schedule(step / 2)
  }

  /**
   * From render, division works through exactly `n` levels, with steps
   * `2^n, 2^(n-1), ..., 2`: every half-step `mid` is a whole number of at least one.
   */
  lemma {:induction false} ScheduleOfPow2(n: nat)
    ensures |Schedule(Pow2(n))| == n
    ensures forall k :: 0 <= k < n ==> Schedule(Pow2(n))[k] == Pow2(n - k) && Pow2(n - k) / 2 == Pow2(n - k - 1)
  {
    Pow2IsPow2(n);
    if n > 0 {
      ScheduleOfPow2(n - 1);
      forall k | 0 <= k < n
        ensures Schedule(Pow2(n))[k] == Pow2(n - k) && Pow2(n - k) / 2 == Pow2(n - k - 1)
      {
        Pow2IsPow2(n - k);
        if k > 0 {
          assert Schedule(Pow2(n))[k] == Schedule(Pow2(n - 1))[k - 1];
        }
      }
    }
  }

  function RunLevels(h: seq<real>, size: nat, steps: seq<nat>, noise: Noise): (r: seq<real>)
    requires |h| == size * size
    requires forall k :: 0 <= k < |steps| ==> steps[k] >= 2
    ensures |r| == |h|
    decreases |steps|
  {
    if steps == [] then h else RunLevels(Level(h, size, steps[0], noise), size, steps[1..], noise)
  }

  /** What `division(factor, step, max, obj)` does to the height map. */
  function Divide(h: seq<real>, size: nat, step: nat, noise: Noise): (r: seq<real>)
    requires |h| == size * size
    ensures |r| == |h|
  {
    RunLevels(h, size, Schedule(step), noise)
  }

  /** The four corner writes of render. */
  function Seeded(h: seq<real>, size: nat): (r: seq<real>)
    requires |h| == size * size
    ensures |r| == |h|
  {
    var max := size - 1;
    Set(Set(Set(Set(h, size, 0, 0, 2.0), size, 0, max, 4.0), size, max, 0, 3.0), size, max, max, 2.0)
  }

  /** What render does to the height map. */
  function Generate(h: seq<real>, size: nat, noise: Noise): (r: seq<real>)
    requires |h| == size * size && size >= 1
    ensures |r| == |h|
  {
    Divide(Seeded(h, size), size, size - 1, noise)
  }

  // ---------------------------------------------------------------------------
  // Cells that division never writes

  /** The last column, the last row and the origin: no sweep ever visits them. */
  predicate NeverWritten(max: int, x: int, y: int)
  {
    x == max || y == max || (x == 0 && y == 0)
  }

  lemma {:induction false} RowKeeps(h: seq<real>, size: nat, kind: Sweep, step: nat, noise: Noise, y: nat, x: nat, x': int, y': int)
    requires |h| == size * size && step >= 2 && y < size - 1 && (x > 0 || y > 0)
    requires NeverWritten(size - 1, x', y')
    ensures Get(Row(h, size, kind, step, noise, y, x), size, x', y') == Get(h, size, x', y')
    decreases size - x
  {
    if x < size - 1 {
      var offset := OffsetAt(noise, kind, step, x, y);
      StepWrites(h, size, kind, x, y, step / 2, offset, x', y');
      RowKeeps(Step(h, size, kind, x, y, step / 2, offset), size, kind, step, noise, y, x + Stride(kind, step), x', y');
    }
  }

  lemma {:induction false} RowsKeep(h: seq<real>, size: nat, kind: Sweep, step: nat, noise: Noise, y: nat, x': int, y': int)
    requires |h| == size * size && step >= 2 && (y > 0 || XStart(kind, step, y) > 0)
    requires NeverWritten(size - 1, x', y')
    ensures Get(Rows(h, size, kind, step, noise, y), size, x', y') == Get(h, size, x', y')
    decreases size - y
  {
    if y < size - 1 {
      var h' := Row(h, size, kind, step, noise, y, XStart(kind, step, y));
      RowKeeps(h, size, kind, step, noise, y, XStart(kind, step, y), x', y');
      assert Stride(kind, step) > 0;
      RowsKeep(h', size, kind, step, noise, y + Stride(kind, step), x', y');
    }
  }

  lemma SweepKeeps(h: seq<real>, size: nat, kind: Sweep, step: nat, noise: Noise, x': int, y': int)
    requires |h| == size * size && step >= 2
    requires NeverWritten(size - 1, x', y')
    ensures Get(SweepAll(h, size, kind, step, noise), size, x', y') == Get(h, size, x', y')
  {
    SmallMod(step / 2, step);
    RowsKeep(h, size, kind, step, noise, YStart(kind, step), x', y');
  }

  lemma {:induction false} RunLevelsKeeps(h: seq<real>, size: nat, steps: seq<nat>, noise: Noise, x': int, y': int)
    requires |h| == size * size
    requires forall k :: 0 <= k < |steps| ==> steps[k] >= 2
    requires NeverWritten(size - 1, x', y')
    ensures Get(RunLevels(h, size, steps, noise), size, x', y') == Get(h, size, x', y')
    decreases |steps|
  {
    if steps != [] {
      var step := steps[0];
      SweepKeeps(h, size, Square, step, noise, x', y');
      SweepKeeps(SweepAll(h, size, Square, step, noise), size, Diamond, step, noise, x', y');
      RunLevelsKeeps(Level(h, size, step, noise), size, steps[1..], noise, x', y');
    }
  }

  /** Division leaves the last row, the last column and the origin as they were. */
  lemma DivideKeeps(h: seq<real>, size: nat, step: nat, noise: Noise, x': int, y': int)
    requires |h| == size * size && NeverWritten(size - 1, x', y')
    ensures Get(Divide(h, size, step, noise), size, x', y') == Get(h, size, x', y')
  {
    RunLevelsKeeps(h, size, Schedule(step), noise, x', y');
  }

  /** After render the four corners hold exactly the seeded heights 2, 4, 3 and 2. */
  lemma CornersAfterGenerate(h: seq<real>, size: nat, noise: Noise)
    requires |h| == size * size && size >= 2
    ensures Get(Generate(h, size, noise), size, 0, 0) == 2.0
    ensures Get(Generate(h, size, noise), size, 0, size - 1) == 4.0
    ensures Get(Generate(h, size, noise), size, size - 1, 0) == 3.0
    ensures Get(Generate(h, size, noise), size, size - 1, size - 1) == 2.0
  {
    var max := size - 1;
    var s1 := Set(h, size, 0, 0, 2.0);
    var s2 := Set(s1, size, 0, max, 4.0);
    var s3 := Set(s2, size, max, 0, 3.0);
    var s4 := Set(s3, size, max, max, 2.0);
    GetSetSame(h, size, 0, 0, 2.0);
    GetSetOther(s1, size, 0, max, 4.0, 0, 0);
    GetSetOther(s2, size, max, 0, 3.0, 0, 0);
    GetSetOther(s3, size, max, max, 2.0, 0, 0);
    GetSetSame(s1, size, 0, max, 4.0);
    GetSetOther(s2, size, max, 0, 3.0, 0, max);
    GetSetOther(s3, size, max, max, 2.0, 0, max);
    GetSetSame(s2, size, max, 0, 3.0);
    GetSetOther(s3, size, max, max, 2.0, max, 0);
    GetSetSame(s3, size, max, max, 2.0);
    DivideKeeps(s4, size, max, noise, 0, 0);
    DivideKeeps(s4, size, max, noise, 0, max);
    DivideKeeps(s4, size, max, noise, max, 0);
    DivideKeeps(s4, size, max, noise, max, max);
  }

  // ---------------------------------------------------------------------------
  // A factor of zero

  /** With factor 0 the random source cannot influence a row, ... */
  lemma {:induction false} RowNoiseFree(h: seq<real>, size: nat, kind: Sweep, step: nat, r1: Draw -> real, r2: Draw -> real, y: nat, x: nat)
    requires |h| == size * size && step >= 2
    ensures Row(h, size, kind, step, Noise(0.0, r1), y, x) == Row(h, size, kind, step, Noise(0.0, r2), y, x)
    decreases size - x
  {
    if x < size - 1 {
      assert OffsetAt(Noise(0.0, r1), kind, step, x, y) == 0.0 == OffsetAt(Noise(0.0, r2), kind, step, x, y);
      RowNoiseFree(Step(h, size, kind, x, y, step / 2, 0.0), size, kind, step, r1, r2, y, x + Stride(kind, step));
    }
  }

  /** ... nor a sweep, ... */
  lemma {:induction false} RowsNoiseFree(h: seq<real>, size: nat, kind: Sweep, step: nat, r1: Draw -> real, r2: Draw -> real, y: nat)
    requires |h| == size * size && step >= 2
    ensures Rows(h, size, kind, step, Noise(0.0, r1), y) == Rows(h, size, kind, step, Noise(0.0, r2), y)
    decreases size - y
  {
    if y < size - 1 {
      RowNoiseFree(h, size, kind, step, r1, r2, y, XStart(kind, step, y));
      RowsNoiseFree(Row(h, size, kind, step, Noise(0.0, r1), y, XStart(kind, step, y)), size, kind, step, r1, r2, y + Stride(kind, step));
    }
  }

  lemma {:induction false} RunLevelsNoiseFree(h: seq<real>, size: nat, steps: seq<nat>, r1: Draw -> real, r2: Draw -> real)
    requires |h| == size * size
    requires forall k :: 0 <= k < |steps| ==> steps[k] >= 2
    ensures RunLevels(h, size, steps, Noise(0.0, r1)) == RunLevels(h, size, steps, Noise(0.0, r2))
    decreases |steps|
  {
    if steps != [] {
      var step := steps[0];
      var s1 := SweepAll(h, size, Square, step, Noise(0.0, r1));
      RowsNoiseFree(h, size, Square, step, r1, r2, YStart(Square, step));
      RowsNoiseFree(s1, size, Diamond, step, r1, r2, YStart(Diamond, step));
      RunLevelsNoiseFree(Level(h, size, step, Noise(0.0, r1)), size, steps[1..], r1, r2);
    }
  }

  /** ... so with factor 0 render produces the same terrain whatever the random source returns. */
  lemma GenerateNoiseFree(h: seq<real>, size: nat, r1: Draw -> real, r2: Draw -> real)
    requires |h| == size * size && size >= 1
    ensures Generate(h, size, Noise(0.0, r1)) == Generate(h, size, Noise(0.0, r2))
  {
    RunLevelsNoiseFree(Seeded(h, size), size, Schedule(size - 1), r1, r2);
  }

  // ---------------------------------------------------------------------------
  // The smallest terrain, worked out

  /** The tally of all four reads, written out. */
  lemma TallyOfFour(h: seq<real>, size: nat, kind: Sweep, x: int, y: int, d: int)
    requires |h| == size * size
    ensures TallyOf(h, size, kind, x, y, d, 4) == Tally(
      Count(Read(h, size, kind, x, y, d, 0)) + Count(Read(h, size, kind, x, y, d, 1)) + Count(Read(h, size, kind, x, y, d, 2)) + Count(Read(h, size, kind, x, y, d, 3)),
      Weight(Read(h, size, kind, x, y, d, 0)) + Weight(Read(h, size, kind, x, y, d, 1)) + Weight(Read(h, size, kind, x, y, d, 2)) + Weight(Read(h, size, kind, x, y, d, 3)))
  {
    assert TallyOf(h, size, kind, x, y, d, 1) == Tally(Count(Read(h, size, kind, x, y, d, 0)), Weight(Read(h, size, kind, x, y, d, 0)));
    assert TallyOf(h, size, kind, x, y, d, 2).count == Count(Read(h, size, kind, x, y, d, 0)) + Count(Read(h, size, kind, x, y, d, 1));
  }

  /**
   * A fresh 3 x 3 terrain rendered with factor 0. The square sweep sets the
   * centre to the average of the four corners, 2.75, but the diamond sweep,
   * stepping by the half-step, visits the centre again and averages it from
   * the edge midpoints, two of which (the last column and the last row) are
   * never written and still hold 0.
   */
  lemma FlatThreeByThree(h: seq<real>, random: Draw -> real)
    requires |h| == 9 && forall i :: 0 <= i < 9 ==> h[i] == 0.0
    ensures Get(SweepAll(Seeded(h, 3), 3, Square, 2, Noise(0.0, random)), 3, 1, 1) == 2.75
    ensures Generate(h, 3, Noise(0.0, random)) == [2.0, 31.0 / 12.0, 3.0, 35.0 / 12.0, 11.0 / 8.0, 0.0, 4.0, 0.0, 2.0]
  {
    var noise := Noise(0.0, random);
    var s0 := Seeded(h, 3);
    assert s0 == [2.0, 0.0, 3.0, 0.0, 0.0, 0.0, 4.0, 0.0, 2.0];
    assert Schedule(2) == [2];
    // square sweep: the centre gets the corner average
    assert OffsetAt(noise, Square, 2, 1, 1) == 0.0;
    TallyOfFour(s0, 3, Square, 1, 1, 1);
    assert TallyOf(s0, 3, Square, 1, 1, 1, 4) == Tally(4, 11.0);
    var sq := Step(s0, 3, Square, 1, 1, 1, 0.0);
    assert sq == s0[4 := 2.75];
    assert SweepAll(s0, 3, Square, 2, noise) == sq;
    // diamond sweep
    assert OffsetAt(noise, Diamond, 2, 1, 0) == 0.0;
    TallyOfFour(sq, 3, Diamond, 1, 0, 1);
    assert TallyOf(sq, 3, Diamond, 1, 0, 1, 4) == Tally(3, 7.75);
    var d1 := Step(sq, 3, Diamond, 1, 0, 1, 0.0);
    assert d1 == sq[1 := 31.0 / 12.0];
    assert OffsetAt(noise, Diamond, 2, 0, 1) == 0.0;
    TallyOfFour(d1, 3, Diamond, 0, 1, 1);
    assert TallyOf(d1, 3, Diamond, 0, 1, 1, 4) == Tally(3, 8.75);
    var d2 := Step(d1, 3, Diamond, 0, 1, 1, 0.0);
    assert d2 == d1[3 := 35.0 / 12.0];
    assert OffsetAt(noise, Diamond, 2, 1, 1) == 0.0;
    TallyOfFour(d2, 3, Diamond, 1, 1, 1);
    assert TallyOf(d2, 3, Diamond, 1, 1, 1, 4) == Tally(4, 5.5);
    var d3 := Step(d2, 3, Diamond, 1, 1, 1, 0.0);
    assert d3 == d2[4 := 11.0 / 8.0];
    assert Row(sq, 3, Diamond, 2, noise, 0, 1) == d1;
    assert Row(d1, 3, Diamond, 2, noise, 1, 0) == d3;
    assert SweepAll(sq, 3, Diamond, 2, noise) == d3;
    assert Level(s0, 3, 2, noise) == d3;
    assert RunLevels(s0, 3, [2], noise) == RunLevels(d3, 3, [], noise) == d3;
    assert Divide(s0, 3, 2, noise) == d3;
  }
}
