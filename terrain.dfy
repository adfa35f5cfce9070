/**
 * The deterministic parts of World.js's generator: the per-column material
 * rule, the water fill up to the water level, the tree-spacing rule, the two
 * tree shapes, and the whole generation pass over a square of columns whose
 * heights are given (the sine-wave height field itself is not modelled).
 * Every block goes through Place, so the plans below are sequences of
 * (cell, type) placements folded over the store in the order the loops issue them.
 */
module Terrain {
  import opened Common
  import opened Voxels

  const WaterLevel := 0
  /** The lowest layer every column starts from. */
  const Bottom := -5
  /** Squared horizontal distance below which a tree candidate is rejected. */
  const TreeSpacingSq := 25

  type Placement = (Pos, Kind)

  // ---------------------------------------------------------------------------
  // Folding placements over the store

  /** The store after placing plan[0], ..., plan[n-1], first to last. */
  function PlacePrefix(s: Store, plan: seq<Placement>, n: nat): (r: Store)
    requires n <= |plan|
    ensures r.seed == s.seed
  {
    if n == 0 then s else Place(PlacePrefix(s, plan, n - 1), plan[n - 1].0, plan[n - 1].1)
  }

  /** The store after placing every element of plan, first to last. */
  function PlaceAll(s: Store, plan: seq<Placement>): (r: Store)
    ensures r.seed == s.seed
  {
    PlacePrefix(s, plan, |plan|)
  }

  /** A prefix of a + b that lies within a is a prefix of a. */
  lemma {:induction false} PrefixOfAppend(s: Store, a: seq<Placement>, b: seq<Placement>, n: nat)
    requires n <= |a|
    ensures PlacePrefix(s, a + b, n) == PlacePrefix(s, a, n)
  {
    if n > 0 {
      PrefixOfAppend(s, a, b, n - 1);
      assert (a + b)[n - 1] == a[n - 1];
    }
  }

  lemma PlaceAllNone(s: Store, plan: seq<Placement>)
    requires plan == []
    ensures PlaceAll(s, plan) == s
  {
  }

  lemma PlaceAllOne(s: Store, c: Placement)
    ensures PlaceAll(s, [c]) == Place(s, c.0, c.1)
  {
    assert PlacePrefix(s, [c], 0) == s;
  }

  lemma PlaceAllSnoc(s: Store, plan: seq<Placement>, c: Placement)
    ensures PlaceAll(s, plan + [c]) == Place(PlaceAll(s, plan), c.0, c.1)
  {
    PrefixOfAppend(s, plan, [c], |plan|);
    assert (plan + [c])[|plan|] == c;
  }

  /** Placing the first |a| + n elements of a + b is placing a, then the first n of b. */
  lemma {:induction false} PrefixAppend(s: Store, a: seq<Placement>, b: seq<Placement>, n: nat)
    requires n <= |b|
    ensures PlacePrefix(s, a + b, |a| + n) == PlacePrefix(PlaceAll(s, a), b, n)
  {
    if n == 0 {
      PrefixOfAppend(s, a, b, |a|);
    } else {
      PrefixAppend(s, a, b, n - 1);
      assert (a + b)[|a| + n - 1] == b[n - 1];
    }
  }

  /** Placing a + b is placing a, then b. */
  lemma PlaceAllAppend(s: Store, a: seq<Placement>, b: seq<Placement>)
    ensures PlaceAll(s, a + b) == PlaceAll(PlaceAll(s, a), b)
  {
    PrefixAppend(s, a, b, |b|);
  }

  lemma {:induction false} PlacePrefixValid(s: Store, plan: seq<Placement>, n: nat)
    requires Valid(s) && n <= |plan|
    ensures Valid(PlacePrefix(s, plan, n))
  {
    if n > 0 {
      PlacePrefixValid(s, plan, n - 1);
      PlacePreservesValid(PlacePrefix(s, plan, n - 1), plan[n - 1].0, plan[n - 1].1);
    }
  }

  /** Placing a plan keeps the store's invariant. */
  lemma PlaceAllValid(s: Store, plan: seq<Placement>)
    requires Valid(s)
    ensures Valid(PlaceAll(s, plan))
  {
    PlacePrefixValid(s, plan, |plan|);
  }

  lemma {:induction false} PrefixKeepsAndCounts(s: Store, plan: seq<Placement>, n: nat)
    requires n <= |plan|
    ensures forall q :: q in s.blocks ==> q in PlacePrefix(s, plan, n).blocks
    ensures PlacePrefix(s, plan, n).counts.Keys == s.counts.Keys
    ensures forall u :: u in s.counts ==> s.counts[u] <= PlacePrefix(s, plan, n).counts[u] <= s.counts[u] + n
  {
    if n > 0 {
      PrefixKeepsAndCounts(s, plan, n - 1);
      PlaceKeepsAndCounts(PlacePrefix(s, plan, n - 1), plan[n - 1].0, plan[n - 1].1);
    }
  }

  /** A plan never removes a cell, and raises each counter by at most its length. */
  lemma PlaceAllKeepsAndCounts(s: Store, plan: seq<Placement>)
    ensures forall q :: q in s.blocks ==> q in PlaceAll(s, plan).blocks
    ensures PlaceAll(s, plan).counts.Keys == s.counts.Keys
    ensures forall u :: u in s.counts ==> s.counts[u] <= PlaceAll(s, plan).counts[u] <= s.counts[u] + |plan|
  {
    PrefixKeepsAndCounts(s, plan, |plan|);
  }

  // ---------------------------------------------------------------------------
  // Columns (World.js:229-244)

  /** The material of layer y in a column whose surface is at height h. */
  function Material(y: int, h: int): (t: Kind)
    ensures t in MeshTypes
  {
    if y == h && y >= WaterLevel then Grass
    else if y > h - 3 && y >= WaterLevel then Dirt
    else if y < h && y <= WaterLevel then Sand
    else Stone
  }

  /** The layers Bottom .. yEnd-1 of the column at (x, z), bottom first. */
  function ColumnPlan(x: int, z: int, h: int, yEnd: int): (plan: seq<Placement>)
    ensures |plan| == if yEnd <= Bottom then 0 else yEnd - Bottom
    decreases yEnd - Bottom
  {
    if yEnd <= Bottom then [] else ColumnPlan(x, z, h, yEnd - 1) + [((x, yEnd - 1, z), Material(yEnd - 1, h))]
  }

  /** Water in the n layers h+1 .. h+n of the column at (x, z). */
  function WaterPlan(x: int, z: int, h: int, n: int): (plan: seq<Placement>)
    ensures |plan| == if n <= 0 then 0 else n
  {
    if n <= 0 then [] else WaterPlan(x, z, h, n - 1) + [((x, h + n, z), Water)]
  }

  /** Everything one column places before its tree: the layers up to h, then water up to the water level. */
  function ColumnAndWater(x: int, z: int, h: int): seq<Placement> {
    ColumnPlan(x, z, h, h + 1) + (if h < WaterLevel then WaterPlan(x, z, h, WaterLevel - h) else [])
  }

  // ---------------------------------------------------------------------------
  // Tree spacing (World.js:253-265)

  function SqDist(a: (int, int), b: (int, int)): int {
    (a.0 - b.0) * (a.0 - b.0) + (a.1 - b.1) * (a.1 - b.1)
  }

  /** A candidate root is too close when some earlier root is within squared distance 25. */
  predicate TooClose(trees: seq<(int, int)>, x: int, z: int) {
    exists i :: 0 <= i < |trees| && SqDist(trees[i], (x, z)) < TreeSpacingSq
  }

  /** All accepted roots are pairwise at squared distance at least 25. */
  ghost predicate Spaced(trees: seq<(int, int)>) {
    forall i, j :: 0 <= i < j < |trees| ==> SqDist(trees[i], trees[j]) >= TreeSpacingSq
  }

  /** Accepting a root that is not too close keeps the roots spaced. */
  lemma AcceptKeepsSpaced(trees: seq<(int, int)>, x: int, z: int)
    requires Spaced(trees) && !TooClose(trees, x, z)
    ensures Spaced(trees + [(x, z)])
  {
    var t := trees + [(x, z)];
    forall i, j | 0 <= i < j < |t| ensures SqDist(t[i], t[j]) >= TreeSpacingSq {
      if j == |trees| {
        assert t[i] == trees[i];
      } else {
        assert t[i] == trees[i] && t[j] == trees[j];
      }
    }
  }

  // ---------------------------------------------------------------------------
  // Trees (World.js:281-326)

  function Min(a: int, b: int): int { if a < b then a else b }

  /** The trunk cells y+lo .. y+hi-1 above (x, z), all of type t. */
  function Stack(x: int, y: int, z: int, lo: int, hi: int, t: Kind): (plan: seq<Placement>)
    ensures forall c :: c in plan ==> c.1 == t && c.0.0 == x && c.0.2 == z && y + lo <= c.0.1 < y + hi
    ensures lo <= hi ==> |plan| == hi - lo
    decreases hi - lo
  {
    if hi <= lo then [] else Stack(x, y, z, lo, hi - 1, t) + [((x, y + hi - 1, z), t)]
  }

  lemma StackSnoc(x: int, y: int, z: int, lo: int, i: int, t: Kind)
    requires lo <= i
    ensures Stack(x, y, z, lo, i + 1, t) == Stack(x, y, z, lo, i, t) + [((x, y + i, z), t)]
  {
  }

  /** Placing the next cell of a stack on top of the stack placed so far. */
  lemma StackStep(start: Store, mid: Store, after: Store, x: int, y: int, z: int, lo: int, i: int, t: Kind)
    requires lo <= i
    requires mid == PlaceAll(start, Stack(x, y, z, lo, i, t))
    requires after == PlaceAll(mid, [((x, y + i, z), t)])
    ensures after == PlaceAll(start, Stack(x, y, z, lo, i + 1, t))
  {
    StackSnoc(x, y, z, lo, i, t);
    PlaceAllAppend(start, Stack(x, y, z, lo, i, t), [((x, y + i, z), t)]);
  }

  /** Wood up to four blocks, then leaves for the rest of the spine. */
  function Trunk(x: int, y: int, z: int, height: int): (plan: seq<Placement>)
    requires height >= 0
    ensures forall c :: c in plan ==> (c.1 == Wood || c.1 == Leaves) && c.0.0 == x && c.0.2 == z && y <= c.0.1 < y + height
    ensures forall c :: c in plan && c.1 == Wood ==> c.0.1 < y + 4
  {
    Stack(x, y, z, 0, Min(height, 4), Wood) + Stack(x, y, z, Min(height, 4), height, Leaves)
  }

  /** The broad canopy keeps a cell unless it is beyond Manhattan distance 3, or on the spine below the top. */
  function CanopyCell(x: int, y: int, z: int, height: int, lx: int, lz: int, ly: int): (plan: seq<Placement>)
    ensures |plan| <= 1
    ensures forall c :: c in plan ==> c == ((x + lx, y + ly, z + lz), Leaves) && IAbs(lx) + IAbs(lz) <= 3
    ensures forall c :: c in plan && lx == 0 && lz == 0 ==> ly >= height
  {
    if IAbs(lx) + IAbs(lz) > 3 then []
    else if lx == 0 && lz == 0 && ly < height then []
    else [((x + lx, y + ly, z + lz), Leaves)]
  }

  /** The canopy cells of column (lx, lz) for ly = height-2 .. lyEnd-1. */
  function CanopyColumn(x: int, y: int, z: int, height: int, lx: int, lz: int, lyEnd: int): (plan: seq<Placement>)
    ensures forall c :: c in plan ==>
      (c.1 == Leaves && c.0 == (x + lx, c.0.1, z + lz) && IAbs(lx) + IAbs(lz) <= 3 && y + height - 2 <= c.0.1 < y + lyEnd)
    decreases lyEnd - height + 2
  {
    if lyEnd <= height - 2 then []
    else CanopyColumn(x, y, z, height, lx, lz, lyEnd - 1) + CanopyCell(x, y, z, height, lx, lz, lyEnd - 1)
  }

  /** The canopy cells of row lx, for the columns z-2 .. zEnd-1. */
  function CanopyRow(x: int, y: int, z: int, height: int, lx: int, zEnd: int): (plan: seq<Placement>)
    ensures forall c :: c in plan ==>
      (c.1 == Leaves && c.0.0 == x + lx && IAbs(lx) + IAbs(c.0.2 - z) <= 3 && y + height - 2 <= c.0.1 <= y + height)
    decreases zEnd - z + 2
  {
    if zEnd <= z - 2 then []
    else CanopyRow(x, y, z, height, lx, zEnd - 1) + CanopyColumn(x, y, z, height, lx, zEnd - 1 - z, height + 1)
  }

  /** The canopy cells of the rows x-2 .. xEnd-1. */
  function Canopy(x: int, y: int, z: int, height: int, xEnd: int): (plan: seq<Placement>)
    ensures forall c :: c in plan ==>
      (c.1 == Leaves && IAbs(c.0.0 - x) + IAbs(c.0.2 - z) <= 3 && y + height - 2 <= c.0.1 <= y + height)
    decreases xEnd - x + 2
  {
    if xEnd <= x - 2 then []
    else Canopy(x, y, z, height, xEnd - 1) + CanopyRow(x, y, z, height, xEnd - 1 - x, z + 3)
  }

  /** The store after the canopy cell at (lx, lz, ly): a skipped cell leaves it as it was. */
  function CanopyCellPlaced(s: Store, x: int, y: int, z: int, height: int, lx: int, lz: int, ly: int): Store
  {
    if IAbs(lx) + IAbs(lz) > 3 || (lx == 0 && lz == 0 && ly < height) then s
    else Place(s, (x + lx, y + ly, z + lz), Leaves)
  }

  /** The store after placing the layers height-2 .. lyEnd-1 of column (lx, lz) one cell at a time. */
  function CanopyColumnPlaced(s: Store, x: int, y: int, z: int, height: int, lx: int, lz: int, lyEnd: int): Store
    decreases lyEnd - height + 2
  {
    if lyEnd <= height - 2 then s
    else CanopyCellPlaced(CanopyColumnPlaced(s, x, y, z, height, lx, lz, lyEnd - 1), x, y, z, height, lx, lz, lyEnd - 1)
  }

  /** The store after placing the columns z-2 .. zEnd-1 of row lx one column at a time. */
  function CanopyRowPlaced(s: Store, x: int, y: int, z: int, height: int, lx: int, zEnd: int): Store
    decreases zEnd - z + 2
  {
    if zEnd <= z - 2 then s
    else CanopyColumnPlaced(CanopyRowPlaced(s, x, y, z, height, lx, zEnd - 1), x, y, z, height, lx, zEnd - 1 - z, height + 1)
  }

  /** The store after placing the rows x-2 .. xEnd-1 one row at a time. */
  function CanopyPlaced(s: Store, x: int, y: int, z: int, height: int, xEnd: int): Store
    decreases xEnd - x + 2
  {
    if xEnd <= x - 2 then s
    else CanopyRowPlaced(CanopyPlaced(s, x, y, z, height, xEnd - 1), x, y, z, height, xEnd - 1 - x, z + 3)
  }

  /** A kept canopy cell places leaves at its absolute position. */
  lemma CanopyCellKept(before: Store, after: Store, x: int, y: int, z: int, height: int, lx: int, lz: int, ly: int)
    requires IAbs(lx) + IAbs(lz) <= 3 && !(lx == 0 && lz == 0 && ly < height)
    requires after == Place(before, (x + lx, y + ly, z + lz), Leaves)
    ensures after == CanopyCellPlaced(before, x, y, z, height, lx, lz, ly)
  {
  }

  /** Placing one canopy cell is placing the cell's plan. */
  lemma CanopyCellPlacedAll(s: Store, x: int, y: int, z: int, height: int, lx: int, lz: int, ly: int)
    ensures CanopyCellPlaced(s, x, y, z, height, lx, lz, ly) == PlaceAll(s, CanopyCell(x, y, z, height, lx, lz, ly))
  {
    var plan := CanopyCell(x, y, z, height, lx, lz, ly);
    if plan == [] {
      PlaceAllNone(s, plan);
    } else {
      PlaceAllOne(s, plan[0]);
    }
  }

  /** Placing a column cell by cell is placing the column's plan. */
  lemma {:induction false} CanopyColumnPlacedAll(s: Store, x: int, y: int, z: int, height: int, lx: int, lz: int, lyEnd: int)
    ensures CanopyColumnPlaced(s, x, y, z, height, lx, lz, lyEnd) == PlaceAll(s, CanopyColumn(x, y, z, height, lx, lz, lyEnd))
    decreases lyEnd - height + 2
  {
    if lyEnd > height - 2 {
      CanopyColumnPlacedAll(s, x, y, z, height, lx, lz, lyEnd - 1);
      var mid := CanopyColumnPlaced(s, x, y, z, height, lx, lz, lyEnd - 1);
      CanopyCellPlacedAll(mid, x, y, z, height, lx, lz, lyEnd - 1);
      PlaceAllAppend(s, CanopyColumn(x, y, z, height, lx, lz, lyEnd - 1), CanopyCell(x, y, z, height, lx, lz, lyEnd - 1));
    }
  }

  /** Two plans placed one after the other, as one plan. */
  lemma PlaceAllChain(s: Store, mid: Store, after: Store, a: seq<Placement>, b: seq<Placement>)
    requires mid == PlaceAll(s, a) && after == PlaceAll(mid, b)
    ensures after == PlaceAll(s, a + b)
  {
    PlaceAllAppend(s, a, b);
  }

  lemma CanopyRowUnfold(s: Store, x: int, y: int, z: int, height: int, lx: int, zEnd: int)
    requires zEnd > z - 2
    ensures CanopyRow(x, y, z, height, lx, zEnd) ==
      CanopyRow(x, y, z, height, lx, zEnd - 1) + CanopyColumn(x, y, z, height, lx, zEnd - 1 - z, height + 1)
    ensures CanopyRowPlaced(s, x, y, z, height, lx, zEnd) ==
      CanopyColumnPlaced(CanopyRowPlaced(s, x, y, z, height, lx, zEnd - 1), x, y, z, height, lx, zEnd - 1 - z, height + 1)
  {
  }

  lemma CanopyUnfold(s: Store, x: int, y: int, z: int, height: int, xEnd: int)
    requires xEnd > x - 2
    ensures Canopy(x, y, z, height, xEnd) == Canopy(x, y, z, height, xEnd - 1) + CanopyRow(x, y, z, height, xEnd - 1 - x, z + 3)
    ensures CanopyPlaced(s, x, y, z, height, xEnd) ==
      CanopyRowPlaced(CanopyPlaced(s, x, y, z, height, xEnd - 1), x, y, z, height, xEnd - 1 - x, z + 3)
  {
  }

  /** Placing a row column by column is placing the row's plan. */
  lemma {:induction false} CanopyRowPlacedAll(s: Store, x: int, y: int, z: int, height: int, lx: int, zEnd: int)
    ensures CanopyRowPlaced(s, x, y, z, height, lx, zEnd) == PlaceAll(s, CanopyRow(x, y, z, height, lx, zEnd))
    decreases zEnd - z + 2
  {
    if zEnd > z - 2 {
      var before := CanopyRow(x, y, z, height, lx, zEnd - 1);
      var column := CanopyColumn(x, y, z, height, lx, zEnd - 1 - z, height + 1);
      var mid := CanopyRowPlaced(s, x, y, z, height, lx, zEnd - 1);
      var after := CanopyColumnPlaced(mid, x, y, z, height, lx, zEnd - 1 - z, height + 1);
      CanopyRowPlacedAll(s, x, y, z, height, lx, zEnd - 1);
      CanopyColumnPlacedAll(mid, x, y, z, height, lx, zEnd - 1 - z, height + 1);
      PlaceAllChain(s, mid, after, before, column);
      CanopyRowUnfold(s, x, y, z, height, lx, zEnd);
    }
  }

  /** Placing the canopy row by row is placing the canopy's plan. */
  lemma {:induction false} CanopyPlacedAll(s: Store, x: int, y: int, z: int, height: int, xEnd: int)
    ensures CanopyPlaced(s, x, y, z, height, xEnd) == PlaceAll(s, Canopy(x, y, z, height, xEnd))
    decreases xEnd - x + 2
  {
    if xEnd > x - 2 {
      var before := Canopy(x, y, z, height, xEnd - 1);
      var row := CanopyRow(x, y, z, height, xEnd - 1 - x, z + 3);
      var mid := CanopyPlaced(s, x, y, z, height, xEnd - 1);
      var after := CanopyRowPlaced(mid, x, y, z, height, xEnd - 1 - x, z + 3);
      CanopyPlacedAll(s, x, y, z, height, xEnd - 1);
      CanopyRowPlacedAll(mid, x, y, z, height, xEnd - 1 - x, z + 3);
      PlaceAllChain(s, mid, after, before, row);
      CanopyUnfold(s, x, y, z, height, xEnd);
    }
  }

  /** The trunk and then the canopy, placed row by row: the whole broad plan. */
  lemma BroadTreeDone(start: Store, mid: Store, after: Store, x: int, y: int, z: int, height: int)
    requires height >= 0
    requires mid == PlaceAll(start, Trunk(x, y, z, height))
    requires after == CanopyPlaced(mid, x, y, z, height, x + 3)
    ensures after == PlaceAll(start, BroadPlan(x, y, z, height))
  {
    CanopyPlacedAll(mid, x, y, z, height, x + 3);
    PlaceAllAppend(start, Trunk(x, y, z, height), Canopy(x, y, z, height, x + 3));
  }

  /** generateTree with a given height: trunk, spine, then the round canopy. */
  function BroadPlan(x: int, y: int, z: int, height: int): seq<Placement>
    requires height >= 0
  {
    Trunk(x, y, z, height) + Canopy(x, y, z, height, x + 3)
  }

  /**
   * The radius of layer i (2 <= i < height) of the pointy tree: the loop at World.js:311-315
   * starts at 2 and drops by one on the even layers 4 and 6, and the top layer is a point.
   */
  function LayerRadius(i: int, height: int): (r: int)
    ensures 0 <= r <= 2
    ensures i == height - 1 ==> r == 0
  {
    if i == height - 1 || i >= 6 then 0 else if i >= 4 then 1 else 2
  }

  /**
   * A pointy-tree layer keeps (lx, lz) unless |lx| + |lz| > 1.5 radius + 0.5 or it is the
   * spine; the comparison is stated on integers (doubled), see KeepsPointyExact.
   */
  predicate KeepsPointy(lx: int, lz: int, radius: int) {
    !(2 * (IAbs(lx) + IAbs(lz)) > 3 * radius + 1) && !(lx == 0 && lz == 0)
  }

  /** The doubled integer comparison agrees with the source's comparison on reals. */
  lemma KeepsPointyExact(lx: int, lz: int, radius: int)
    ensures KeepsPointy(lx, lz, radius) <==>
      !(((IAbs(lx) + IAbs(lz)) as real) > radius as real * 1.5 + 0.5) && !(lx == 0 && lz == 0)
  {
  }

  function PointyCell(x: int, y: int, z: int, i: int, radius: int, lx: int, lz: int): (plan: seq<Placement>)
    requires 0 <= radius <= 2
    ensures |plan| <= 1
    ensures forall c :: c in plan ==> c == ((x + lx, y + i, z + lz), Leaves) && IAbs(lx) + IAbs(lz) <= 3
  {
    if KeepsPointy(lx, lz, radius) then [((x + lx, y + i, z + lz), Leaves)] else []
  }

  function PointyRow(x: int, y: int, z: int, i: int, radius: int, lx: int, lzEnd: int): (plan: seq<Placement>)
    requires 0 <= radius <= 2
    ensures forall c :: c in plan ==> c.1 == Leaves && c.0 == (x + lx, y + i, c.0.2) && IAbs(lx) + IAbs(c.0.2 - z) <= 3
    decreases lzEnd + radius
  {
    if lzEnd <= -radius then []
    else PointyRow(x, y, z, i, radius, lx, lzEnd - 1) + PointyCell(x, y, z, i, radius, lx, lzEnd - 1)
  }

  function PointyLayer(x: int, y: int, z: int, i: int, radius: int, lxEnd: int): (plan: seq<Placement>)
    requires 0 <= radius <= 2
    ensures forall c :: c in plan ==> c.1 == Leaves && c.0.1 == y + i && IAbs(c.0.0 - x) + IAbs(c.0.2 - z) <= 3
    decreases lxEnd + radius
  {
    if lxEnd <= -radius then []
    else PointyLayer(x, y, z, i, radius, lxEnd - 1) + PointyRow(x, y, z, i, radius, lxEnd - 1, radius + 1)
  }

  /** The pointy layers i = 2 .. iEnd-1, each at its own radius. */
  function PointyLayers(x: int, y: int, z: int, height: int, iEnd: int): (plan: seq<Placement>)
    ensures forall c :: c in plan ==> c.1 == Leaves && y + 2 <= c.0.1 < y + iEnd && IAbs(c.0.0 - x) + IAbs(c.0.2 - z) <= 3
    decreases iEnd
  {
    if iEnd <= 2 then []
    else
      PointyLayers(x, y, z, height, iEnd - 1) + PointyLayer(x, y, z, iEnd - 1, LayerRadius(iEnd - 1, height), LayerRadius(iEnd - 1, height) + 1)
  }

  /** The radius update of generatePointyTree's layer loop (World.js:313-314) yields LayerRadius. */
  lemma TaperStep(previous: int, radius: int, i: int, height: int)
    requires 2 <= i < height
    requires previous == if i == 2 then 2 else LayerRadius(i - 1, height)
    requires radius == if i == height - 1 then 0 else if i % 2 == 0 && previous > 0 && i > 3 then previous - 1 else previous
    ensures radius == LayerRadius(i, height)
  {
  }

  /** Placing layer i, at its radius, on top of the layers below it. */
  lemma PointyLayersStep(start: Store, mid: Store, after: Store, x: int, y: int, z: int, height: int, i: int)
    requires 2 <= i
    requires mid == PlaceAll(start, PointyLayers(x, y, z, height, i))
    requires after == PlaceAll(mid, PointyLayer(x, y, z, i, LayerRadius(i, height), LayerRadius(i, height) + 1))
    ensures after == PlaceAll(start, PointyLayers(x, y, z, height, i + 1))
  {
    var layer := PointyLayer(x, y, z, i, LayerRadius(i, height), LayerRadius(i, height) + 1);
    assert PointyLayers(x, y, z, height, i + 1) == PointyLayers(x, y, z, height, i) + layer;
    PlaceAllAppend(start, PointyLayers(x, y, z, height, i), layer);
  }

  /** The trunk, then the layers, then the tip: the whole pointy plan. */
  lemma PointyTreeDone(start: Store, mid: Store, layered: Store, after: Store, x: int, y: int, z: int, height: int)
    requires height >= 0
    requires mid == PlaceAll(start, Trunk(x, y, z, height))
    requires layered == PlaceAll(mid, PointyLayers(x, y, z, height, height))
    requires after == PlaceAll(layered, [((x, y + height, z), Leaves)])
    ensures after == PlaceAll(start, PointyPlan(x, y, z, height))
  {
    var t := Trunk(x, y, z, height);
    var ls := PointyLayers(x, y, z, height, height);
    var tip := [((x, y + height, z), Leaves)];
    PlaceAllAppend(start, t, ls);
    PlaceAllAppend(start, t + ls, tip);
  }

  /** generatePointyTree with a given height: trunk, spine, tapering layers, and the tip. */
  function PointyPlan(x: int, y: int, z: int, height: int): seq<Placement>
    requires height >= 0
  {
    Trunk(x, y, z, height) + PointyLayers(x, y, z, height, height) + [((x, y + height, z), Leaves)]
  }

  /** The broad tree's height from a draw v: 4 + floor(2v), so 4 or 5. */
  function BroadHeight(v: real): (h: int)
    requires 0.0 <= v < 1.0
    ensures 4 <= h <= 5
    ensures h == 5 <==> v >= 0.5
  {
    4 + (v * 2.0).Floor
  }

  /** The pointy tree's height from a draw v: 6 + floor(3v), so 6, 7 or 8. */
  function PointyHeight(v: real): (h: int)
    requires 0.0 <= v < 1.0
    ensures 6 <= h <= 8
    ensures h == 6 <==> v < 1.0 / 3.0
    ensures h == 8 <==> v >= 2.0 / 3.0
  {
    6 + (v * 3.0).Floor
  }

  /** generateTree: draws the height (4 or 5) from the generator, then places the broad plan. */
  function BroadTree(s: Store, x: int, y: int, z: int): (r: Store)
    requires 0 <= s.seed
    ensures 0 <= r.seed < SeedModulus
  {
    var drawn := Rng(s);
    PlaceAll(drawn.0, BroadPlan(x, y, z, BroadHeight(drawn.1)))
  }

  /** generatePointyTree: draws the height (6, 7 or 8) from the generator, then places the pointy plan. */
  function PointyTree(s: Store, x: int, y: int, z: int): (r: Store)
    requires 0 <= s.seed
    ensures 0 <= r.seed < SeedModulus
  {
    var drawn := Rng(s);
    PlaceAll(drawn.0, PointyPlan(x, y, z, PointyHeight(drawn.1)))
  }

  // ---------------------------------------------------------------------------
  // Generation (World.js:189-279)

  /** The generator state between columns: the store and the accepted tree roots. */
  datatype Gen = Gen(store: Store, trees: seq<(int, int)>)

  /** One column at (x, z) of surface height h: layers, water, then maybe a tree. */
  function ColumnStep(g: Gen, x: int, z: int, h: int): (r: Gen)
    requires 0 <= g.store.seed
    ensures 0 <= r.store.seed
    ensures r.trees == g.trees || r.trees == g.trees + [(x, z)]
    ensures r.trees == g.trees + [(x, z)] ==> h >= WaterLevel && !TooClose(g.trees, x, z)
  {
    TreeStep(Gen(PlaceAll(g.store, ColumnAndWater(x, z, h)), g.trees), x, z, h)
  }

  /** The tree decision of a column on land: a 1.6% draw, the spacing check, then a coin for the shape. */
  function TreeStep(g: Gen, x: int, z: int, h: int): (r: Gen)
    requires 0 <= g.store.seed
    ensures 0 <= r.store.seed
    ensures r.trees == g.trees || r.trees == g.trees + [(x, z)]
    ensures r.trees == g.trees + [(x, z)] ==> h >= WaterLevel && !TooClose(g.trees, x, z)
  {
    if h < WaterLevel then g
    else
      var chance := Rng(g.store);
      if !(chance.1 < 0.016) || TooClose(g.trees, x, z) then Gen(chance.0, g.trees)
      else
        var kind := Rng(chance.0);
        var trees := g.trees + [(x, z)];
        if kind.1 > 0.5 then Gen(BroadTree(kind.0, x, h + 1, z), trees)
        else Gen(PointyTree(kind.0, x, h + 1, z), trees)
  }

  /** The columns z = -size .. zEnd-1 of row x. */
  function RowUpTo(g: Gen, size: int, height: (int, int) -> int, x: int, zEnd: int): (r: Gen)
    requires 0 <= g.store.seed
    ensures 0 <= r.store.seed
    decreases zEnd + size
  {
    if zEnd <= -size then g
    else
      var prev := RowUpTo(g, size, height, x, zEnd - 1);
      ColumnStep(prev, x, zEnd - 1, height(x, zEnd - 1))
  }

  /** The rows x = -size .. xEnd-1. */
  function GridUpTo(g: Gen, size: int, height: (int, int) -> int, xEnd: int): (r: Gen)
    requires 0 <= g.store.seed
    ensures 0 <= r.store.seed
    decreases xEnd + size
  {
    if xEnd <= -size then g
    else RowUpTo(GridUpTo(g, size, height, xEnd - 1), size, height, xEnd - 1, size)
  }

  /** The column at z after the columns before it extends the row by one column. */
  lemma RowStep(g: Gen, mid: Gen, after: Gen, size: int, height: (int, int) -> int, x: int, z: int)
    requires -size <= z && 0 <= g.store.seed
    requires mid == RowUpTo(g, size, height, x, z)
    requires after == ColumnStep(mid, x, z, height(x, z))
    ensures after == RowUpTo(g, size, height, x, z + 1)
  {
  }

  /** The row at x after the rows before it extends the grid by one row. */
  lemma GridStep(g: Gen, mid: Gen, after: Gen, size: int, height: (int, int) -> int, x: int)
    requires -size <= x && 0 <= g.store.seed
    requires mid == GridUpTo(g, size, height, x)
    requires after == RowUpTo(mid, size, height, x, size)
    ensures after == GridUpTo(g, size, height, x + 1)
  {
  }

  /** generateSimple's reset: seed back to 123456, every mesh counter to 0, the map cleared, the signal raised. */
  function Reset(s: Store): (r: Store)
    ensures r.blocks == map[] && r.order == [] && r.seed == InitialSeed && r.pending
    ensures r.counts.Keys == s.counts.Keys && forall t :: t in r.counts ==> r.counts[t] == 0
  {
    Store(map[], [], map t | t in s.counts :: 0, true, InitialSeed)
  }

  /** generateSimple(size) over a given height field. */
  function Generate(s: Store, size: int, height: (int, int) -> int): Gen {
    GridUpTo(Gen(Reset(s), []), size, height, size)
  }

  // ---------------------------------------------------------------------------
  // Lemmas

  /** A draw changes only the seed, and keeps it in range. */
  lemma RngValid(s: Store)
    requires Valid(s)
    ensures Valid(Rng(s).0)
  {
    var r := Rng(s).0;
    assert r.blocks == s.blocks && r.order == s.order && r.counts == s.counts;
  }

  lemma TreeStepValid(g: Gen, x: int, z: int, h: int)
    requires Valid(g.store)
    ensures Valid(TreeStep(g, x, z, h).store)
  {
    if h >= WaterLevel {
      var chance := Rng(g.store);
      RngValid(g.store);
      if chance.1 < 0.016 && !TooClose(g.trees, x, z) {
        var kind := Rng(chance.0);
        RngValid(chance.0);
        if kind.1 > 0.5 {
          var drawn := Rng(kind.0);
          RngValid(kind.0);
          PlaceAllValid(drawn.0, BroadPlan(x, h + 1, z, BroadHeight(drawn.1)));
        } else {
          var drawn := Rng(kind.0);
          RngValid(kind.0);
          PlaceAllValid(drawn.0, PointyPlan(x, h + 1, z, PointyHeight(drawn.1)));
        }
      }
    }
  }

  lemma ColumnStepValid(g: Gen, x: int, z: int, h: int)
    requires Valid(g.store)
    ensures Valid(ColumnStep(g, x, z, h).store)
  {
    PlaceAllValid(g.store, ColumnAndWater(x, z, h));
    TreeStepValid(Gen(PlaceAll(g.store, ColumnAndWater(x, z, h)), g.trees), x, z, h);
  }

  lemma {:induction false} RowUpToValid(g: Gen, size: int, height: (int, int) -> int, x: int, zEnd: int)
    requires Valid(g.store)
    ensures Valid(RowUpTo(g, size, height, x, zEnd).store)
    decreases zEnd + size
  {
    if zEnd > -size {
      RowUpToValid(g, size, height, x, zEnd - 1);
      ColumnStepValid(RowUpTo(g, size, height, x, zEnd - 1), x, zEnd - 1, height(x, zEnd - 1));
    }
  }

  lemma {:induction false} GridUpToValid(g: Gen, size: int, height: (int, int) -> int, xEnd: int)
    requires Valid(g.store)
    ensures Valid(GridUpTo(g, size, height, xEnd).store)
    decreases xEnd + size
  {
    if xEnd > -size {
      GridUpToValid(g, size, height, xEnd - 1);
      RowUpToValid(GridUpTo(g, size, height, xEnd - 1), size, height, xEnd - 1, size);
    }
  }

  /** generateSimple leaves a world whose order, counters and seed satisfy the store's invariant. */
  lemma GenerateValid(s: Store, size: int, height: (int, int) -> int)
    requires Valid(s)
    ensures Valid(Generate(s, size, height).store)
  {
    GridUpToValid(Gen(Reset(s), []), size, height, size);
  }

  /** The material rule of World.js:231-234, case by case. */
  lemma MaterialRule(y: int, h: int)
    requires Bottom <= y <= h
    ensures Material(y, h) == Grass <==> y == h && h >= WaterLevel
    ensures Material(y, h) == Dirt <==> h - 3 < y < h && y >= WaterLevel
    ensures Material(y, h) == Sand <==> y < h && y <= WaterLevel && !(y > h - 3 && y >= WaterLevel)
    ensures Material(y, h) == Stone <==> (y == h && h < WaterLevel) || (WaterLevel < y <= h - 3)
  {
  }

  /**
   * When the cells of a column are empty and every counter has room, layer y
   * (Bottom <= y < yEnd) ends up holding its material.
   */
  lemma {:induction false} ColumnLayerMaterial(s: Store, x: int, z: int, h: int, yEnd: int, y: int)
    requires Bottom <= y < yEnd
    requires forall y' :: Bottom <= y' < yEnd ==> (x, y', z) !in s.blocks
    requires forall t :: t in MeshTypes ==> t in s.counts && s.counts[t] + (yEnd - Bottom) <= Capacity
    ensures (x, y, z) in PlaceAll(s, ColumnPlan(x, z, h, yEnd)).blocks
    ensures PlaceAll(s, ColumnPlan(x, z, h, yEnd)).blocks[(x, y, z)].kind == Material(y, h)
    decreases yEnd - Bottom, 1
  {
    if y < yEnd - 1 {
      ColumnLowerLayer(s, x, z, h, yEnd, y);
    } else {
      ColumnTopLayer(s, x, z, h, yEnd);
    }
  }

  /** A layer below the top keeps the material it got when the segment ended there. */
  lemma {:induction false} ColumnLowerLayer(s: Store, x: int, z: int, h: int, yEnd: int, y: int)
    requires Bottom <= y < yEnd - 1
    requires forall y' :: Bottom <= y' < yEnd ==> (x, y', z) !in s.blocks
    requires forall t :: t in MeshTypes ==> t in s.counts && s.counts[t] + (yEnd - Bottom) <= Capacity
    ensures (x, y, z) in PlaceAll(s, ColumnPlan(x, z, h, yEnd)).blocks
    ensures PlaceAll(s, ColumnPlan(x, z, h, yEnd)).blocks[(x, y, z)].kind == Material(y, h)
    decreases yEnd - Bottom, 0
  {
    ColumnLayerMaterial(s, x, z, h, yEnd - 1, y);
    PlaceAllSnoc(s, ColumnPlan(x, z, h, yEnd - 1), ((x, yEnd - 1, z), Material(yEnd - 1, h)));
    PlaceKeepsKind(PlaceAll(s, ColumnPlan(x, z, h, yEnd - 1)), PlaceAll(s, ColumnPlan(x, z, h, yEnd)),
      (x, yEnd - 1, z), Material(yEnd - 1, h), (x, y, z), Material(y, h));
  }

  /** The top layer yEnd-1 of a column segment holds its material. */
  lemma ColumnTopLayer(s: Store, x: int, z: int, h: int, yEnd: int)
    requires Bottom < yEnd
    requires forall y' :: Bottom <= y' < yEnd ==> (x, y', z) !in s.blocks
    requires forall t :: t in MeshTypes ==> t in s.counts && s.counts[t] + (yEnd - Bottom) <= Capacity
    ensures (x, yEnd - 1, z) in PlaceAll(s, ColumnPlan(x, z, h, yEnd)).blocks
    ensures PlaceAll(s, ColumnPlan(x, z, h, yEnd)).blocks[(x, yEnd - 1, z)].kind == Material(yEnd - 1, h)
  {
    var prevPlan := ColumnPlan(x, z, h, yEnd - 1);
    var prev := PlaceAll(s, prevPlan);
    var p := (x, yEnd - 1, z);
    var t := Material(yEnd - 1, h);
    PlaceAllSnoc(s, prevPlan, (p, t));
    ColumnCellsOnly(s, x, z, h, yEnd - 1);
    PlaceAllKeepsAndCounts(s, prevPlan);
    PlaceSolidKind(prev, PlaceAll(s, ColumnPlan(x, z, h, yEnd)), p, t);
  }

  lemma PlaceKeepsKind(prev: Store, r: Store, p: Pos, t: Kind, q: Pos, k: Kind)
    requires r == Place(prev, p, t) && q != p && q in prev.blocks && prev.blocks[q].kind == k
    ensures q in r.blocks && r.blocks[q].kind == k
  {
  }

  lemma PlaceSolidKind(prev: Store, r: Store, p: Pos, t: Kind)
    requires r == Place(prev, p, t) && p !in prev.blocks
    requires t in MeshTypes && t in prev.counts && prev.counts[t] < Capacity
    ensures p in r.blocks && r.blocks[p].kind == t
  {
    PlaceSolidIntoEmpty(prev, p, t);
  }

  /** Every layer Bottom .. h of a column with empty cells and room in every counter holds its material. */
  lemma ColumnGetsMaterial(s: Store, x: int, z: int, h: int)
    requires Bottom <= h
    requires forall y :: Bottom <= y <= h ==> (x, y, z) !in s.blocks
    requires forall t :: t in MeshTypes ==> t in s.counts && s.counts[t] + (h + 1 - Bottom) <= Capacity
    ensures forall y :: Bottom <= y <= h ==>
      (x, y, z) in PlaceAll(s, ColumnPlan(x, z, h, h + 1)).blocks &&
      PlaceAll(s, ColumnPlan(x, z, h, h + 1)).blocks[(x, y, z)].kind == Material(y, h)
  {
    forall y | Bottom <= y <= h
      ensures (x, y, z) in PlaceAll(s, ColumnPlan(x, z, h, h + 1)).blocks
      ensures PlaceAll(s, ColumnPlan(x, z, h, h + 1)).blocks[(x, y, z)].kind == Material(y, h)
    {
      ColumnLayerMaterial(s, x, z, h, h + 1, y);
    }
  }

  /** The layers Bottom .. yEnd-1 add no cell outside that column segment. */
  lemma {:induction false} ColumnCellsOnly(s: Store, x: int, z: int, h: int, yEnd: int)
    ensures forall q :: q in PlaceAll(s, ColumnPlan(x, z, h, yEnd)).blocks && q !in s.blocks ==>
      q.0 == x && q.2 == z && Bottom <= q.1 < yEnd
    decreases yEnd - Bottom
  {
    if yEnd > Bottom {
      ColumnCellsOnly(s, x, z, h, yEnd - 1);
      PlaceAllSnoc(s, ColumnPlan(x, z, h, yEnd - 1), ((x, yEnd - 1, z), Material(yEnd - 1, h)));
      PlaceAddsOnly(PlaceAll(s, ColumnPlan(x, z, h, yEnd - 1)), PlaceAll(s, ColumnPlan(x, z, h, yEnd)),
        (x, yEnd - 1, z), Material(yEnd - 1, h));
    }
  }

  /** Placing layer y with its material after the layers below it extends the column by one layer. */
  lemma ColumnPlanStep(start: Store, mid: Store, after: Store, x: int, z: int, h: int, y: int)
    requires Bottom <= y
    requires mid == PlaceAll(start, ColumnPlan(x, z, h, y))
    requires after == Place(mid, (x, y, z), Material(y, h))
    ensures after == PlaceAll(start, ColumnPlan(x, z, h, y + 1))
  {
    assert ColumnPlan(x, z, h, y + 1) == ColumnPlan(x, z, h, y) + [((x, y, z), Material(y, h))];
    PlaceAllSnoc(start, ColumnPlan(x, z, h, y), ((x, y, z), Material(y, h)));
  }

  /** The layers and then, below the water level, the water: everything a column places before its tree. */
  lemma ColumnAndWaterDone(start: Store, mid: Store, after: Store, x: int, z: int, h: int)
    requires mid == PlaceAll(start, ColumnPlan(x, z, h, h + 1))
    requires after == if h < WaterLevel then PlaceAll(mid, WaterPlan(x, z, h, WaterLevel - h)) else mid
    ensures after == PlaceAll(start, ColumnAndWater(x, z, h))
  {
    if h < WaterLevel {
      PlaceAllAppend(start, ColumnPlan(x, z, h, h + 1), WaterPlan(x, z, h, WaterLevel - h));
    } else {
      PlaceAllNone(mid, []);
      assert ColumnPlan(x, z, h, h + 1) + [] == ColumnPlan(x, z, h, h + 1);
    }
  }

  /** The water plan of n cells is the plan of n - 1 cells and one more cell on top. */
  lemma WaterPlanStep(s: Store, x: int, z: int, h: int, n: int)
    requires n > 0
    ensures PlaceAll(s, WaterPlan(x, z, h, n)) == Place(PlaceAll(s, WaterPlan(x, z, h, n - 1)), (x, h + n, z), Water)
  {
    PlaceAllSnoc(s, WaterPlan(x, z, h, n - 1), ((x, h + n, z), Water));
  }

  /** When the n cells above h are empty, they all become full-strength water (World.js:240-244). */
  lemma {:induction false} WaterFillsToLevel(s: Store, x: int, z: int, h: int, n: nat)
    requires forall y :: h + 1 <= y <= h + n ==> (x, y, z) !in s.blocks
    ensures forall y :: h + 1 <= y <= h + n ==>
      (x, y, z) in PlaceAll(s, WaterPlan(x, z, h, n)).blocks &&
      PlaceAll(s, WaterPlan(x, z, h, n)).blocks[(x, y, z)] == Block(Water, -1, Some(5))
  {
    if n > 0 {
      WaterFillsToLevel(s, x, z, h, n - 1);
      WaterOnlyAdds(s, x, z, h, n - 1);
      WaterPlanStep(s, x, z, h, n);
      var prev := PlaceAll(s, WaterPlan(x, z, h, n - 1));
      assert (x, h + n, z) !in prev.blocks;
      WaterTopStep(prev, PlaceAll(s, WaterPlan(x, z, h, n)), x, z, h, n);
    }
  }

  /** Water placed on top of a column of water cells h+1 .. h+n-1 extends it to h+n. */
  lemma WaterTopStep(prev: Store, r: Store, x: int, z: int, h: int, n: int)
    requires (x, h + n, z) !in prev.blocks && r == Place(prev, (x, h + n, z), Water)
    requires forall y :: h + 1 <= y < h + n ==> (x, y, z) in prev.blocks && prev.blocks[(x, y, z)] == Block(Water, -1, Some(5))
    ensures forall y :: h + 1 <= y <= h + n ==> (x, y, z) in r.blocks && r.blocks[(x, y, z)] == Block(Water, -1, Some(5))
  {
    var top := (x, h + n, z);
    assert r.blocks == prev.blocks[top := Block(Water, -1, Some(5))];
  }

  /** The water fill adds no cell outside the column's cells h+1 .. h+n. */
  lemma {:induction false} WaterOnlyAdds(s: Store, x: int, z: int, h: int, n: nat)
    ensures forall q :: q in PlaceAll(s, WaterPlan(x, z, h, n)).blocks && q !in s.blocks ==>
      q.0 == x && q.2 == z && h + 1 <= q.1 <= h + n
  {
    if n > 0 {
      WaterOnlyAdds(s, x, z, h, n - 1);
      WaterPlanStep(s, x, z, h, n);
      PlaceAddsOnly(PlaceAll(s, WaterPlan(x, z, h, n - 1)), PlaceAll(s, WaterPlan(x, z, h, n)), (x, h + n, z), Water);
    }
  }

  /** Every tree root the generator accepts keeps squared distance >= 25 from every earlier root. */
  lemma {:induction false} RowKeepsSpaced(g: Gen, size: int, height: (int, int) -> int, x: int, zEnd: int)
    requires 0 <= g.store.seed && Spaced(g.trees)
    ensures Spaced(RowUpTo(g, size, height, x, zEnd).trees)
    decreases zEnd + size
  {
    if zEnd > -size {
      RowKeepsSpaced(g, size, height, x, zEnd - 1);
      var prev := RowUpTo(g, size, height, x, zEnd - 1);
      var r := ColumnStep(prev, x, zEnd - 1, height(x, zEnd - 1));
      if r.trees != prev.trees {
        AcceptKeepsSpaced(prev.trees, x, zEnd - 1);
      }
    }
  }

  lemma {:induction false} GridKeepsSpaced(g: Gen, size: int, height: (int, int) -> int, xEnd: int)
    requires 0 <= g.store.seed && Spaced(g.trees)
    ensures Spaced(GridUpTo(g, size, height, xEnd).trees)
    decreases xEnd + size
  {
    if xEnd > -size {
      GridKeepsSpaced(g, size, height, xEnd - 1);
      RowKeepsSpaced(GridUpTo(g, size, height, xEnd - 1), size, height, xEnd - 1, size);
    }
  }

  /** The roots of a whole generation pass are pairwise at squared distance at least 25. */
  lemma GeneratedTreesSpaced(s: Store, size: int, height: (int, int) -> int)
    ensures Spaced(Generate(s, size, height).trees)
  {
    GridKeepsSpaced(Gen(Reset(s), []), size, height, size);
  }

  /**
   * Generation does not depend on the world it starts from: two stores with the
   * same mesh types generate the same blocks, order, counters and seed.
   */
  lemma GenerateDeterministic(s: Store, s': Store, size: int, height: (int, int) -> int)
    requires s.counts.Keys == s'.counts.Keys
    ensures Generate(s, size, height) == Generate(s', size, height)
  {
    assert Reset(s) == Reset(s');
  }

  /** Every cell of the broad tree is wood or leaves, within Manhattan distance 3 of the trunk, between y and y+height. */
  lemma BroadPlanShape(x: int, y: int, z: int, height: int)
    requires height >= 2
    ensures forall c :: c in BroadPlan(x, y, z, height) ==>
      (c.1 == Wood || c.1 == Leaves) && IAbs(c.0.0 - x) + IAbs(c.0.2 - z) <= 3 && y <= c.0.1 <= y + height
  {
    var t := Trunk(x, y, z, height);
    var cp := Canopy(x, y, z, height, x + 3);
    assert BroadPlan(x, y, z, height) == t + cp;
    forall c | c in BroadPlan(x, y, z, height)
      ensures (c.1 == Wood || c.1 == Leaves) && IAbs(c.0.0 - x) + IAbs(c.0.2 - z) <= 3 && y <= c.0.1 <= y + height
    {
      if c !in t {
        assert c in cp;
      }
    }
  }

  /** The only wood of the broad tree is its trunk: the column above the root, at most 4 blocks high. */
  lemma BroadPlanWood(x: int, y: int, z: int, height: int)
    requires height >= 2
    ensures forall c :: c in BroadPlan(x, y, z, height) && c.1 == Wood ==> c.0.0 == x && c.0.2 == z && y <= c.0.1 < y + 4
  {
    var t := Trunk(x, y, z, height);
    var cp := Canopy(x, y, z, height, x + 3);
    assert BroadPlan(x, y, z, height) == t + cp;
  }

  /** Every cell of the pointy tree is wood or leaves, within Manhattan distance 3, between y and y+height, ending with the tip. */
  lemma PointyPlanShape(x: int, y: int, z: int, height: int)
    requires height >= 0
    ensures forall c :: c in PointyPlan(x, y, z, height) ==>
      (c.1 == Wood || c.1 == Leaves) && IAbs(c.0.0 - x) + IAbs(c.0.2 - z) <= 3 && y <= c.0.1 <= y + height
    ensures PointyPlan(x, y, z, height)[|PointyPlan(x, y, z, height)| - 1] == ((x, y + height, z), Leaves)
  {
    var t := Trunk(x, y, z, height);
    var ls := PointyLayers(x, y, z, height, height);
    var tip := ((x, y + height, z), Leaves);
    assert PointyPlan(x, y, z, height) == t + ls + [tip];
    forall c: Placement | c in t + ls + [tip]
      ensures (c.1 == Wood || c.1 == Leaves) && IAbs(c.0.0 - x) + IAbs(c.0.2 - z) <= 3 && y <= c.0.1 <= y + height
    {
      if c in t {
        assert IAbs(c.0.0 - x) == 0 && IAbs(c.0.2 - z) == 0;
      } else if c in ls {
      } else {
        assert c == tip;
      }
    }
  }
}
