/**
 * The World object of World.js: the block map, its iteration order, the mesh
 * counters, the water-update signal and the generator seed are fields that the
 * methods update in place.  Every method is proved to leave the world in the
 * state that the value-level model (Voxels, WaterFlow, Terrain) computes from
 * the state before the call.
 */
module WorldObject {
  import opened Common
  import opened Voxels
  import opened WaterFlow
  import opened Terrain

  /** The water cells among the first k keys of the iteration order (the first loop of updateWaterGeometry). */
  function WaterCells(blocks: map<Pos, Block>, order: seq<Pos>, k: nat): (r: seq<Pos>)
    requires k <= |order|
    ensures forall q :: q in r ==> q in blocks && blocks[q].kind == Water
    ensures forall i :: 0 <= i < k && order[i] in blocks && blocks[order[i]].kind == Water ==> order[i] in r
  {
    if k == 0 then []
    else
      var p := order[k - 1];
      WaterCells(blocks, order, k - 1) + (if p in blocks && blocks[p].kind == Water then [p] else [])
  }

  /** In a valid store the collected cells are exactly the water records. */
  lemma WaterCellsExact(s: Store)
    requires Valid(s)
    ensures forall q :: q in WaterCells(s.blocks, s.order, |s.order|) <==> q in s.blocks && s.blocks[q].kind == Water
  {
    forall q | q in s.blocks && s.blocks[q].kind == Water
      ensures q in WaterCells(s.blocks, s.order, |s.order|)
    {
      var i :| 0 <= i < |s.order| && s.order[i] == q;
    }
  }

  class World {
    var blocks: map<Pos, Block>
    var order: seq<Pos>
    var counts: map<Kind, int>
    var pending: bool
    var seed: int

    /** The world's state as a value of the model. */
    function Snapshot(): Store
      reads this
    {
      Store(blocks, order, counts, pending, seed)
    }

    ghost predicate Valid()
      reads this
    {
      Voxels.Valid(Snapshot())
    }

    /** A new world: no blocks, every mesh empty, no update pending, seed 123456. */
    constructor()
      ensures Snapshot() == Empty()
      ensures Valid()
    {
      blocks := map[];
      order := [];
      counts := map t | t in MeshTypes :: 0;
      pending := false;
      seed := InitialSeed;
    }

    /** rng: one step of the generator; the value is seed / 233280. */
    method Rng() returns (v: real)
      requires 0 <= seed
      modifies this
      ensures (Snapshot(), v) == Voxels.Rng(old(Snapshot()))
      ensures old(Valid()) ==> Valid()
    {
      seed := JsRem(seed * 9301 + 49297, SeedModulus);
      v := seed as real / SeedModulus as real;
    }

    /** getBlock: whether a record exists at (x, y, z). */
    method GetBlock(x: int, y: int, z: int) returns (b: bool)
      ensures b <==> (x, y, z) in blocks
      ensures b == Voxels.GetBlock(Snapshot(), (x, y, z))
    {
      b := (x, y, z) in blocks;
    }

    /** getBlockType: the type stored at (x, y, z), or nothing. */
    method GetBlockType(x: int, y: int, z: int) returns (t: Option<Kind>)
      ensures t == GetType(Snapshot(), (x, y, z))
      ensures t.Some? <==> (x, y, z) in blocks
    {
      if (x, y, z) in blocks {
        t := Some(blocks[(x, y, z)].kind);
      } else {
        t := None;
      }
    }

    /** Map.set on the block map. */
    method Set(p: Pos, b: Block)
      modifies this
      ensures Snapshot() == Insert(old(Snapshot()), p, b)
    {
      if p !in blocks {
        order := order + [p];
      }
      blocks := blocks[p := b];
    }

    /** requestWaterUpdate: raise the signal (the geometry rebuild it schedules is presentation). */
    method RequestWaterUpdate()
      modifies this
      ensures Snapshot() == old(Snapshot()).(pending := true)
    {
      if !pending {
        pending := true;
      }
    }

    /** placeBlock (World.js:110-147). */
    method PlaceBlock(x: int, y: int, z: int, t: Kind)
      modifies this
      ensures Snapshot() == Place(old(Snapshot()), (x, y, z), t)
      ensures old(Valid()) ==> Valid()
    {
      if Valid() {
        PlacePreservesValid(Snapshot(), (x, y, z), t);
      }
      var key := (x, y, z);
      if key in blocks {
        var oldType := blocks[key].kind;
        if oldType == Water && t != Water {
          ClearWater(key, t);
        } else {
          return;
        }
      }
      FillCell(key, t);
    }

    /** World.js:115-118: water gives way to a temporary record of the new type. */
    method ClearWater(key: Pos, t: Kind)
      requires ReplacesWater(Snapshot(), key, t)
      modifies this
      ensures Snapshot() == Clear(old(Snapshot()), key, t)
    {
      Set(key, Block(t, -1, None));
      RequestWaterUpdate();
    }

    /** World.js:122-146: a water source, or the next instance slot of a mesh type with room. */
    method FillCell(key: Pos, t: Kind)
      modifies this
      ensures Snapshot() == Fill(old(Snapshot()), key, t)
    {
      if t == Water {
        Set(key, Block(t, -1, Some(5)));
        RequestWaterUpdate();
        return;
      }
      if t !in counts {
        return;
      }
      if counts[t] >= Capacity {
        return;
      }
      var id := counts[t];
      counts := counts[t := id + 1];
      Set(key, Block(t, id, None));
    }

    /** removeBlockAt (World.js:163-186); hiding the instance is presentation. */
    method RemoveBlockAt(x: int, y: int, z: int)
      modifies this
      ensures Snapshot() == Remove(old(Snapshot()), (x, y, z))
      ensures old(Valid()) ==> Valid()
    {
      if Valid() {
        RemovePreservesValid(Snapshot(), (x, y, z));
      }
      var key := (x, y, z);
      if key !in blocks {
        return;
      }
      var data := blocks[key];
      if data.kind == Water {
        blocks := blocks - {key};
        order := Without(order, key);
        RequestWaterUpdate();
        return;
      }
      blocks := blocks - {key};
      order := Without(order, key);
      RequestWaterUpdate();
    }

    /**
     * updateWaterGeometry, without the faces: lowers the signal and collects the
     * water cells in iteration order.
     */
    method UpdateWaterGeometry() returns (cells: seq<Pos>)
      modifies this
      ensures Snapshot() == old(Snapshot()).(pending := false)
      ensures cells == WaterCells(blocks, order, |order|)
      ensures old(Valid()) ==> Valid()
      // in a valid world the cells are exactly the water records
      ensures Valid() ==> forall q :: q in cells <==> q in blocks && blocks[q].kind == Water
    {
      pending := false;
      cells := CollectWater(blocks, order);
      if Valid() {
        WaterCellsExact(Snapshot());
      }
    }

    /** The first loop of updateWaterGeometry: the water records, in iteration order. */
    static method CollectWater(blocks: map<Pos, Block>, order: seq<Pos>) returns (cells: seq<Pos>)
      ensures cells == WaterCells(blocks, order, |order|)
    {
      cells := [];
      for i := 0 to |order|
        invariant cells == WaterCells(blocks, order, i)
      {
        var p := order[i];
        if p in blocks && blocks[p].kind == Water {
          cells := cells + [p];
        }
      }
    }

    /** The proposals of the water at p that rests on a non-water block (World.js:415-436). */
    method SpreadChanges(p: Pos, level: int) returns (changes: seq<Change>)
      requires 0 < level
      ensures changes == SpreadUpTo(blocks, p, level - 1, 4)
    {
      changes := [];
      for k := 0 to 4
        invariant changes == SpreadUpTo(blocks, p, level - 1, k)
      {
        var n := Neighbour(p, k);
        if n !in blocks {
          changes := changes + [Change(n, level - 1)];
        }
      }
    }

    /** What the read phase pushes for the key p (World.js:395-437). */
    method CellChanges(p: Pos) returns (changes: seq<Change>)
      ensures changes == CellProposals(blocks, p)
    {
      changes := [];
      if p in blocks && blocks[p].kind == Water {
        var level := LevelOf(blocks[p]);
        var below := (p.0, p.1 - 1, p.2);
        if below !in blocks {
          changes := [Change(below, 5)];
        } else if blocks[below].kind != Water {
          if level > 1 {
            changes := SpreadChanges(p, level);
            assert Below(p) == below && Spreads(blocks, p);
          }
        }
      }
    }

    /** The read phase of simulateWater: every key's proposals, in iteration order. */
    method CollectChanges() returns (changes: seq<Change>)
      ensures changes == AllProposals(Snapshot())
    {
      changes := [];
      for i := 0 to |order|
        invariant changes == Proposals(Snapshot(), i)
      {
        var cell := CellChanges(order[i]);
        changes := changes + cell;
      }
    }

    /** The write phase for one proposal (World.js:442-453). */
    method ApplyOne(c: Change)
      modifies this
      ensures Snapshot() == ApplyChange(old(Snapshot()), c)
    {
      PlaceWaterLevelIsApply(Snapshot(), c);
      if c.pos !in blocks {
        PlaceBlock(c.pos.0, c.pos.1, c.pos.2, Water);
        if c.pos in blocks {
          var b := blocks[c.pos];
          blocks := blocks[c.pos := b.(level := Some(c.level))];
        }
      }
    }

    /** simulateWater (World.js:389-456): collect the proposals, then fill the cells still empty. */
    method SimulateWater()
      modifies this
      ensures Snapshot() == Tick(old(Snapshot()))
      ensures old(Valid()) ==> Valid()
    {
      if Valid() {
        TickInvariants(Snapshot());
      }
      ghost var snap := Snapshot();
      var changes := CollectChanges();
      for j := 0 to |changes|
        invariant Snapshot() == Apply(snap, changes, j)
      {
        ApplyOne(changes[j]);
      }
    }

    /** One placeBlock that extends a plan already carried out from start. */
    method PlaceNext(x: int, y: int, z: int, t: Kind, ghost start: Store, ghost plan: seq<Placement>)
      requires Snapshot() == PlaceAll(start, plan)
      modifies this
      ensures Snapshot() == PlaceAll(start, plan + [((x, y, z), t)])
    {
      PlaceBlock(x, y, z, t);
      PlaceAllSnoc(start, plan, ((x, y, z), t));
    }

    /** A single placeBlock, as a one-element plan. */
    method PlaceOne(x: int, y: int, z: int, t: Kind)
      modifies this
      ensures Snapshot() == PlaceAll(old(Snapshot()), [((x, y, z), t)])
    {
      PlaceBlock(x, y, z, t);
      PlaceAllOne(old(Snapshot()), ((x, y, z), t));
    }

    /** One step of a trunk loop: the cell (x, y+i, z) extends the stack placed so far from start. */
    method PlaceStackStep(x: int, y: int, z: int, lo: int, i: int, t: Kind, ghost start: Store)
      requires lo <= i
      requires Snapshot() == PlaceAll(start, Stack(x, y, z, lo, i, t))
      modifies this
      ensures Snapshot() == PlaceAll(start, Stack(x, y, z, lo, i + 1, t))
    {
      ghost var before := Snapshot();
      PlaceOne(x, y + i, z, t);
      StackStep(start, before, Snapshot(), x, y, z, lo, i, t);
    }

    /** The loop placing type t at (x, y+i, z) for i = lo .. hi-1. */
    method PlaceStack(x: int, y: int, z: int, lo: int, hi: int, t: Kind)
      requires lo <= hi
      modifies this
      ensures Snapshot() == PlaceAll(old(Snapshot()), Stack(x, y, z, lo, hi, t))
    {
      ghost var start := Snapshot();
      for i := lo to hi
        invariant Snapshot() == PlaceAll(start, Stack(x, y, z, lo, i, t))
      {
        PlaceStackStep(x, y, z, lo, i, t, start);
      }
    }

    /** The trunk loops of both tree builders (World.js:284-287 and 305-308). */
    method BuildTrunk(x: int, y: int, z: int, height: int)
      requires height >= 0
      modifies this
      ensures Snapshot() == PlaceAll(old(Snapshot()), Trunk(x, y, z, height))
    {
      ghost var start := Snapshot();
      var trunkHeight := Min(height, 4);
      PlaceStack(x, y, z, 0, trunkHeight, Wood);
      PlaceStack(x, y, z, trunkHeight, height, Leaves);
      PlaceAllAppend(start, Stack(x, y, z, 0, trunkHeight, Wood), Stack(x, y, z, trunkHeight, height, Leaves));
    }

    /** One step of the innermost canopy loop (World.js:293-296): a skipped cell places nothing. */
    method PlaceCanopyCell(x: int, y: int, z: int, height: int, lx: int, lz: int, ly: int)
      modifies this
      ensures Snapshot() == CanopyCellPlaced(old(Snapshot()), x, y, z, height, lx, lz, ly)
    {
      ghost var before := Snapshot();
      if IAbs(lx) + IAbs(lz) > 3 {
        return;
      }
      if lx == 0 && lz == 0 && ly < height {
        return;
      }
      PlaceBlock(x + lx, y + ly, z + lz, Leaves);
      CanopyCellKept(before, Snapshot(), x, y, z, height, lx, lz, ly);
    }

    /** The innermost canopy loop of generateTree (World.js:292-297): the layers of column (lx, lz). */
    method PlaceCanopyColumn(x: int, y: int, z: int, height: int, lx: int, lz: int)
      modifies this
      ensures Snapshot() == CanopyColumnPlaced(old(Snapshot()), x, y, z, height, lx, lz, height + 1)
    {
      ghost var start := Snapshot();
      for ly := height - 2 to height + 1
        invariant Snapshot() == CanopyColumnPlaced(start, x, y, z, height, lx, lz, ly)
      {
        PlaceCanopyCell(x, y, z, height, lx, lz, ly);
      }
    }

    /**
     * The middle canopy loop of generateTree (World.js:291-298): the columns of row lx.
     * The loop runs over the absolute coordinate zc = z + lz.
     */
    method PlaceCanopyRow(x: int, y: int, z: int, height: int, lx: int)
      modifies this
      ensures Snapshot() == CanopyRowPlaced(old(Snapshot()), x, y, z, height, lx, z + 3)
    {
      ghost var start := Snapshot();
      for zc := z - 2 to z + 3
        invariant Snapshot() == CanopyRowPlaced(start, x, y, z, height, lx, zc)
      {
        PlaceCanopyColumn(x, y, z, height, lx, zc - z);
      }
    }

    /** The canopy loops of generateTree (World.js:289-299), over the absolute coordinate xc = x + lx. */
    method PlaceCanopy(x: int, y: int, z: int, height: int)
      modifies this
      ensures Snapshot() == CanopyPlaced(old(Snapshot()), x, y, z, height, x + 3)
    {
      ghost var start := Snapshot();
      for xc := x - 2 to x + 3
        invariant Snapshot() == CanopyPlaced(start, x, y, z, height, xc)
      {
        PlaceCanopyRow(x, y, z, height, xc - x);
      }
    }

    /** generateTree (World.js:281-300). */
    method GenerateTree(x: int, y: int, z: int)
      requires 0 <= seed
      modifies this
      ensures Snapshot() == BroadTree(old(Snapshot()), x, y, z)
      ensures old(Valid()) ==> Valid()
    {
      var v := Rng();
      var height := BroadHeight(v);
      ghost var start := Snapshot();
      if Valid() {
        PlaceAllValid(start, BroadPlan(x, y, z, height));
      }
      BuildTrunk(x, y, z, height);
      ghost var mid := Snapshot();
      PlaceCanopy(x, y, z, height);
      BroadTreeDone(start, mid, Snapshot(), x, y, z, height);
    }

    /** One step of the innermost pointy loop (World.js:319-321): a skipped cell places nothing. */
    method PlacePointyCell(x: int, y: int, z: int, i: int, radius: int, lx: int, lz: int)
      requires 0 <= radius <= 2
      modifies this
      ensures Snapshot() == PlaceAll(old(Snapshot()), PointyCell(x, y, z, i, radius, lx, lz))
    {
      KeepsPointyExact(lx, lz, radius);
      if (IAbs(lx) + IAbs(lz)) as real > radius as real * 1.5 + 0.5 {
        return;
      }
      if lx == 0 && lz == 0 {
        return;
      }
      PlaceOne(x + lx, y + i, z + lz, Leaves);
    }

    /** The innermost pointy loop (World.js:318-322): row lx of a layer. */
    method PlacePointyRow(x: int, y: int, z: int, i: int, radius: int, lx: int)
      requires 0 <= radius <= 2
      modifies this
      ensures Snapshot() == PlaceAll(old(Snapshot()), PointyRow(x, y, z, i, radius, lx, radius + 1))
    {
      ghost var start := Snapshot();
      for lz := -radius to radius + 1
        invariant Snapshot() == PlaceAll(start, PointyRow(x, y, z, i, radius, lx, lz))
      {
        PlacePointyCell(x, y, z, i, radius, lx, lz);
        PlaceAllAppend(start, PointyRow(x, y, z, i, radius, lx, lz), PointyCell(x, y, z, i, radius, lx, lz));
      }
    }

    /** One layer of generatePointyTree's leaves (World.js:317-323) at the given radius. */
    method PlacePointyLayer(x: int, y: int, z: int, i: int, radius: int)
      requires 0 <= radius <= 2
      modifies this
      ensures Snapshot() == PlaceAll(old(Snapshot()), PointyLayer(x, y, z, i, radius, radius + 1))
    {
      ghost var start := Snapshot();
      for lx := -radius to radius + 1
        invariant Snapshot() == PlaceAll(start, PointyLayer(x, y, z, i, radius, lx))
      {
        PlacePointyRow(x, y, z, i, radius, lx);
        PlaceAllAppend(start, PointyLayer(x, y, z, i, radius, lx), PointyRow(x, y, z, i, radius, lx, radius + 1));
      }
    }

    /** generatePointyTree (World.js:302-326). */
    method GeneratePointyTree(x: int, y: int, z: int)
      requires 0 <= seed
      modifies this
      ensures Snapshot() == PointyTree(old(Snapshot()), x, y, z)
      ensures old(Valid()) ==> Valid()
    {
      var v := Rng();
      var height := PointyHeight(v);
      if Valid() {
        PlaceAllValid(Snapshot(), PointyPlan(x, y, z, height));
      }
      BuildPointyTree(x, y, z, height);
    }

    /** One pass of generatePointyTree's layer loop (World.js:312-322): taper the radius, then place layer i. */
    method PlacePointyStep(x: int, y: int, z: int, height: int, i: int, radius: int, ghost mid: Store)
      returns (next: int)
      requires 2 <= i < height
      requires radius == if i == 2 then 2 else LayerRadius(i - 1, height)
      requires Snapshot() == PlaceAll(mid, PointyLayers(x, y, z, height, i))
      modifies this
      ensures next == LayerRadius(i, height)
      ensures Snapshot() == PlaceAll(mid, PointyLayers(x, y, z, height, i + 1))
    {
      next := radius;
      if i % 2 == 0 && next > 0 && i > 3 {
        next := next - 1;
      }
      if i == height - 1 {
        next := 0;
      }
      TaperStep(radius, next, i, height);
      PlaceNextLayer(x, y, z, height, i, next, mid);
    }

    /** Layer i at its radius, on top of the layers below it. */
    method PlaceNextLayer(x: int, y: int, z: int, height: int, i: int, radius: int, ghost mid: Store)
      requires 2 <= i && radius == LayerRadius(i, height)
      requires Snapshot() == PlaceAll(mid, PointyLayers(x, y, z, height, i))
      modifies this
      ensures Snapshot() == PlaceAll(mid, PointyLayers(x, y, z, height, i + 1))
    {
      ghost var before := Snapshot();
      PlacePointyLayer(x, y, z, i, radius);
      PointyLayersStep(mid, before, Snapshot(), x, y, z, height, i);
    }

    /** The single leaf on top of a pointy tree (World.js:325), completing the plan. */
    method PlacePointyTip(x: int, y: int, z: int, height: int, ghost start: Store, ghost mid: Store)
      requires height >= 0 && mid == PlaceAll(start, Trunk(x, y, z, height))
      requires Snapshot() == PlaceAll(mid, PointyLayers(x, y, z, height, height))
      modifies this
      ensures Snapshot() == PlaceAll(start, PointyPlan(x, y, z, height))
    {
      ghost var layered := Snapshot();
      PlaceOne(x, y + height, z, Leaves);
      PointyTreeDone(start, mid, layered, Snapshot(), x, y, z, height);
    }

    /** The loops of generatePointyTree once its height is drawn (World.js:305-325). */
    method BuildPointyTree(x: int, y: int, z: int, height: int)
      requires height >= 2
      modifies this
      ensures Snapshot() == PlaceAll(old(Snapshot()), PointyPlan(x, y, z, height))
    {
      ghost var start := Snapshot();
      BuildTrunk(x, y, z, height);
      ghost var mid := Snapshot();
      var radius := 2;
      for i := 2 to height
        invariant radius == if i == 2 then 2 else LayerRadius(i - 1, height)
        invariant Snapshot() == PlaceAll(mid, PointyLayers(x, y, z, height, i))
      {
        radius := PlacePointyStep(x, y, z, height, i, radius, mid);
      }
      PlacePointyTip(x, y, z, height, start, mid);
    }

    /** One pass of the layer loop (World.js:230-235): layer y gets the material of its depth. */
    method PlaceLayer(x: int, z: int, h: int, y: int, ghost start: Store)
      requires Bottom <= y
      requires Snapshot() == PlaceAll(start, ColumnPlan(x, z, h, y))
      modifies this
      ensures Snapshot() == PlaceAll(start, ColumnPlan(x, z, h, y + 1))
    {
      var t := Stone;
      if y == h && y >= WaterLevel {
        t := Grass;
      } else if y > h - 3 && y >= WaterLevel {
        t := Dirt;
      } else if y < h && y <= WaterLevel {
        t := Sand;
      }
      ghost var before := Snapshot();
      PlaceBlock(x, y, z, t);
      ColumnPlanStep(start, before, Snapshot(), x, z, h, y);
    }

    /** The layer loop of a column (World.js:230-235): y = -5 .. h. */
    method PlaceLayers(x: int, z: int, h: int)
      modifies this
      ensures Snapshot() == PlaceAll(old(Snapshot()), ColumnPlan(x, z, h, h + 1))
    {
      ghost var start := Snapshot();
      PlaceAllNone(start, ColumnPlan(x, z, h, Bottom));
      var y := Bottom;
      while y <= h
        invariant Bottom <= y && (y <= h + 1 || y == Bottom)
        invariant Snapshot() == PlaceAll(start, ColumnPlan(x, z, h, y))
      {
        PlaceLayer(x, z, h, y, start);
        y := y + 1;
      }
      assert ColumnPlan(x, z, h, y) == ColumnPlan(x, z, h, h + 1);
    }

    /** One pass of the water loop (World.js:239-241): water at layer wy. */
    method PlaceWaterStep(x: int, z: int, h: int, wy: int, ghost start: Store)
      requires h < wy
      requires Snapshot() == PlaceAll(start, WaterPlan(x, z, h, wy - h - 1))
      modifies this
      ensures Snapshot() == PlaceAll(start, WaterPlan(x, z, h, wy - h))
    {
      PlaceBlock(x, wy, z, Water);
      WaterPlanStep(start, x, z, h, wy - h);
    }

    /** The water loop of a column below the water level (World.js:238-242): wy = h+1 .. 0. */
    method PlaceWater(x: int, z: int, h: int)
      requires h < WaterLevel
      modifies this
      ensures Snapshot() == PlaceAll(old(Snapshot()), WaterPlan(x, z, h, WaterLevel - h))
    {
      ghost var start := Snapshot();
      PlaceAllNone(start, WaterPlan(x, z, h, 0));
      for wy := h + 1 to WaterLevel + 1
        invariant Snapshot() == PlaceAll(start, WaterPlan(x, z, h, wy - h - 1))
      {
        PlaceWaterStep(x, z, h, wy, start);
      }
    }

    /** The layers of a column, then its water (World.js:229-242). */
    method PlaceColumn(x: int, z: int, h: int)
      modifies this
      ensures Snapshot() == PlaceAll(old(Snapshot()), ColumnAndWater(x, z, h))
    {
      ghost var start := Snapshot();
      PlaceLayers(x, z, h);
      ghost var mid := Snapshot();
      if h < WaterLevel {
        PlaceWater(x, z, h);
      }
      ColumnAndWaterDone(start, mid, Snapshot(), x, z, h);
    }

    /** The spacing check of World.js:253-261: some earlier root lies within squared distance 25. */
    static method SpacingCheck(trees: seq<(int, int)>, x: int, z: int) returns (tooClose: bool)
      ensures tooClose == TooClose(trees, x, z)
    {
      tooClose := false;
      for i := 0 to |trees|
        invariant forall k :: 0 <= k < i ==> SqDist(trees[k], (x, z)) >= TreeSpacingSq
      {
        var dx := trees[i].0 - x;
        var dz := trees[i].1 - z;
        if dx * dx + dz * dz < TreeSpacingSq {
          assert SqDist(trees[i], (x, z)) < TreeSpacingSq;
          tooClose := true;
          break;
        }
      }
    }

    /** The tree decision of one column (World.js:246-272), after its layers and water. */
    method MaybeTree(x: int, z: int, h: int, trees: seq<(int, int)>) returns (trees': seq<(int, int)>)
      requires 0 <= seed
      modifies this
      ensures Gen(Snapshot(), trees') == TreeStep(Gen(old(Snapshot()), trees), x, z, h)
    {
      trees' := trees;
      if h >= WaterLevel {
        var chance := Rng();
        if chance < 0.016 {
          var tooClose := SpacingCheck(trees, x, z);
          if !tooClose {
            trees' := trees + [(x, z)];
            var kind := Rng();
            if kind > 0.5 {
              GenerateTree(x, h + 1, z);
            } else {
              GeneratePointyTree(x, h + 1, z);
            }
          }
        }
      }
    }

    /** The body of generateSimple's column loop (World.js:229-272) for a column of height h. */
    method GenerateColumn(x: int, z: int, h: int, trees: seq<(int, int)>) returns (trees': seq<(int, int)>)
      requires 0 <= seed
      modifies this
      ensures Gen(Snapshot(), trees') == ColumnStep(Gen(old(Snapshot()), trees), x, z, h)
    {
      PlaceColumn(x, z, h);
      trees' := MaybeTree(x, z, h, trees);
    }

    /** One pass of generateSimple's inner loop: the column at z extends the row placed from g. */
    method GenerateRowStep(size: int, height: (int, int) -> int, x: int, z: int, trees: seq<(int, int)>, ghost g: Gen)
      returns (trees': seq<(int, int)>, next: int)
      requires -size <= z && 0 <= g.store.seed
      requires Gen(Snapshot(), trees) == RowUpTo(g, size, height, x, z)
      modifies this
      ensures next == z + 1
      ensures Gen(Snapshot(), trees') == RowUpTo(g, size, height, x, next)
    {
      ghost var mid := Gen(Snapshot(), trees);
      trees' := GenerateColumn(x, z, height(x, z), trees);
      RowStep(g, mid, Gen(Snapshot(), trees'), size, height, x, z);
      next := z + 1;
    }

    /** generateSimple's inner loop (World.js:203-273): the columns z = -size .. size-1 of row x. */
    method GenerateRow(size: int, height: (int, int) -> int, x: int, trees: seq<(int, int)>)
      returns (trees': seq<(int, int)>)
      requires 0 <= seed
      modifies this
      ensures Gen(Snapshot(), trees') == RowUpTo(Gen(old(Snapshot()), trees), size, height, x, size)
    {
      ghost var g := Gen(Snapshot(), trees);
      trees' := trees;
      var z := -size;
      while z < size
        invariant -size <= z && (z <= size || z == -size)
        invariant Gen(Snapshot(), trees') == RowUpTo(g, size, height, x, z)
      {
        trees', z := GenerateRowStep(size, height, x, z, trees', g);
      }
      if z != size {
        assert RowUpTo(g, size, height, x, z) == g == RowUpTo(g, size, height, x, size);
      }
    }

    /** One pass of generateSimple's outer loop: row x extends the grid placed from g. */
    method GenerateGridStep(size: int, height: (int, int) -> int, x: int, trees: seq<(int, int)>, ghost g: Gen)
      returns (trees': seq<(int, int)>, next: int)
      requires -size <= x && 0 <= g.store.seed
      requires Gen(Snapshot(), trees) == GridUpTo(g, size, height, x)
      modifies this
      ensures next == x + 1
      ensures Gen(Snapshot(), trees') == GridUpTo(g, size, height, next)
    {
      ghost var mid := Gen(Snapshot(), trees);
      trees' := GenerateRow(size, height, x, trees);
      GridStep(g, mid, Gen(Snapshot(), trees'), size, height, x);
      next := x + 1;
    }

    /** generateSimple (World.js:189-279) over the height field h(x, z); the block counter display is presentation. */
    method GenerateSimple(size: int, height: (int, int) -> int)
      modifies this
      ensures Snapshot() == Generate(old(Snapshot()), size, height).store
      ensures old(Valid()) ==> Valid()
    {
      if Valid() {
        GenerateValid(Snapshot(), size, height);
      }
      seed := InitialSeed;
      counts := map t | t in counts :: 0;
      blocks := map[];
      order := [];
      RequestWaterUpdate();
      ghost var g := Gen(Snapshot(), []);
      assert g == Gen(Reset(old(Snapshot())), []);
      var trees: seq<(int, int)> := [];
      var x := -size;
      while x < size
        invariant -size <= x && (x <= size || x == -size)
        invariant Gen(Snapshot(), trees) == GridUpTo(g, size, height, x)
      {
        trees, x := GenerateGridStep(size, height, x, trees, g);
      }
      if x != size {
        assert GridUpTo(g, size, height, x) == g == GridUpTo(g, size, height, size);
      }
    }
  }
}
