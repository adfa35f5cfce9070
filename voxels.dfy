/**
 * The sparse block store of World.js as a value: the block map keyed by integer
 * coordinates, the insertion order of that map (a JavaScript Map iterates in
 * insertion order, and the water tick depends on it), the per-type instance
 * counters of the instanced meshes, the "water geometry update pending" flag
 * and the seed of the terrain generator.
 */
module Voxels {
  import opened Common

  /** Block types: the seven materials with an instanced mesh, water, and any other name a message may carry. */
  datatype Kind = Grass | Stone | Dirt | Wood | Leaves | Sand | Bedrock | Water | Other(name: string)

  /** The block type a type name stands for. */
  function KindOf(name: string): (t: Kind)
    ensures t.Other? <==> name !in {"grass", "stone", "dirt", "wood", "leaves", "sand", "bedrock", "water"}
  {
    match name
    case "grass" => Grass
    case "stone" => Stone
    case "dirt" => Dirt
    case "wood" => Wood
    case "leaves" => Leaves
    case "sand" => Sand
    case "bedrock" => Bedrock
    case "water" => Water
    case _ => Other(name)
  }

  /** The block types that own an instanced mesh (every material except water). */
  const MeshTypes: set<Kind> := {Grass, Stone, Dirt, Wood, Leaves, Sand, Bedrock}

  /** Instance capacity of each mesh. */
  const Capacity := 300000

  /** Modulus and initial value of the linear-congruential generator. */
  const SeedModulus := 233280
  const InitialSeed := 123456

  /** A block record: its type, its instance slot (-1 for water and temporary records) and, for water, its level. */
  datatype Block = Block(kind: Kind, instanceId: int, level: Option<int>)

  /**
   * blocks  -- the block map
   * order   -- the keys of blocks in the order the map iterates them
   * counts  -- mesh.count for every type that owns a mesh
   * pending -- waterUpdatePending, the "water topology changed" signal
   * seed    -- the generator state
   */
  datatype Store = Store(blocks: map<Pos, Block>, order: seq<Pos>, counts: map<Kind, int>, pending: bool, seed: int)

  ghost predicate Distinct(order: seq<Pos>) {
    forall i, j :: 0 <= i < j < |order| ==> order[i] != order[j]
  }

  /** The store's invariant: order lists each key exactly once, the counters are within capacity. */
  ghost predicate Valid(s: Store) {
    WellFormed(s.blocks, s.order, s.counts, s.seed)
  }

  /** Valid on the fields it constrains (the pending flag is free). */
  ghost predicate WellFormed(blocks: map<Pos, Block>, order: seq<Pos>, counts: map<Kind, int>, seed: int) {
    && Distinct(order)
    && (forall i :: 0 <= i < |order| ==> order[i] in blocks)
    && (forall p :: p in blocks ==> p in order)
    && counts.Keys == MeshTypes
    && (forall t :: t in counts ==> 0 <= counts[t] <= Capacity)
    && 0 <= seed < SeedModulus
  }

  /** The store of a freshly constructed world. */
  function Empty(): (s: Store)
    ensures Valid(s) && s.blocks == map[] && s.seed == InitialSeed
  {
    Store(map[], [], map t | t in MeshTypes :: 0, false, InitialSeed)
  }

  /** getBlock: whether a record exists at p. */
  function GetBlock(s: Store, p: Pos): (b: bool)
    ensures b <==> GetType(s, p).Some?
  {
    p in s.blocks
  }

  /** getBlockType: the type of the record at p, or nothing for air. */
  function GetType(s: Store, p: Pos): (t: Option<Kind>)
    ensures t.Some? ==> p in s.blocks && t.value == s.blocks[p].kind
    ensures t.None? <==> p !in s.blocks
  {
    TypeAt(s.blocks, p)
  }

  /** getBlockType on the block map itself, as the mob code reads it. */
  function TypeAt(blocks: map<Pos, Block>, p: Pos): (t: Option<Kind>)
    ensures t.Some? <==> p in blocks
    ensures t.Some? ==> t.value == blocks[p].kind
  {
    if p in blocks then Some(blocks[p].kind) else None
  }

  /** True when p holds a block that is neither air nor water. */
  predicate Solid(s: map<Pos, Block>, p: Pos) {
    p in s && s[p].kind != Water
  }

  /** Map.set: an existing key keeps its place in the iteration order, a new key goes last. */
  function Insert(s: Store, p: Pos, b: Block): (r: Store)
    ensures r.blocks == s.blocks[p := b] && r.counts == s.counts && r.seed == s.seed && r.pending == s.pending
    ensures r.order == if p in s.blocks then s.order else s.order + [p]
  {
    s.(blocks := s.blocks[p := b], order := if p in s.blocks then s.order else s.order + [p])
  }

  /** True when placeBlock(p, t) overwrites the record at p: water replaced by a non-water type. */
  predicate ReplacesWater(s: Store, p: Pos, t: Kind) {
    p in s.blocks && s.blocks[p].kind == Water && t != Water
  }

  /** True when placeBlock(p, t) reaches the instanced-mesh branch and finds room. */
  predicate AcceptsSolid(s: Store, p: Pos, t: Kind) {
    (p !in s.blocks || ReplacesWater(s, p, t)) && t != Water && t in s.counts && s.counts[t] < Capacity
  }

  /** placeBlock (World.js:110-147), without the instance matrix. */
  function Place(s: Store, p: Pos, t: Kind): (r: Store)
    // an occupied cell is left alone unless water gives way to a non-water type
    ensures p in s.blocks && !ReplacesWater(s, p, t) ==> r == s
    // water into an empty cell is a full-strength source
    ensures p !in s.blocks && t == Water ==>
      r.blocks == s.blocks[p := Block(Water, -1, Some(5))] && r.counts == s.counts && r.pending
    // a solid block with room takes the next instance slot of its type
    ensures AcceptsSolid(s, p, t) ==>
      r.blocks == s.blocks[p := Block(t, s.counts[t], None)] && r.counts == s.counts[t := s.counts[t] + 1]
    // an unknown type or a full mesh is rejected; replaced water keeps the temporary record
    ensures t != Water && !AcceptsSolid(s, p, t) ==>
      r.counts == s.counts &&
      r.blocks == (if ReplacesWater(s, p, t) then s.blocks[p := Block(t, -1, None)] else s.blocks)
    ensures ReplacesWater(s, p, t) ==> r.pending
    ensures r.seed == s.seed
    ensures forall q :: q != p ==> (q in r.blocks <==> q in s.blocks)
    ensures forall q :: q != p && q in s.blocks ==> r.blocks[q] == s.blocks[q]
  {
    if p in s.blocks && !ReplacesWater(s, p, t) then s
    else Fill(Clear(s, p, t), p, t)
  }

  /** The first half of placeBlock: replaced water gives way to a temporary record of the new type. */
  function Clear(s: Store, p: Pos, t: Kind): Store {
    if ReplacesWater(s, p, t) then Insert(s, p, Block(t, -1, None)).(pending := true) else s
  }

  /** The second half of placeBlock: water becomes a source, a mesh type with room takes the next slot. */
  function Fill(s: Store, p: Pos, t: Kind): Store {
    if t == Water then Insert(s, p, Block(Water, -1, Some(5))).(pending := true)
    else if t !in s.counts || s.counts[t] >= Capacity then s
    else Insert(s, p, Block(t, s.counts[t], None)).(counts := s.counts[t := s.counts[t] + 1])
  }

  /** The order with every occurrence of p taken out (Map.delete). */
  function Without(order: seq<Pos>, p: Pos): (r: seq<Pos>)
    ensures forall q :: q in r <==> q in order && q != p
  {
    if order == [] then []
    else (if order[0] == p then [] else [order[0]]) + Without(order[1..], p)
  }

  /** removeBlockAt (World.js:163-186): water and solid records alike are deleted and the signal is raised. */
  function Remove(s: Store, p: Pos): (r: Store)
    ensures p !in r.blocks
    ensures p !in s.blocks ==> r == s
    ensures p in s.blocks ==> r.pending
    ensures forall q :: q != p ==> (q in r.blocks <==> q in s.blocks)
    ensures forall q :: q != p && q in s.blocks ==> r.blocks[q] == s.blocks[q]
    ensures r.counts == s.counts && r.seed == s.seed
  {
    if p !in s.blocks then s
    else s.(blocks := s.blocks - {p}, order := Without(s.order, p), pending := true)
  }

  /** JavaScript's % on integers: the remainder takes the sign of the dividend. */
  function JsRem(a: int, m: int): (r: int)
    requires m > 0
    ensures a >= 0 ==> 0 <= r < m
    ensures a < 0 ==> -m < r <= 0
    ensures (a - r) % m == 0
  {
    if a >= 0 then
      DivModParts(a, m);
      MultipleMod(a / m, m);
      assert a - a % m == m * (a / m);
      a % m
    else
      DivModParts(-a, m);
      MultipleMod(-((-a) / m), m);
      Distribute(m, 0, (-a) / m);
      assert a + (-a) % m == m * -((-a) / m);
      -((-a) % m)
  }

  lemma MultipleMod(k: int, m: int)
    requires m > 0
    ensures (m * k) % m == 0
  {
    var q, r := (m * k) / m, (m * k) % m;
    DivModParts(m * k, m);
    Distribute(m, k, q);
    var d := k - q;
    assert m * d == r;
    if d >= 1 {
      ProductAtLeast(m, d);
    } else if d <= -1 {
      ProductAtLeast(m, -d);
      Distribute(m, 0, d);
    }
  }

  lemma DivModParts(x: int, m: int)
    requires m > 0
    ensures x == m * (x / m) + x % m && 0 <= x % m < m
  {
  }

  lemma Distribute(m: int, k: int, q: int)
    ensures m * k - m * q == m * (k - q)
  {
  }

  lemma ProductAtLeast(m: int, d: int)
    requires m > 0 && d >= 1
    ensures m * d >= m
  {
  }

  /** One step of the generator: seed = (seed * 9301 + 49297) % 233280. */
  function NextSeed(seed: int): int {
    JsRem(seed * 9301 + 49297, SeedModulus)
  }

  /** rng (World.js:96-99): advances the seed and returns seed / 233280. */
  function Rng(s: Store): (r: (Store, real))
    requires 0 <= s.seed
    ensures 0 <= r.0.seed < SeedModulus && r.1 == r.0.seed as real / SeedModulus as real
    ensures 0.0 <= r.1 < 1.0
    ensures r.0 == s.(seed := r.0.seed)
  {
    var n := NextSeed(s.seed);
    (s.(seed := n), n as real / SeedModulus as real)
  }

  // ---------------------------------------------------------------------------
  // Lemmas

  lemma DistinctAppend(order: seq<Pos>, p: Pos)
    requires Distinct(order) && p !in order
    ensures Distinct(order + [p])
  {
  }

  lemma {:induction false} WithoutDistinct(order: seq<Pos>, p: Pos)
    requires Distinct(order)
    ensures Distinct(Without(order, p))
  {
    if order != [] {
      assert Distinct(order[1..]) by {
        forall i, j | 0 <= i < j < |order[1..]| ensures order[1..][i] != order[1..][j] {
          assert order[1..][i] == order[i + 1] && order[1..][j] == order[j + 1];
        }
      }
      WithoutDistinct(order[1..], p);
      var rest := Without(order[1..], p);
      assert order[0] !in order[1..] by {
        forall k | 0 <= k < |order[1..]| ensures order[1..][k] != order[0] {
          assert order[1..][k] == order[k + 1];
        }
      }
      assert order[0] !in rest;
      var head := if order[0] == p then [] else [order[0]];
      assert Without(order, p) == head + rest;
      forall i, j | 0 <= i < j < |head + rest| ensures (head + rest)[i] != (head + rest)[j] {
        if head != [] && i == 0 {
          assert (head + rest)[j] == rest[j - 1];
        } else {
          assert (head + rest)[i] == rest[i - |head|] && (head + rest)[j] == rest[j - |head|];
        }
      }
    }
  }

  lemma {:induction false} WithoutAbsent(order: seq<Pos>, p: Pos)
    requires p !in order
    ensures Without(order, p) == order
  {
    if order != [] {
      assert order[1..] + [] == order[1..];
      WithoutAbsent(order[1..], p);
      assert [order[0]] + order[1..] == order;
    }
  }

  lemma {:induction false} WithoutAppendLast(order: seq<Pos>, p: Pos)
    requires p !in order
    ensures Without(order + [p], p) == order
  {
    if order == [] {
      assert Without([p], p) == [] + Without([], p);
    } else {
      assert (order + [p])[1..] == order[1..] + [p];
      assert (order + [p])[0] == order[0];
      WithoutAppendLast(order[1..], p);
      assert [order[0]] + order[1..] == order;
    }
  }

  /** Map.set keeps the store's invariant. */
  lemma InsertPreservesValid(s: Store, p: Pos, b: Block)
    requires Valid(s)
    ensures Valid(Insert(s, p, b))
  {
    if p !in s.blocks {
      DistinctAppend(s.order, p);
    }
  }

  /** Taking one more instance slot of a mesh with room keeps the store's invariant. */
  lemma BumpPreservesValid(s: Store, t: Kind)
    requires Valid(s) && t in s.counts && s.counts[t] < Capacity
    ensures Valid(s.(counts := s.counts[t := s.counts[t] + 1]))
  {
  }

  lemma ClearPreservesValid(s: Store, p: Pos, t: Kind)
    requires Valid(s)
    ensures Valid(Clear(s, p, t))
  {
    InsertPreservesValid(s, p, Block(t, -1, None));
  }

  lemma FillPreservesValid(s: Store, p: Pos, t: Kind)
    requires Valid(s)
    ensures Valid(Fill(s, p, t))
  {
    if t == Water {
      FillWaterPreservesValid(s, p);
    } else if t in s.counts && s.counts[t] < Capacity {
      FillSlotPreservesValid(s, p, t);
    }
  }

  lemma FillWaterPreservesValid(s: Store, p: Pos)
    requires Valid(s)
    ensures Valid(Fill(s, p, Water))
  {
    InsertPreservesValid(s, p, Block(Water, -1, Some(5)));
  }

  lemma FillSlotPreservesValid(s: Store, p: Pos, t: Kind)
    requires Valid(s) && t != Water && t in s.counts && s.counts[t] < Capacity
    ensures Valid(Fill(s, p, t))
  {
    var s2 := Insert(s, p, Block(t, s.counts[t], None));
    InsertPreservesValid(s, p, Block(t, s.counts[t], None));
    BumpPreservesValid(s2, t);
    assert Fill(s, p, t) == s2.(counts := s2.counts[t := s2.counts[t] + 1]);
  }

  /**
   * What placeBlock does to the rest of the store: a type rejected on an empty cell
   * changes nothing, only a new key joins the iteration order (last), and the
   * water-update signal is raised exactly by replaced water and by new water.
   */
  lemma PlaceOrderAndSignal(s: Store, p: Pos, t: Kind)
    ensures p !in s.blocks && t != Water && !AcceptsSolid(s, p, t) ==> Place(s, p, t) == s
    ensures Place(s, p, t).order == if p in Place(s, p, t).blocks && p !in s.blocks then s.order + [p] else s.order
    ensures Place(s, p, t).pending == (s.pending || ReplacesWater(s, p, t) || (p !in s.blocks && t == Water))
  {
  }

  /** Place keeps the store's invariant. */
  lemma PlacePreservesValid(s: Store, p: Pos, t: Kind)
    requires Valid(s)
    ensures Valid(Place(s, p, t))
  {
    if !(p in s.blocks && !ReplacesWater(s, p, t)) {
      ClearPreservesValid(s, p, t);
      FillPreservesValid(Clear(s, p, t), p, t);
    }
  }

  /** Remove keeps the store's invariant. */
  lemma RemovePreservesValid(s: Store, p: Pos)
    requires Valid(s)
    ensures Valid(Remove(s, p))
  {
    if p in s.blocks {
      WithoutDistinct(s.order, p);
      var r := Remove(s, p);
      forall i | 0 <= i < |r.order| ensures r.order[i] in r.blocks {
        assert r.order[i] in r.order;
      }
    }
  }

  /** A second identical placement changes nothing (the "block" message is idempotent). */
  lemma PlaceIdempotent(s: Store, p: Pos, t: Kind)
    ensures Place(Place(s, p, t), p, t) == Place(s, p, t)
  {
  }

  /** A second identical removal changes nothing. */
  lemma RemoveIdempotent(s: Store, p: Pos)
    ensures Remove(Remove(s, p), p) == Remove(s, p)
  {
  }

  /** Placing into an empty cell and removing it again gives back the same blocks in the same iteration order. */
  lemma PlaceRemoveRoundTrip(s: Store, p: Pos, t: Kind)
    requires Valid(s) && p !in s.blocks
    ensures Remove(Place(s, p, t), p).blocks == s.blocks
    ensures Remove(Place(s, p, t), p).order == s.order
  {
    assert p !in s.order;
    WithoutAppendLast(s.order, p);
    assert Place(s, p, t) == Fill(s, p, t);
    FillRemoveRoundTrip(s, p, t);
  }

  lemma FillRemoveRoundTrip(s: Store, p: Pos, t: Kind)
    requires p !in s.blocks && Without(s.order + [p], p) == s.order
    ensures Remove(Fill(s, p, t), p).blocks == s.blocks
    ensures Remove(Fill(s, p, t), p).order == s.order
  {
    if t == Water {
      InsertRemoveRoundTrip(s, p, Block(Water, -1, Some(5)));
    } else if t in s.counts && s.counts[t] < Capacity {
      InsertRemoveRoundTrip(s, p, Block(t, s.counts[t], None));
    }
  }

  lemma InsertRemoveRoundTrip(s: Store, p: Pos, b: Block)
    requires p !in s.blocks && Without(s.order + [p], p) == s.order
    ensures Remove(Insert(s, p, b), p).blocks == s.blocks
    ensures Remove(Insert(s, p, b), p).order == s.order
  {
    assert s.blocks[p := b] - {p} == s.blocks;
  }

  /** Water owns no instanced mesh. */
  lemma WaterHasNoMesh()
    ensures Water !in MeshTypes
  {
  }

  /** A mesh type placed into an empty cell with room takes the counter's value as its instance slot. */
  lemma PlaceSolidIntoEmpty(s: Store, p: Pos, t: Kind)
    requires p !in s.blocks && t in MeshTypes && t in s.counts && s.counts[t] < Capacity
    ensures Place(s, p, t).blocks == s.blocks[p := Block(t, s.counts[t], None)]
    ensures Place(s, p, t).counts == s.counts[t := s.counts[t] + 1]
  {
    WaterHasNoMesh();
  }

  /** The only cell a placement can add is its own. */
  lemma PlaceAddsOnly(s: Store, r: Store, p: Pos, t: Kind)
    requires r == Place(s, p, t)
    ensures forall q :: q in r.blocks && q !in s.blocks ==> q == p
  {
  }

  /** Placement keeps every cell and every counter, and raises at most one counter by one. */
  lemma PlaceKeepsAndCounts(s: Store, p: Pos, t: Kind)
    ensures forall q :: q in s.blocks ==> q in Place(s, p, t).blocks
    ensures Place(s, p, t).counts.Keys == s.counts.Keys
    ensures forall u :: u in s.counts ==> s.counts[u] <= Place(s, p, t).counts[u] <= s.counts[u] + 1
  {
    if !(p in s.blocks && !ReplacesWater(s, p, t)) {
      FillKeepsAndCounts(Clear(s, p, t), p, t);
    }
  }

  lemma FillKeepsAndCounts(s: Store, p: Pos, t: Kind)
    ensures forall q :: q in s.blocks ==> q in Fill(s, p, t).blocks
    ensures Fill(s, p, t).counts.Keys == s.counts.Keys
    ensures forall u :: u in s.counts ==> s.counts[u] <= Fill(s, p, t).counts[u] <= s.counts[u] + 1
  {
  }

  /** The generator stays in [0, 233280) and its value in [0, 1) for every reachable seed. */
  lemma RngInRange(seed: int)
    requires 0 <= seed
    ensures 0 <= NextSeed(seed) < SeedModulus
  {
  }
}
