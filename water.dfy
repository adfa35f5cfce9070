/**
 * One tick of the water automaton of World.js (simulateWater): a read phase that
 * walks the block map in iteration order and collects proposed water cells, and
 * a write phase that fills each proposal whose cell is still empty.
 */
module WaterFlow {
  import opened Common
  import opened Voxels

  /** A proposed water cell and the level it would get. */
  datatype Change = Change(pos: Pos, level: int)

  /** The level of a record; a record without one counts as full strength. */
  function LevelOf(b: Block): (l: int)
    ensures b.level.None? ==> l == 5
    ensures b.level.Some? ==> l == b.level.value
  {
    b.level.GetOr(5)
  }

  function Below(p: Pos): Pos { (p.0, p.1 - 1, p.2) }

  /** The four horizontal neighbours in the order the tick visits them: +x, -x, +z, -z. */
  function Neighbour(p: Pos, k: nat): Pos
    requires k < 4
  {
    if k == 0 then (p.0 + 1, p.1, p.2)
    else if k == 1 then (p.0 - 1, p.1, p.2)
    else if k == 2 then (p.0, p.1, p.2 + 1)
    else (p.0, p.1, p.2 - 1)
  }

  predicate IsNeighbour(p: Pos, q: Pos) {
    q == Neighbour(p, 0) || q == Neighbour(p, 1) || q == Neighbour(p, 2) || q == Neighbour(p, 3)
  }

  /** The position of q in the tick's visiting order of p's neighbours (4 for a cell that is not one). */
  function VisitRank(p: Pos, q: Pos): int {
    if q == Neighbour(p, 0) then 0
    else if q == Neighbour(p, 1) then 1
    else if q == Neighbour(p, 2) then 2
    else if q == Neighbour(p, 3) then 3
    else 4
  }

  lemma RankOfNeighbour(p: Pos, n: nat)
    requires n < 4
    ensures VisitRank(p, Neighbour(p, n)) == n
  {
  }

  /**
   * The proposals for the first k of the four neighbours, in visiting order:
   * each empty neighbour once, at the given level.
   */
  function SpreadUpTo(blocks: map<Pos, Block>, p: Pos, level: int, k: nat): (r: seq<Change>)
    requires k <= 4
    ensures forall i :: 0 <= i < |r| ==>
      VisitRank(p, r[i].pos) < k && IsNeighbour(p, r[i].pos) && r[i].pos !in blocks && r[i].level == level
    ensures forall i, j :: 0 <= i < j < |r| ==> VisitRank(p, r[i].pos) < VisitRank(p, r[j].pos)
    ensures forall n :: 0 <= n < k && Neighbour(p, n) !in blocks ==> Change(Neighbour(p, n), level) in r
    ensures |r| <= k
  {
    if k == 0 then []
    else
      var prev := SpreadUpTo(blocks, p, level, k - 1);
      var q := Neighbour(p, k - 1);
      RankOfNeighbour(p, k - 1);
      if q in blocks then prev else prev + [Change(q, level)]
  }

  /** True when the water at p rests on a non-water block and still has strength to spread. */
  predicate Spreads(blocks: map<Pos, Block>, p: Pos) {
    p in blocks && blocks[p].kind == Water && Below(p) in blocks && blocks[Below(p)].kind != Water && LevelOf(blocks[p]) > 1
  }

  /** What the cell at p proposes (World.js:395-437). */
  function CellProposals(blocks: map<Pos, Block>, p: Pos): (r: seq<Change>)
    // only water proposes anything
    ensures (p !in blocks || blocks[p].kind != Water) ==> r == []
    // empty space below: fall at full strength, and nothing else
    ensures p in blocks && blocks[p].kind == Water && Below(p) !in blocks ==> r == [Change(Below(p), 5)]
    // water below: nothing
    ensures p in blocks && blocks[p].kind == Water && Below(p) in blocks && blocks[Below(p)].kind == Water ==> r == []
    // resting on a block with level <= 1: nothing
    ensures p in blocks && blocks[p].kind == Water && Below(p) in blocks && LevelOf(blocks[p]) <= 1 ==> r == []
    // resting on a block with level > 1: exactly the empty horizontal neighbours, one level weaker
    ensures Spreads(blocks, p) ==>
      (forall c :: c in r ==> IsNeighbour(p, c.pos) && c.pos !in blocks && c.level == LevelOf(blocks[p]) - 1) &&
      (forall k :: 0 <= k < 4 && Neighbour(p, k) !in blocks ==> Change(Neighbour(p, k), LevelOf(blocks[p]) - 1) in r)
    // ... in the visiting order +x, -x, +z, -z, each once
    ensures Spreads(blocks, p) ==> forall i, j :: 0 <= i < j < |r| ==> VisitRank(p, r[i].pos) < VisitRank(p, r[j].pos)
    ensures |r| <= 4
  {
    if p !in blocks || blocks[p].kind != Water then []
    else if Below(p) !in blocks then [Change(Below(p), 5)]
    else if blocks[Below(p)].kind != Water && LevelOf(blocks[p]) > 1 then
      SpreadUpTo(blocks, p, LevelOf(blocks[p]) - 1, 4)
    else []
  }

  /** The read phase over the first k keys in iteration order. */
  function Proposals(s: Store, k: nat): (r: seq<Change>)
    requires k <= |s.order|
  {
    if k == 0 then [] else Proposals(s, k - 1) + CellProposals(s.blocks, s.order[k - 1])
  }

  function AllProposals(s: Store): seq<Change> {
    Proposals(s, |s.order|)
  }

  /**
   * The write phase for one proposal (World.js:442-453): if the cell is still empty,
   * placeBlock(water) and then overwrite the level.
   */
  function PlaceWaterLevel(s: Store, c: Change): Store {
    if c.pos in s.blocks then s
    else
      var placed := Place(s, c.pos, Water);
      placed.(blocks := placed.blocks[c.pos := placed.blocks[c.pos].(level := Some(c.level))])
  }

  /**
   * What one proposal does to the store: an empty cell becomes water at the proposed
   * level, joins the iteration order last and raises the signal; an occupied cell is left alone.
   */
  function ApplyChange(s: Store, c: Change): (r: Store)
    ensures c.pos in s.blocks ==> r == s
    ensures c.pos !in s.blocks ==>
      && r.blocks == s.blocks[c.pos := Block(Water, -1, Some(c.level))]
      && r.order == s.order + [c.pos]
      && r.pending && r.counts == s.counts && r.seed == s.seed
  {
    if c.pos in s.blocks then s else Insert(s, c.pos, Block(Water, -1, Some(c.level))).(pending := true)
  }

  /** Placing water and overwriting its level is exactly ApplyChange. */
  lemma PlaceWaterLevelIsApply(s: Store, c: Change)
    ensures PlaceWaterLevel(s, c) == ApplyChange(s, c)
  {
    if c.pos !in s.blocks {
      var placed := Place(s, c.pos, Water);
      assert placed == Insert(s, c.pos, Block(Water, -1, Some(5))).(pending := true);
    }
  }

  /** The write phase over the first k proposals. */
  function Apply(s: Store, cs: seq<Change>, k: nat): Store
    requires k <= |cs|
  {
    if k == 0 then s else ApplyChange(Apply(s, cs, k - 1), cs[k - 1])
  }

  /** simulateWater: both phases. */
  function Tick(s: Store): Store {
    var cs := AllProposals(s);
    Apply(s, cs, |cs|)
  }

  /** Every stored water level lies in 1..5. */
  ghost predicate LevelsInRange(blocks: map<Pos, Block>) {
    forall p :: p in blocks && blocks[p].kind == Water && blocks[p].level.Some? ==> 1 <= blocks[p].level.value <= 5
  }

  // ---------------------------------------------------------------------------
  // Lemmas

  /** The read phase only ever proposes cells that are empty at the start of the tick. */
  lemma {:induction false} ProposalsTargetEmpty(s: Store, k: nat)
    requires k <= |s.order|
    ensures forall c :: c in Proposals(s, k) ==> c.pos !in s.blocks
  {
    if k > 0 {
      ProposalsTargetEmpty(s, k - 1);
    }
  }

  /** With levels in 1..5 at the start, every proposal has a level in 1..5. */
  lemma {:induction false} ProposalLevelsInRange(s: Store, k: nat)
    requires k <= |s.order| && LevelsInRange(s.blocks)
    ensures forall c :: c in Proposals(s, k) ==> 1 <= c.level <= 5
  {
    if k > 0 {
      ProposalLevelsInRange(s, k - 1);
      var p := s.order[k - 1];
      if Spreads(s.blocks, p) {
        assert 1 < LevelOf(s.blocks[p]) <= 5;
      }
    }
  }

  /** A proposal comes from some cell among the first k in iteration order, and every such cell's proposals are kept. */
  lemma {:induction false} ProposalsFromCells(s: Store, k: nat)
    requires k <= |s.order|
    ensures forall c :: c in Proposals(s, k) <==> exists i :: 0 <= i < k && c in CellProposals(s.blocks, s.order[i])
  {
    if k > 0 {
      ProposalsFromCells(s, k - 1);
      var prev := Proposals(s, k - 1);
      var last := CellProposals(s.blocks, s.order[k - 1]);
      assert Proposals(s, k) == prev + last;
      forall c ensures c in Proposals(s, k) <==> exists i :: 0 <= i < k && c in CellProposals(s.blocks, s.order[i]) {
        if c in prev {
          var i :| 0 <= i < k - 1 && c in CellProposals(s.blocks, s.order[i]);
          assert 0 <= i < k && c in CellProposals(s.blocks, s.order[i]);
        } else if c in last {
          assert c in CellProposals(s.blocks, s.order[k - 1]);
        } else {
          forall i | 0 <= i < k ensures c !in CellProposals(s.blocks, s.order[i]) {
            if i < k - 1 {
              assert !(0 <= i < k - 1 && c in CellProposals(s.blocks, s.order[i]));
            }
          }
        }
      }
    }
  }

  /** The write phase never touches a cell that existed before it. */
  lemma {:induction false} ApplyKeepsExisting(s: Store, cs: seq<Change>, k: nat)
    requires k <= |cs|
    ensures forall p :: p in s.blocks ==> p in Apply(s, cs, k).blocks && Apply(s, cs, k).blocks[p] == s.blocks[p]
    ensures Apply(s, cs, k).counts == s.counts && Apply(s, cs, k).seed == s.seed
  {
    if k > 0 {
      ApplyKeepsExisting(s, cs, k - 1);
    }
  }

  /** After the write phase a cell is occupied exactly when it was before or some proposal targeted it. */
  lemma {:induction false} ApplyDomain(s: Store, cs: seq<Change>, k: nat)
    requires k <= |cs|
    ensures forall p :: p in Apply(s, cs, k).blocks <==> p in s.blocks || exists i :: 0 <= i < k && cs[i].pos == p
  {
    if k > 0 {
      ApplyDomain(s, cs, k - 1);
      var prev := Apply(s, cs, k - 1);
      forall p ensures p in Apply(s, cs, k).blocks <==> p in s.blocks || exists i :: 0 <= i < k && cs[i].pos == p {
        if p == cs[k - 1].pos {
          assert p in Apply(s, cs, k).blocks;
        } else {
          assert p in Apply(s, cs, k).blocks <==> p in prev.blocks;
          if exists i :: 0 <= i < k && cs[i].pos == p {
            var i :| 0 <= i < k && cs[i].pos == p;
            assert i < k - 1;
          }
        }
      }
    }
  }

  /** A proposal never changes a cell that already has a record. */
  lemma ApplyChangeKeeps(s: Store, c: Change, q: Pos)
    requires q in s.blocks
    ensures q in ApplyChange(s, c).blocks && ApplyChange(s, c).blocks[q] == s.blocks[q]
  {
  }

  /** True when no proposal before index i targets the cell of cs[i]. */
  ghost predicate IsFirst(cs: seq<Change>, i: nat)
    requires i < |cs|
  {
    forall j :: 0 <= j < i ==> cs[j].pos != cs[i].pos
  }

  /** The cell of a first proposal is still empty when that proposal is applied. */
  lemma FirstStillEmpty(s: Store, cs: seq<Change>, i: nat)
    requires i < |cs| && cs[i].pos !in s.blocks && IsFirst(cs, i)
    ensures cs[i].pos !in Apply(s, cs, i).blocks
  {
    ApplyDomain(s, cs, i);
  }

  /** A cell that was empty gets the level of the FIRST proposal that targets it; later ones are dropped. */
  lemma {:induction false} ApplyFirstWins(s: Store, cs: seq<Change>, k: nat)
    requires k <= |cs|
    ensures forall i :: 0 <= i < k && cs[i].pos !in s.blocks && IsFirst(cs, i) ==>
      cs[i].pos in Apply(s, cs, k).blocks && Apply(s, cs, k).blocks[cs[i].pos] == Block(Water, -1, Some(cs[i].level))
  {
    if k > 0 {
      ApplyFirstWins(s, cs, k - 1);
      var prev := Apply(s, cs, k - 1);
      var next := ApplyChange(prev, cs[k - 1]);
      assert Apply(s, cs, k) == next;
      forall i | 0 <= i < k && cs[i].pos !in s.blocks && IsFirst(cs, i)
        ensures cs[i].pos in next.blocks && next.blocks[cs[i].pos] == Block(Water, -1, Some(cs[i].level))
      {
        if i < k - 1 {
          ApplyChangeKeeps(prev, cs[k - 1], cs[i].pos);
        } else {
          FirstStillEmpty(s, cs, i);
        }
      }
    }
  }

  /** The write phase keeps the store's invariant. */
  lemma {:induction false} ApplyPreservesValid(s: Store, cs: seq<Change>, k: nat)
    requires k <= |cs| && Valid(s)
    ensures Valid(Apply(s, cs, k))
  {
    if k > 0 {
      ApplyPreservesValid(s, cs, k - 1);
      var prev := Apply(s, cs, k - 1);
      PlacePreservesValid(prev, cs[k - 1].pos, Water);
    }
  }

  /** If every level lies in 1..5 and so does every proposal, they still do after the write phase. */
  lemma {:induction false} ApplyKeepsLevels(s: Store, cs: seq<Change>, k: nat)
    requires k <= |cs| && LevelsInRange(s.blocks)
    requires forall c :: c in cs ==> 1 <= c.level <= 5
    ensures LevelsInRange(Apply(s, cs, k).blocks)
  {
    if k > 0 {
      ApplyKeepsLevels(s, cs, k - 1);
      assert cs[k - 1] in cs;
    }
  }

  /**
   * A tick: existing cells are unchanged, only cells that were empty are filled,
   * all of them with water, and levels in 1..5 stay in 1..5.
   */
  lemma TickInvariants(s: Store)
    requires Valid(s)
    ensures Valid(Tick(s))
    ensures forall p :: p in s.blocks ==> p in Tick(s).blocks && Tick(s).blocks[p] == s.blocks[p]
    ensures forall p :: p in Tick(s).blocks && p !in s.blocks ==> Tick(s).blocks[p].kind == Water
    ensures Tick(s).counts == s.counts && Tick(s).seed == s.seed
    ensures LevelsInRange(s.blocks) ==> LevelsInRange(Tick(s).blocks)
  {
    var cs := AllProposals(s);
    ApplyKeepsExisting(s, cs, |cs|);
    ApplyDomain(s, cs, |cs|);
    ApplyFirstWins(s, cs, |cs|);
    ApplyPreservesValid(s, cs, |cs|);
    forall p | p in Tick(s).blocks && p !in s.blocks ensures Tick(s).blocks[p].kind == Water {
      var i :| 0 <= i < |cs| && cs[i].pos == p;
      var i0 := FirstIndex(cs, i);
      assert cs[i0].pos !in s.blocks;
    }
    if LevelsInRange(s.blocks) {
      ProposalLevelsInRange(s, |s.order|);
      ApplyKeepsLevels(s, cs, |cs|);
    }
  }

  /** The first index whose proposal targets the same cell as cs[i]. */
  lemma {:induction false} FirstIndexExists(cs: seq<Change>, i: nat)
    requires i < |cs|
    ensures exists i0 :: 0 <= i0 <= i && cs[i0].pos == cs[i].pos && IsFirst(cs, i0)
  {
    if exists j :: 0 <= j < i && cs[j].pos == cs[i].pos {
      var j :| 0 <= j < i && cs[j].pos == cs[i].pos;
      FirstIndexExists(cs, j);
      var i0 :| 0 <= i0 <= j && cs[i0].pos == cs[j].pos && IsFirst(cs, i0);
      assert 0 <= i0 <= i && cs[i0].pos == cs[i].pos;
    } else {
      assert IsFirst(cs, i);
    }
  }

  ghost function FirstIndex(cs: seq<Change>, i: nat): (i0: nat)
    requires i < |cs|
    ensures i0 <= i && cs[i0].pos == cs[i].pos && IsFirst(cs, i0)
  {
    FirstIndexExists(cs, i);
    var i0 :| 0 <= i0 <= i && cs[i0].pos == cs[i].pos && IsFirst(cs, i0);
    i0
  }
}
