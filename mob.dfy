/**
 * The movement rules of Mob.js: the per-axis collision resolver that reads the
 * world's block map, and the decisions taken by update (the dead guard, the
 * bait match, the attraction band, the rule that keeps an ulrich in water).
 * Positions and velocities are exact reals.  Math.random, the two-second
 * search clock and the sqrt-based normalisations are inputs supplied by the
 * caller (see Draws).
 */
module MobLogic {
  import opened Common
  import opened Voxels

  /** The mob's box: 70% of a 0.6 wide, 1.4 tall body. */
  const Width: real := 0.6 * 0.7
  const Height: real := 1.4 * 0.7
  /** The gap left between a pushed-out mob and the block face. */
  const Gap: real := 0.001
  const StepUp: real := 1.1
  const Speed: real := 3.0
  const Gravity: real := 25.0
  /** Attraction reaches no further than this distance. */
  const Reach: real := 30.0

  predicate IsWater(blocks: map<Pos, Block>, p: Pos) {
    TypeAt(blocks, p) == Some(Water)
  }

  /**
   * A cell that stops the mob: a record whose type name is truthy and is not
   * "water".  The empty name is falsy in JavaScript, so a record of type "" is
   * passed through like air.
   */
  predicate Blocking(blocks: map<Pos, Block>, p: Pos) {
    p in blocks && blocks[p].kind != Water && blocks[p].kind != Other("")
  }

  datatype Axis = X | Y | Z

  /** The cells overlapped by a mob standing at p (Mob.js:368-378). */
  function BoxAt(p: Vec3): Box {
    Box((p.x - Width / 2.0).Floor, (p.x + Width / 2.0).Floor,
        p.y.Floor, (p.y + Height).Floor,
        (p.z - Width / 2.0).Floor, (p.z + Width / 2.0).Floor)
  }

  /** q is scanned before p: x first, then y, then z. */
  predicate Before(q: Pos, p: Pos) {
    q.0 < p.0 || (q.0 == p.0 && (q.1 < p.1 || (q.1 == p.1 && q.2 < p.2)))
  }

  // ---------------------------------------------------------------------------
  // The scan of handleCollisions (Mob.js:379-385)

  /** The first blocking cell (x, y, k) for k = z .. zMax. */
  function FirstInColumn(blocks: map<Pos, Block>, x: int, y: int, z: int, zMax: int): Option<Pos>
    decreases zMax - z + 1
  {
    if z > zMax then None
    else if Blocking(blocks, (x, y, z)) then Some((x, y, z))
    else FirstInColumn(blocks, x, y, z + 1, zMax)
  }

  /** The first blocking cell of the layers y .. b.maxY of slice x, in scan order. */
  function FirstInSlice(blocks: map<Pos, Block>, b: Box, x: int, y: int): Option<Pos>
    decreases b.maxY - y + 1
  {
    if y > b.maxY then None
    else match FirstInColumn(blocks, x, y, b.minZ, b.maxZ)
      case Some(p) => Some(p)
      case None => FirstInSlice(blocks, b, x, y + 1)
  }

  /** The first blocking cell of the slices x .. b.maxX of box b, in scan order. */
  function FirstInBox(blocks: map<Pos, Block>, b: Box, x: int): Option<Pos>
    decreases b.maxX - x + 1
  {
    if x > b.maxX then None
    else match FirstInSlice(blocks, b, x, b.minY)
      case Some(p) => Some(p)
      case None => FirstInBox(blocks, b, x + 1)
  }

  /** The cell handleCollisions resolves against (see FirstSolidIsFirst). */
  function FirstSolid(blocks: map<Pos, Block>, b: Box): Option<Pos> {
    FirstInBox(blocks, b, b.minX)
  }

  lemma {:induction false} FirstInColumnIsFirst(blocks: map<Pos, Block>, x: int, y: int, z: int, zMax: int)
    ensures var r := FirstInColumn(blocks, x, y, z, zMax);
      && (r.Some? ==> r.value.0 == x && r.value.1 == y && z <= r.value.2 <= zMax && Blocking(blocks, r.value))
      && (r.Some? ==> forall k :: z <= k < r.value.2 ==> !Blocking(blocks, (x, y, k)))
      && (r.None? <==> forall k :: z <= k <= zMax ==> !Blocking(blocks, (x, y, k)))
    decreases zMax - z + 1
  {
    if z <= zMax && !Blocking(blocks, (x, y, z)) {
      FirstInColumnIsFirst(blocks, x, y, z + 1, zMax);
    }
  }

  lemma {:induction false} FirstInSliceIsFirst(blocks: map<Pos, Block>, b: Box, x: int, y: int)
    ensures var r := FirstInSlice(blocks, b, x, y);
      && (r.Some? ==> r.value.0 == x && y <= r.value.1 <= b.maxY && b.minZ <= r.value.2 <= b.maxZ && Blocking(blocks, r.value))
      && (r.Some? ==> forall q: Pos :: q.0 == x && y <= q.1 <= b.maxY && b.minZ <= q.2 <= b.maxZ && Before(q, r.value) ==>
            !Blocking(blocks, q))
      && (r.None? <==> forall q: Pos :: q.0 == x && y <= q.1 <= b.maxY && b.minZ <= q.2 <= b.maxZ ==> !Blocking(blocks, q))
    decreases b.maxY - y + 1
  {
    if y <= b.maxY {
      FirstInColumnIsFirst(blocks, x, y, b.minZ, b.maxZ);
      FirstInSliceIsFirst(blocks, b, x, y + 1);
    }
  }

  lemma {:induction false} FirstInBoxIsFirst(blocks: map<Pos, Block>, b: Box, x: int)
    requires b.minX <= x
    ensures var r := FirstInBox(blocks, b, x);
      && (r.Some? ==> x <= r.value.0 && InBox(b, r.value) && Blocking(blocks, r.value))
      && (r.Some? ==> forall q: Pos :: x <= q.0 && InBox(b, q) && Before(q, r.value) ==> !Blocking(blocks, q))
      && (r.None? <==> forall q: Pos :: x <= q.0 && InBox(b, q) ==> !Blocking(blocks, q))
    decreases b.maxX - x + 1
  {
    if x <= b.maxX {
      FirstInSliceIsFirst(blocks, b, x, b.minY);
      FirstInBoxIsFirst(blocks, b, x + 1);
    }
  }

  /**
   * The scan finds the first blocking cell of the box in x, y, z order, and
   * finds none exactly when every cell of the box is air or water.
   */
  lemma FirstSolidIsFirst(blocks: map<Pos, Block>, b: Box)
    ensures var r := FirstSolid(blocks, b);
      && (r.None? <==> forall q: Pos :: InBox(b, q) ==> !Blocking(blocks, q))
      && (r.Some? ==> InBox(b, r.value) && Blocking(blocks, r.value))
      && (r.Some? ==> forall q: Pos :: InBox(b, q) && Before(q, r.value) ==> !Blocking(blocks, q))
  {
    FirstInBoxIsFirst(blocks, b, b.minX);
  }

  // ---------------------------------------------------------------------------
  // Collision resolution (Mob.js:367-426)

  /** The mutable state of a mob. wanderDir holds (sin a, _, cos a) for the wander angle a. */
  datatype MobState = MobState(position: Vec3, velocity: Vec3, onGround: bool, isDead: bool, isWandering: bool, wanderDir: Vec3)

  /** Auto-step: the mob stands on the ground, the block is at its feet, and the two cells above it let it through. */
  predicate CanStepUp(s: MobState, blocks: map<Pos, Block>, c: Pos) {
    && s.onGround
    && c.1 == s.position.y.Floor
    && !Blocking(blocks, (c.0, c.1 + 1, c.2))
    && !Blocking(blocks, (c.0, c.1 + 2, c.2))
  }

  /** A vertical hit: a falling mob lands on top of the cell, a rising one stops below it. */
  function Vertical(s: MobState, c: Pos): MobState {
    if s.velocity.y < 0.0 then
      s.(position := s.position.(y := c.1 as real + 1.001), velocity := s.velocity.(y := 0.0), onGround := true)
    else if s.velocity.y > 0.0 then
      s.(position := s.position.(y := c.1 as real - Height - Gap), velocity := s.velocity.(y := 0.0))
    else s
  }

  /** A horizontal hit: step up onto the cell, or be pushed out of it on the side the mob came from. */
  function Horizontal(s: MobState, axis: Axis, blocks: map<Pos, Block>, c: Pos): MobState
    requires axis != Y
  {
    if CanStepUp(s, blocks, c) then s.(position := s.position.(y := s.position.y + StepUp))
    else if axis == X then
      if s.velocity.x > 0.0 then s.(position := s.position.(x := c.0 as real - Width / 2.0 - Gap))
      else s.(position := s.position.(x := c.0 as real + 1.0 + Width / 2.0 + Gap))
    else
      if s.velocity.z > 0.0 then s.(position := s.position.(z := c.2 as real - Width / 2.0 - Gap))
      else s.(position := s.position.(z := c.2 as real + 1.0 + Width / 2.0 + Gap))
  }

  /** The response to the blocking cell c along one axis. */
  function Resolve(s: MobState, axis: Axis, blocks: map<Pos, Block>, c: Pos): MobState {
    if axis == Y then Vertical(s, c) else Horizontal(s, axis, blocks, c)
  }

  /** handleCollisions(axis): resolve against the first blocking cell; with none, a falling mob leaves the ground. */
  function Collide(s: MobState, axis: Axis, blocks: map<Pos, Block>): MobState {
    match FirstSolid(blocks, BoxAt(s.position))
    case None => if axis == Y && s.velocity.y < 0.0 then s.(onGround := false) else s
    case Some(c) => Resolve(s, axis, blocks, c)
  }

  // ---------------------------------------------------------------------------
  // The decisions of update (Mob.js:205-334)

  /** The inputs update takes from outside the model. */
  datatype Draws = Draws(
    searchDue: bool,   // the two-second water-search clock of an ulrich on land has run out
    flop: Vec3,        // the velocity the water search or the panicked flop then sets
    toPlayer: Vec3,    // the normalised direction from the mob to the player
    startWander: bool, // Math.random() < 0.02
    newDir: Vec3,      // (sin a, 0, cos a) for the new wander angle a
    stopWander: bool)  // Math.random() < 0.01

  /** The bait that attracts a species: its own name followed by "bait", for the four known species. */
  function Attracted(kind: string, bait: string): bool {
    bait != "" &&
    ((kind == "ceca" && bait == "cecabait") || (kind == "bohy" && bait == "bohybait") ||
     (kind == "kohoutek" && bait == "kohoutekbait") || (kind == "ulrich" && bait == "ulrichbait"))
  }

  function StopDist(kind: string): real {
    if kind == "kohoutek" then 3.5 else 2.5
  }

  function SqDist3(a: Vec3, b: Vec3): real {
    (a.x - b.x) * (a.x - b.x) + (a.y - b.y) * (a.y - b.y) + (a.z - b.z) * (a.z - b.z)
  }

  /** stopDist < dist < 30, stated on the squared distance d2 = dist * dist. */
  predicate InBand(kind: string, d2: real) {
    d2 < Reach * Reach && d2 > StopDist(kind) * StopDist(kind)
  }

  /** Gravity and water (Mob.js:208-277); the ulrich's water search is the flop velocity it is given. */
  function Physics(s: MobState, kind: string, inWater: bool, delta: real, d: Draws): MobState {
    var v := s.velocity.(y := s.velocity.y - Gravity * delta);
    if kind == "ulrich" then
      if inWater then
        var vy := v.y * 0.9;
        s.(velocity := Vec3(v.x * 0.8, if Abs(vy) < 0.1 then 0.0 else vy, v.z * 0.8))
      else
        var landed := s.(velocity := Vec3(v.x * 0.5, v.y - Gravity * delta, v.z * 0.5));
        if s.onGround && d.searchDue then landed.(velocity := d.flop, onGround := false) else landed
    else if inWater then s.(velocity := Vec3(v.x * 0.8, 5.0, v.z * 0.8))
    else s.(velocity := v.(y := v.y - Gravity * delta))
  }

  /** The wander state after the two coin flips, and the direction it gives. */
  function Wander(s: MobState, d: Draws): (MobState, Vec3) {
    var started := if d.startWander then s.(wanderDir := d.newDir, isWandering := true) else s;
    var t := if d.stopWander then started.(isWandering := false) else started;
    (t, if t.isWandering then Vec3(t.wanderDir.x, 0.0, t.wanderDir.z) else Zero)
  }

  /** The cell an ulrich looks at before swimming: half a move ahead. */
  function LookAhead(p: Vec3, move: Vec3): Pos {
    ((p.x + move.x * 0.5).Floor, (p.y + move.y * 0.5).Floor, (p.z + move.z * 0.5).Floor)
  }

  /** The movement intent (Mob.js:279-327): attraction, or wandering, then the ulrich stays in water. */
  function Intent(s: MobState, kind: string, inWater: bool, bait: string, playerPos: Vec3, d: Draws, blocks: map<Pos, Block>)
    : (MobState, Vec3)
  {
    KeepInWater(Chosen(s, kind, bait, playerPos, d), kind, inWater, Attracted(kind, bait), blocks)
  }

  /** Head for the player when attracted and inside the band, otherwise wander (Mob.js:279-316). */
  function Chosen(s: MobState, kind: string, bait: string, playerPos: Vec3, d: Draws): (MobState, Vec3) {
    if Attracted(kind, bait) then (s, if InBand(kind, SqDist3(s.position, playerPos)) then d.toPlayer else Zero)
    else Wander(s, d)
  }

  /** An ulrich in water that is not attracted gives up a move that would leave the water (Mob.js:318-327). */
  function KeepInWater(c: (MobState, Vec3), kind: string, inWater: bool, attracted: bool, blocks: map<Pos, Block>)
    : (MobState, Vec3)
  {
    if kind == "ulrich" && inWater && !attracted && !IsWater(blocks, LookAhead(c.0.position, c.1)) then
      (c.0.(isWandering := false), Zero)
    else c
  }

  /** The three moves along x, z and y, each followed by its collision check (Mob.js:336-341). */
  function Integrate(s: MobState, delta: real, blocks: map<Pos, Block>): MobState {
    Advance(Advance(Advance(s, X, delta, blocks), Z, delta, blocks), Y, delta, blocks)
  }

  /** One move along an axis by velocity * delta, followed by its collision check. */
  function Advance(s: MobState, axis: Axis, delta: real, blocks: map<Pos, Block>): MobState {
    Collide(s.(position := Moved(s, axis, delta)), axis, blocks)
  }

  /** The position after a move along one axis by velocity * delta. */
  function Moved(s: MobState, axis: Axis, delta: real): Vec3 {
    var p := s.position;
    match axis
    case X => p.(x := p.x + s.velocity.x * delta)
    case Y => p.(y := p.y + s.velocity.y * delta)
    case Z => p.(z := p.z + s.velocity.z * delta)
  }

  /** The horizontal velocity set from the move direction (Mob.js:329-330). */
  function Steered(s: MobState, move: Vec3): MobState {
    s.(velocity := s.velocity.(x := move.x * Speed, z := move.z * Speed))
  }

  /** The cell whose type decides whether the mob is in water: the one at its head. */
  function HeadCell(p: Vec3): Pos {
    (p.x.Floor, (p.y + 0.5).Floor, p.z.Floor)
  }

  /** update(delta, playerPos, bait) without the model's presentation (rotation, legs, tail). */
  function Step(s: MobState, kind: string, delta: real, playerPos: Vec3, bait: string, d: Draws, blocks: map<Pos, Block>)
    : MobState
  {
    if s.isDead then s
    else
      var inWater := IsWater(blocks, HeadCell(s.position));
      var s1 := Physics(s, kind, inWater, delta, d);
      var intent := Intent(s1, kind, inWater, bait, playerPos, d, blocks);
      Integrate(Steered(intent.0, intent.1), delta, blocks)
  }

  // ---------------------------------------------------------------------------
  // Properties

  /**
   * The physics step (Mob.js:208-277) changes only the velocity and the ground flag. A
   * mob other than the ulrich floats up at 5 in water, and on land it gets gravity
   * twice: once for every mob and once more in its own branch. An ulrich in water never
   * keeps a vertical speed below 0.1, and on land with its water search due it takes
   * the flop velocity and leaves the ground.
   */
  lemma PhysicsRules(s: MobState, kind: string, inWater: bool, delta: real, d: Draws)
    ensures var r := Physics(s, kind, inWater, delta, d);
      && r.position == s.position && r.isDead == s.isDead
      && r.isWandering == s.isWandering && r.wanderDir == s.wanderDir
      && (!d.searchDue || inWater || kind != "ulrich" ==> r.onGround == s.onGround)
      && (kind != "ulrich" && inWater ==> r.velocity == Vec3(s.velocity.x * 0.8, 5.0, s.velocity.z * 0.8))
      && (kind != "ulrich" && !inWater ==>
            r.velocity == s.velocity.(y := s.velocity.y - Gravity * delta - Gravity * delta))
      && (kind == "ulrich" && inWater ==> r.velocity.y == 0.0 || Abs(r.velocity.y) >= 0.1)
      && (kind == "ulrich" && !inWater && s.onGround && d.searchDue ==> r.velocity == d.flop && !r.onGround)
  {
  }

  /** A dead mob does nothing (Mob.js:206). */
  lemma DeadIsInert(s: MobState, kind: string, delta: real, playerPos: Vec3, bait: string, d: Draws, blocks: map<Pos, Block>)
    requires s.isDead
    ensures Step(s, kind, delta, playerPos, bait, d, blocks) == s
  {
  }

  /** A mob is attracted exactly by its own species' name followed by "bait", for the four species. */
  lemma AttractedIsOwnBait(kind: string, bait: string)
    ensures Attracted(kind, bait) <==> kind in {"ceca", "bohy", "kohoutek", "ulrich"} && bait == kind + "bait"
  {
    assert "ceca" + "bait" == "cecabait";
    assert "bohy" + "bait" == "bohybait";
    assert "kohoutek" + "bait" == "kohoutekbait";
    assert "ulrich" + "bait" == "ulrichbait";
  }

  lemma MulPos(x: real, y: real)
    requires 0.0 < x && 0.0 < y
    ensures 0.0 < x * y
  {
  }

  lemma MulNonPos(x: real, y: real)
    requires x <= 0.0 && 0.0 <= y
    ensures x * y <= 0.0
  {
  }

  /** For non-negative a and b, a < b exactly when a * a < b * b. */
  lemma SquareMonotone(a: real, b: real)
    requires 0.0 <= a && 0.0 <= b
    ensures a < b <==> a * a < b * b
  {
    assert b * b - a * a == (b - a) * (b + a);
    if a < b {
      MulPos(b - a, b + a);
    } else {
      MulNonPos(b - a, b + a);
    }
  }

  /** The band on squared distances is the source's stopDist < dist < 30. */
  lemma InBandIsDistanceBand(kind: string, dist: real)
    requires 0.0 <= dist
    ensures InBand(kind, dist * dist) <==> StopDist(kind) < dist < Reach
  {
    SquareMonotone(dist, Reach);
    SquareMonotone(StopDist(kind), dist);
  }

  /** An attracted mob heads for the player inside the band and stands still outside it (Mob.js:295-302). */
  lemma AttractionBand(s: MobState, kind: string, inWater: bool, bait: string, playerPos: Vec3, d: Draws, blocks: map<Pos, Block>)
    requires Attracted(kind, bait)
    ensures var intent := Intent(s, kind, inWater, bait, playerPos, d, blocks);
      intent.0 == s &&
      intent.1 == (if InBand(kind, SqDist3(s.position, playerPos)) then d.toPlayer else Zero)
  {
  }

  /** An ulrich in water that is not attracted stops, and stops wandering, rather than swim onto land (Mob.js:318-327). */
  lemma UlrichStaysInWater(s: MobState, inWater: bool, bait: string, playerPos: Vec3, d: Draws, blocks: map<Pos, Block>)
    requires inWater && !Attracted("ulrich", bait)
    requires !IsWater(blocks, LookAhead(s.position, Wander(s, d).1))
    ensures Intent(s, "ulrich", inWater, bait, playerPos, d, blocks).1 == Zero
    ensures !Intent(s, "ulrich", inWater, bait, playerPos, d, blocks).0.isWandering
  {
  }

  /** A falling mob that hits row y lands on top of it (Mob.js:385-389). */
  lemma LandsOnBlock(s: MobState, blocks: map<Pos, Block>, c: Pos)
    requires FirstSolid(blocks, BoxAt(s.position)) == Some(c) && s.velocity.y < 0.0
    ensures Collide(s, Y, blocks) ==
      s.(position := s.position.(y := c.1 as real + 1.001), velocity := s.velocity.(y := 0.0), onGround := true)
  {
  }

  /** A rising mob that hits row y stops with its head just below it (Mob.js:389-392). */
  lemma HitsHead(s: MobState, blocks: map<Pos, Block>, c: Pos)
    requires FirstSolid(blocks, BoxAt(s.position)) == Some(c) && s.velocity.y > 0.0
    ensures Collide(s, Y, blocks) == s.(position := s.position.(y := c.1 as real - 0.98 - 0.001), velocity := s.velocity.(y := 0.0))
  {
  }

  /** A block at the feet of a grounded mob with two clear cells above is climbed by 1.1 (Mob.js:395-401, 408-414). */
  lemma StepsUp(s: MobState, axis: Axis, blocks: map<Pos, Block>, c: Pos)
    requires axis != Y && FirstSolid(blocks, BoxAt(s.position)) == Some(c) && CanStepUp(s, blocks, c)
    ensures Collide(s, axis, blocks).position == s.position.(y := s.position.y + 1.1)
    ensures Collide(s, axis, blocks).velocity == s.velocity && Collide(s, axis, blocks).onGround == s.onGround
  {
  }

  /** Otherwise a horizontal hit pushes the mob out of the block on the side it came from (Mob.js:404-405, 417-418). */
  lemma PushedOut(s: MobState, blocks: map<Pos, Block>, c: Pos)
    requires FirstSolid(blocks, BoxAt(s.position)) == Some(c) && !CanStepUp(s, blocks, c)
    ensures Collide(s, X, blocks).position.x == if s.velocity.x > 0.0 then c.0 as real - 0.21 - 0.001 else c.0 as real + 1.0 + 0.21 + 0.001
    ensures Collide(s, Z, blocks).position.z == if s.velocity.z > 0.0 then c.2 as real - 0.21 - 0.001 else c.2 as real + 1.0 + 0.21 + 0.001
    ensures Collide(s, X, blocks).position.(x := s.position.x) == s.position
    ensures Collide(s, Z, blocks).position.(z := s.position.z) == s.position
  {
  }

  /** With only air and water in the box nothing collides, and a falling mob is no longer on the ground (Mob.js:425). */
  lemma FreeFall(s: MobState, axis: Axis, blocks: map<Pos, Block>)
    requires forall q: Pos :: InBox(BoxAt(s.position), q) ==> !Blocking(blocks, q)
    ensures Collide(s, axis, blocks) == if axis == Y && s.velocity.y < 0.0 then s.(onGround := false) else s
  {
    FirstSolidIsFirst(blocks, BoxAt(s.position));
  }

  /** A collision check moves the mob only along its own axis, or up by a step. */
  lemma CollideMovesOnAxis(s: MobState, axis: Axis, blocks: map<Pos, Block>)
    ensures var r := Collide(s, axis, blocks);
      r.isDead == s.isDead && r.isWandering == s.isWandering && r.wanderDir == s.wanderDir &&
      r.velocity.x == s.velocity.x && r.velocity.z == s.velocity.z &&
      (axis == X ==> r.position.z == s.position.z && (r.position.y == s.position.y || r.position.y == s.position.y + StepUp)) &&
      (axis == Z ==> r.position.x == s.position.x && (r.position.y == s.position.y || r.position.y == s.position.y + StepUp)) &&
      (axis == Y ==> r.position.x == s.position.x && r.position.z == s.position.z)
  {
  }

  // ---------------------------------------------------------------------------
  // The mob object

  class Mob {
    const kind: string
    var position: Vec3
    var velocity: Vec3
    var onGround: bool
    var isDead: bool
    var isWandering: bool
    var wanderDir: Vec3

    function State(): MobState
      reads this
    {
      MobState(position, velocity, onGround, isDead, isWandering, wanderDir)
    }

    /** A new mob at rest, in the air, alive and not wandering. */
    constructor(position: Vec3, kind: string)
      ensures this.kind == kind
      ensures State() == MobState(position, Zero, false, false, false, Zero)
    {
      this.kind := kind;
      this.position := position;
      velocity := Zero;
      onGround := false;
      isDead := false;
      isWandering := false;
      wanderDir := Zero;
    }

    /** The innermost scan loop: the first blocking cell (x, y, z) for z = zMin .. zMax. */
    static method ScanColumn(blocks: map<Pos, Block>, x: int, y: int, zMin: int, zMax: int) returns (r: Option<Pos>)
      ensures r == FirstInColumn(blocks, x, y, zMin, zMax)
    {
      var z := zMin;
      while z <= zMax
        invariant zMin <= z && (z <= zMax + 1 || z == zMin)
        invariant FirstInColumn(blocks, x, y, zMin, zMax) == FirstInColumn(blocks, x, y, z, zMax)
      {
        var block := TypeAt(blocks, (x, y, z));
        if block.Some? && block.value != Water && block.value != Other("") {
          return Some((x, y, z));
        }
        z := z + 1;
      }
      return None;
    }

    /** The middle scan loop over y for slice x. */
    static method ScanSlice(blocks: map<Pos, Block>, b: Box, x: int) returns (r: Option<Pos>)
      ensures r == FirstInSlice(blocks, b, x, b.minY)
    {
      var y := b.minY;
      while y <= b.maxY
        invariant b.minY <= y && (y <= b.maxY + 1 || y == b.minY)
        invariant FirstInSlice(blocks, b, x, b.minY) == FirstInSlice(blocks, b, x, y)
      {
        r := ScanColumn(blocks, x, y, b.minZ, b.maxZ);
        if r.Some? {
          return;
        }
        y := y + 1;
      }
      return None;
    }

    /** The outer scan loop over x: the first blocking cell of the box. */
    static method ScanBox(blocks: map<Pos, Block>, b: Box) returns (r: Option<Pos>)
      ensures r == FirstSolid(blocks, b)
    {
      var x := b.minX;
      while x <= b.maxX
        invariant b.minX <= x && (x <= b.maxX + 1 || x == b.minX)
        invariant FirstInBox(blocks, b, b.minX) == FirstInBox(blocks, b, x)
      {
        r := ScanSlice(blocks, b, x);
        if r.Some? {
          return;
        }
        x := x + 1;
      }
      return None;
    }

    /** handleCollisions(axis) (Mob.js:367-426), reading the world's block map. */
    method HandleCollisions(axis: Axis, blocks: map<Pos, Block>)
      modifies this
      ensures State() == Collide(old(State()), axis, blocks)
    {
      var hit := ScanBox(blocks, BoxAt(position));
      if hit.None? {
        if axis == Y && velocity.y < 0.0 {
          onGround := false;
        }
      } else if axis == Y {
        ResolveVertical(hit.value);
      } else {
        ResolveHorizontal(axis, blocks, hit.value);
      }
    }

    /** The vertical response (Mob.js:385-393). */
    method ResolveVertical(c: Pos)
      modifies this
      ensures State() == Vertical(old(State()), c)
    {
      if velocity.y < 0.0 {
        position := position.(y := c.1 as real + 1.001);
        velocity := velocity.(y := 0.0);
        onGround := true;
      } else if velocity.y > 0.0 {
        position := position.(y := c.1 as real - Height - Gap);
        velocity := velocity.(y := 0.0);
      }
    }

    /** The horizontal response (Mob.js:394-421): step up, or push out against the velocity. */
    method ResolveHorizontal(axis: Axis, blocks: map<Pos, Block>, c: Pos)
      requires axis != Y
      modifies this
      ensures State() == Horizontal(old(State()), axis, blocks, c)
    {
      if onGround && c.1 == position.y.Floor {
        var above := TypeAt(blocks, (c.0, c.1 + 1, c.2));
        var twoAbove := TypeAt(blocks, (c.0, c.1 + 2, c.2));
        if (above.None? || above.value == Water || above.value == Other(""))
          && (twoAbove.None? || twoAbove.value == Water || twoAbove.value == Other(""))
        {
          position := position.(y := position.y + StepUp);
          return;
        }
      }
      if axis == X {
        if velocity.x > 0.0 {
          position := position.(x := c.0 as real - Width / 2.0 - Gap);
        } else {
          position := position.(x := c.0 as real + 1.0 + Width / 2.0 + Gap);
        }
      } else {
        if velocity.z > 0.0 {
          position := position.(z := c.2 as real - Width / 2.0 - Gap);
        } else {
          position := position.(z := c.2 as real + 1.0 + Width / 2.0 + Gap);
        }
      }
    }

    /** Gravity and water drag (Mob.js:208-277). */
    method ApplyPhysics(inWater: bool, delta: real, d: Draws)
      modifies this
      ensures State() == Physics(old(State()), kind, inWater, delta, d)
    {
      velocity := velocity.(y := velocity.y - Gravity * delta);
      if kind == "ulrich" {
        if inWater {
          velocity := velocity.(y := velocity.y * 0.9);
          if Abs(velocity.y) < 0.1 {
            velocity := velocity.(y := 0.0);
          }
          velocity := velocity.(x := velocity.x * 0.8, z := velocity.z * 0.8);
        } else {
          velocity := velocity.(y := velocity.y - Gravity * delta);
          velocity := velocity.(x := velocity.x * 0.5, z := velocity.z * 0.5);
          if onGround && d.searchDue {
            velocity := d.flop;
            onGround := false;
          }
        }
      } else {
        if inWater {
          velocity := velocity.(y := 5.0);
          velocity := velocity.(x := velocity.x * 0.8, z := velocity.z * 0.8);
        } else {
          velocity := velocity.(y := velocity.y - Gravity * delta);
        }
      }
    }

    /** The bait test of update (Mob.js:282-287). */
    static method IsAttracted(kind: string, bait: string) returns (attracted: bool)
      ensures attracted == Attracted(kind, bait)
    {
      attracted := false;
      if bait != "" {
        if kind == "ceca" && bait == "cecabait" { attracted := true; }
        if kind == "bohy" && bait == "bohybait" { attracted := true; }
        if kind == "kohoutek" && bait == "kohoutekbait" { attracted := true; }
        if kind == "ulrich" && bait == "ulrichbait" { attracted := true; }
      }
    }

    /** The move an attracted mob makes (Mob.js:289-302). */
    method Approach(playerPos: Vec3, d: Draws) returns (move: Vec3)
      ensures move == (if InBand(kind, SqDist3(position, playerPos)) then d.toPlayer else Zero)
    {
      move := Zero;
      var dist2 := SqDist3(position, playerPos);
      var stopDist := 2.5;
      if kind == "kohoutek" {
        stopDist := 3.5;
      }
      if dist2 < Reach * Reach && dist2 > stopDist * stopDist {
        move := d.toPlayer;
      }
    }

    /** The wander coin flips and the move they give (Mob.js:303-316). */
    method WanderMove(d: Draws) returns (move: Vec3)
      modifies this
      ensures (State(), move) == Wander(old(State()), d)
    {
      move := Zero;
      if d.startWander {
        wanderDir := d.newDir;
        isWandering := true;
      }
      if d.stopWander {
        isWandering := false;
      }
      if isWandering {
        move := Vec3(wanderDir.x, 0.0, wanderDir.z);
      }
    }

    /** The ulrich look-ahead (Mob.js:318-327). */
    method StayInWater(inWater: bool, attracted: bool, move: Vec3, blocks: map<Pos, Block>) returns (move': Vec3)
      modifies this
      ensures (State(), move') == KeepInWater((old(State()), move), kind, inWater, attracted, blocks)
    {
      move' := move;
      if kind == "ulrich" && inWater && !attracted {
        var next := TypeAt(blocks, LookAhead(position, move));
        if next != Some(Water) {
          move' := Zero;
          isWandering := false;
        }
      }
    }

    /** The movement intent (Mob.js:279-327): returns the move direction and updates the wander state. */
    method ChooseMove(inWater: bool, bait: string, playerPos: Vec3, d: Draws, blocks: map<Pos, Block>) returns (move: Vec3)
      modifies this
      ensures (State(), move) == Intent(old(State()), kind, inWater, bait, playerPos, d, blocks)
    {
      ghost var s0 := State();
      var attracted := IsAttracted(kind, bait);
      if attracted {
        move := Approach(playerPos, d);
      } else {
        move := WanderMove(d);
      }
      assert (State(), move) == Chosen(s0, kind, bait, playerPos, d);
      move := StayInWater(inWater, attracted, move, blocks);
    }

    /** update(delta, playerPos, bait) (Mob.js:205-365) without rotation and animation. */
    method Update(delta: real, playerPos: Vec3, bait: string, d: Draws, blocks: map<Pos, Block>)
      modifies this
      ensures State() == Step(old(State()), kind, delta, playerPos, bait, d, blocks)
    {
      if isDead {
        return;
      }
      ghost var s0 := State();
      var head := TypeAt(blocks, (position.x.Floor, (position.y + 0.5).Floor, position.z.Floor));
      var inWater := head == Some(Water);
      assert inWater == IsWater(blocks, HeadCell(s0.position));
      ApplyPhysics(inWater, delta, d);
      ghost var s1 := State();
      var move := ChooseMove(inWater, bait, playerPos, d, blocks);
      ghost var intent := Intent(s1, kind, inWater, bait, playerPos, d, blocks);
      velocity := velocity.(x := move.x * Speed, z := move.z * Speed);
      ghost var s2 := State();
      assert s2 == Steered(intent.0, intent.1);
      MoveAlong(X, delta, blocks);
      MoveAlong(Z, delta, blocks);
      MoveAlong(Y, delta, blocks);
      assert State() == Integrate(s2, delta, blocks);
    }

    /** this.position[axis] += this.velocity[axis] * delta, then handleCollisions(axis) (Mob.js:336-341). */
    method MoveAlong(axis: Axis, delta: real, blocks: map<Pos, Block>)
      modifies this
      ensures State() == Advance(old(State()), axis, delta, blocks)
    {
      ghost var s0 := State();
      if axis == X {
        position := position.(x := position.x + velocity.x * delta);
      } else if axis == Y {
        position := position.(y := position.y + velocity.y * delta);
      } else {
        position := position.(z := position.z + velocity.z * delta);
      }
      assert State() == s0.(position := Moved(s0, axis, delta));
      HandleCollisions(axis, blocks);
    }
  }
}
