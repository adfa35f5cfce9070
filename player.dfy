/**
 * The first-person player of Player.js: the key flags, the jump, the
 * collision predicate against the world's block map, and the frame update
 * with its per-axis revert, the landing rule and the void reset.
 * PointerLockControls is outside the model: its lock state and its moveRight
 * and moveForward are inputs to the update, and so is the normalised move
 * direction.
 */
module PlayerLogic {
  import opened Common
  import opened Voxels

  /** The player's half width and eye height used by checkCollision (Player.js:136-137). */
  const Radius: real := 0.3
  const EyeHeight: real := 1.6
  const JumpForce: real := 10.0
  const Damping: real := 10.0
  const Gravity: real := 30.0
  const Thrust: real := 80.0
  /** Below this height the player is returned to the spawn point. */
  const VoidLevel: real := -20.0
  const Spawn: Vec3 := Vec3(0.0, 20.0, 0.0)

  datatype Input = Input(forward: bool, backward: bool, left: bool, right: bool, jump: bool, sprint: bool)

  const Released: Input := Input(false, false, false, false, false, false)

  /** The five flags a key can hold down. */
  datatype Flag = Forward | Backward | Left | Right | Sprint

  /** The key table shared by keydown and keyup (Player.js:39-61). */
  function FlagOf(code: string): Option<Flag> {
    if code == "ArrowUp" || code == "KeyW" then Some(Forward)
    else if code == "ArrowLeft" || code == "KeyA" then Some(Left)
    else if code == "ArrowDown" || code == "KeyS" then Some(Backward)
    else if code == "ArrowRight" || code == "KeyD" then Some(Right)
    else if code == "ShiftLeft" || code == "ShiftRight" then Some(Sprint)
    else None
  }

  function Get(i: Input, f: Flag): bool {
    match f
    case Forward => i.forward
    case Backward => i.backward
    case Left => i.left
    case Right => i.right
    case Sprint => i.sprint
  }

  function With(i: Input, f: Flag, v: bool): Input {
    match f
    case Forward => i.(forward := v)
    case Backward => i.(backward := v)
    case Left => i.(left := v)
    case Right => i.(right := v)
    case Sprint => i.(sprint := v)
  }

  datatype PlayerState = PlayerState(position: Vec3, velocity: Vec3, input: Input, canJump: bool)

  /** The jump: only from the ground, and at most once until the next landing. */
  function Jump(s: PlayerState): PlayerState {
    if s.canJump then s.(velocity := s.velocity.(y := s.velocity.y + JumpForce), canJump := false) else s
  }

  function KeyDown(s: PlayerState, code: string): PlayerState {
    match FlagOf(code)
    case Some(f) => s.(input := With(s.input, f, true))
    case None => if code == "Space" then Jump(s) else s
  }

  function KeyUp(s: PlayerState, code: string): PlayerState {
    match FlagOf(code)
    case Some(f) => s.(input := With(s.input, f, false))
    case None => s
  }

  // ---------------------------------------------------------------------------
  // Collision (Player.js:132-158)

  /** The cells checkCollision looks at for a camera at p. */
  function PlayerBox(p: Vec3): Box {
    Box((p.x - Radius).Floor, (p.x + Radius).Floor, (p.y - EyeHeight).Floor, p.y.Floor,
        (p.z - Radius).Floor, (p.z + Radius).Floor)
  }

  /** Some cell of the box holds a block of any type, water included. */
  predicate Occupied(blocks: map<Pos, Block>, b: Box) {
    exists q: Pos :: InBox(b, q) && q in blocks
  }

  /**
   * The cell q is near a camera at p: p lies within 0.3 of the cell's column
   * horizontally, and between the cell's floor and 1.6 above its top.
   */
  predicate Touches(p: Vec3, q: Pos) {
    && q.0 as real - Radius <= p.x < q.0 as real + 1.0 + Radius
    && q.1 as real <= p.y < q.1 as real + 1.0 + EyeHeight
    && q.2 as real - Radius <= p.z < q.2 as real + 1.0 + Radius
  }

  /** A camera at p collides when a block of any type, water included, is near it. */
  predicate Collides(blocks: map<Pos, Block>, p: Vec3) {
    exists q: Pos :: q in blocks && Touches(p, q)
  }

  /** The cells near p are exactly the cells of the box checkCollision scans. */
  lemma TouchesIsInBox(p: Vec3, q: Pos)
    ensures Touches(p, q) <==> InBox(PlayerBox(p), q)
  {
  }

  /** checkCollision's scan of the box decides Collides. */
  lemma ScanDecidesCollision(blocks: map<Pos, Block>, p: Vec3)
    ensures Occupied(blocks, PlayerBox(p)) <==> Collides(blocks, p)
  {
    forall q: Pos
      ensures Touches(p, q) <==> InBox(PlayerBox(p), q)
    {
      TouchesIsInBox(p, q);
    }
  }

  // ---------------------------------------------------------------------------
  // The frame update (Player.js:64-128)

  /** The distance covered in delta seconds at speed v. */
  function Travel(v: real, delta: real): real {
    v * delta
  }

  /** The thrust factor speed / 6 of a walking (6) or sprinting (12) player. */
  function Boost(speed: real): real {
    speed / 6.0
  }

  /** moveRight or moveForward of PointerLockControls: the camera position after moving it by a distance. */
  type Mover = (Vec3, real) -> Vec3

  /** A move that a move by the opposite distance undoes. */
  ghost predicate Reversible(move: Mover) {
    forall p: Vec3, d: real, e: real :: e == -d ==> move(move(p, d), e) == p
  }

  /** p moved by d along the axis a, which is how the controls move along the camera's axes. */
  function Shift(p: Vec3, a: Vec3, d: real): Vec3 {
    Vec3(p.x + a.x * d, p.y + a.y * d, p.z + a.z * d)
  }

  /** Damping, gravity and the thrust of the held keys (Player.js:68-82); dir is the normalised direction. */
  function Accelerate(s: PlayerState, delta: real, dir: Vec3): PlayerState {
    var v := s.velocity;
    var vx := v.x - Travel(v.x * Damping, delta);
    var vz := v.z - Travel(v.z * Damping, delta);
    var speed := if s.input.sprint then 12.0 else 6.0;
    var vz' := if s.input.forward || s.input.backward then vz - Travel(dir.z * Thrust * Boost(speed), delta) else vz;
    var vx' := if s.input.left || s.input.right then vx - Travel(dir.x * Thrust * Boost(speed), delta) else vx;
    s.(velocity := Vec3(vx', v.y - Gravity * delta, vz'))
  }

  /** The sideways move, undone when it runs into a block (Player.js:85-90). */
  function SlideRight(s: PlayerState, delta: real, right: Mover, blocks: map<Pos, Block>): PlayerState {
    var p := right(s.position, -Travel(s.velocity.x, delta));
    if Collides(blocks, p) then s.(position := right(p, Travel(s.velocity.x, delta)), velocity := s.velocity.(x := 0.0))
    else s.(position := p)
  }

  /** The forward move, undone when it runs into a block (Player.js:92-97). */
  function SlideForward(s: PlayerState, delta: real, forward: Mover, blocks: map<Pos, Block>): PlayerState {
    var p := forward(s.position, -Travel(s.velocity.z, delta));
    if Collides(blocks, p) then s.(position := forward(p, Travel(s.velocity.z, delta)), velocity := s.velocity.(z := 0.0))
    else s.(position := p)
  }

  /** The vertical move (Player.js:100-116): a hit undoes it and stops the fall; landing allows the next jump. */
  function Fall(s: PlayerState, delta: real, blocks: map<Pos, Block>): PlayerState {
    var p := s.position.(y := s.position.y + Travel(s.velocity.y, delta));
    if Collides(blocks, p) then
      s.(position := p.(y := p.y - Travel(s.velocity.y, delta)), velocity := s.velocity.(y := 0.0),
         canJump := if s.velocity.y < 0.0 then true else s.canJump)
    else s.(position := p)
  }

  /** The void check (Player.js:119-122). */
  function Rescue(s: PlayerState): PlayerState {
    if s.position.y < VoidLevel then s.(position := Spawn, velocity := Zero) else s
  }

  /** update(delta) without the field-of-view animation. */
  function Step(s: PlayerState, locked: bool, delta: real, dir: Vec3, right: Mover, forward: Mover, blocks: map<Pos, Block>)
    : PlayerState
  {
    if !locked then s
    else Rescue(Fall(SlideForward(SlideRight(Accelerate(s, delta, dir), delta, right, blocks), delta, forward, blocks), delta, blocks))
  }

  // ---------------------------------------------------------------------------
  // Properties

  /** A key of the table sets its own flag on keydown and clears it on keyup, and changes nothing else (Player.js:38-62). */
  lemma KeySetsOwnFlag(s: PlayerState, code: string, f: Flag)
    requires FlagOf(code) == Some(f)
    ensures Get(KeyDown(s, code).input, f) && !Get(KeyUp(s, code).input, f)
    ensures forall g :: g != f ==> Get(KeyDown(s, code).input, g) == Get(s.input, g) && Get(KeyUp(s, code).input, g) == Get(s.input, g)
    ensures KeyDown(s, code).(input := s.input) == s && KeyUp(s, code).(input := s.input) == s
  {
    forall g | g != f
      ensures Get(KeyDown(s, code).input, g) == Get(s.input, g) && Get(KeyUp(s, code).input, g) == Get(s.input, g)
    {
      match f
      case Forward =>
      case Backward =>
      case Left =>
      case Right =>
      case Sprint =>
    }
  }

  /** Keys outside the table, other than Space, change nothing; Space changes nothing on keyup. */
  lemma OtherKeysInert(s: PlayerState, code: string)
    requires FlagOf(code).None?
    ensures code != "Space" ==> KeyDown(s, code) == s
    ensures KeyUp(s, code) == s
  {
  }

  /** Space adds 10 to the vertical velocity and spends the jump only when a jump is allowed (Player.js:44-49). */
  lemma SpaceJumps(s: PlayerState)
    ensures s.canJump ==> KeyDown(s, "Space") == s.(velocity := s.velocity.(y := s.velocity.y + 10.0), canJump := false)
    ensures !s.canJump ==> KeyDown(s, "Space") == s
  {
  }

  /** Releasing a key cancels pressing it. */
  lemma KeyUpCancelsKeyDown(s: PlayerState, code: string)
    requires code != "Space"
    ensures KeyUp(KeyDown(s, code), code) == KeyUp(s, code)
  {
    match FlagOf(code)
    case Some(f) =>
      WithTwice(s.input, f, true, false);
    case None =>
  }

  /** Setting a flag twice keeps only the second value. */
  lemma WithTwice(i: Input, f: Flag, a: bool, b: bool)
    ensures With(With(i, f, a), f, b) == With(i, f, b)
  {
  }

  /** update changes nothing while the pointer is not locked (Player.js:65). */
  lemma UnlockedIsInert(s: PlayerState, delta: real, dir: Vec3, right: Mover, forward: Mover, blocks: map<Pos, Block>)
    ensures Step(s, false, delta, dir, right, forward, blocks) == s
  {
  }

  /** Moving along a fixed axis, as the controls do, is undone by the opposite move. */
  lemma AxisMoveIsReversible(a: Vec3)
    ensures Reversible((p: Vec3, d: real) => Shift(p, a, d))
  {
    forall p: Vec3, d: real, e: real | e == -d
      ensures Shift(Shift(p, a, d), a, e) == p
    {
      assert a.x * e == -(a.x * d);
      assert a.y * e == -(a.y * d);
      assert a.z * e == -(a.z * d);
    }
  }

  /** A sideways move into a block is undone exactly and stops the sideways velocity; otherwise it is kept. */
  lemma SideHitReverts(s: PlayerState, delta: real, right: Mover, blocks: map<Pos, Block>)
    requires Reversible(right)
    ensures var p := right(s.position, -Travel(s.velocity.x, delta));
      var r := SlideRight(s, delta, right, blocks);
      (Collides(blocks, p) ==> r.position == s.position && r.velocity == s.velocity.(x := 0.0)) &&
      (!Collides(blocks, p) ==> r.position == p && r.velocity == s.velocity)
  {
    var d := -Travel(s.velocity.x, delta);
    assert right(right(s.position, d), Travel(s.velocity.x, delta)) == s.position;
  }

  /** A forward move into a block is undone exactly and stops the forward velocity; otherwise it is kept. */
  lemma ForwardHitReverts(s: PlayerState, delta: real, forward: Mover, blocks: map<Pos, Block>)
    requires Reversible(forward)
    ensures var p := forward(s.position, -Travel(s.velocity.z, delta));
      var r := SlideForward(s, delta, forward, blocks);
      (Collides(blocks, p) ==> r.position == s.position && r.velocity == s.velocity.(z := 0.0)) &&
      (!Collides(blocks, p) ==> r.position == p && r.velocity == s.velocity)
  {
    var d := -Travel(s.velocity.z, delta);
    assert forward(forward(s.position, d), Travel(s.velocity.z, delta)) == s.position;
  }

  /**
   * A vertical move into a block is undone and stops the vertical velocity;
   * it allows the next jump exactly when the player was falling (Player.js:103-116).
   */
  lemma VerticalHit(s: PlayerState, delta: real, blocks: map<Pos, Block>)
    requires Collides(blocks, s.position.(y := s.position.y + Travel(s.velocity.y, delta)))
    ensures Fall(s, delta, blocks).position == s.position
    ensures Fall(s, delta, blocks).velocity == s.velocity.(y := 0.0)
    ensures Fall(s, delta, blocks).canJump == (s.canJump || s.velocity.y < 0.0)
  {
  }

  /** A vertical move that hits nothing is kept and leaves the jump state alone. */
  lemma VerticalFree(s: PlayerState, delta: real, blocks: map<Pos, Block>)
    requires !Collides(blocks, s.position.(y := s.position.y + Travel(s.velocity.y, delta)))
    ensures Fall(s, delta, blocks) == s.(position := s.position.(y := s.position.y + Travel(s.velocity.y, delta)))
  {
  }

  /** After a locked update the camera is never below the void level; a player who fell below it is back at the spawn point at rest (Player.js:119-122). */
  lemma NeverInTheVoid(s: PlayerState, delta: real, dir: Vec3, right: Mover, forward: Mover, blocks: map<Pos, Block>)
    ensures Step(s, true, delta, dir, right, forward, blocks).position.y >= -20.0
    ensures var before := Fall(SlideForward(SlideRight(Accelerate(s, delta, dir), delta, right, blocks), delta, forward, blocks), delta, blocks);
      before.position.y < -20.0 ==>
        Step(s, true, delta, dir, right, forward, blocks).position == Vec3(0.0, 20.0, 0.0) &&
        Step(s, true, delta, dir, right, forward, blocks).velocity == Vec3(0.0, 0.0, 0.0)
  {
  }

  // ---------------------------------------------------------------------------
  // The player object

  class Player {
    /** camera.position */
    var position: Vec3
    var velocity: Vec3
    var input: Input
    var canJump: bool

    function State(): PlayerState
      reads this
    {
      PlayerState(position, velocity, input, canJump)
    }

    constructor(position: Vec3)
      ensures State() == PlayerState(position, Zero, Released, false)
    {
      this.position := position;
      velocity := Zero;
      input := Released;
      canJump := false;
    }

    /** The case labels of onKeyDown and onKeyUp (Player.js:39-61). */
    static method KeyFlag(code: string) returns (f: Option<Flag>)
      ensures f == FlagOf(code)
    {
      if code == "ArrowUp" || code == "KeyW" {
        f := Some(Forward);
      } else if code == "ArrowLeft" || code == "KeyA" {
        f := Some(Left);
      } else if code == "ArrowDown" || code == "KeyS" {
        f := Some(Backward);
      } else if code == "ArrowRight" || code == "KeyD" {
        f := Some(Right);
      } else if code == "ShiftLeft" || code == "ShiftRight" {
        f := Some(Sprint);
      } else {
        f := None;
      }
    }

    /** onKeyDown (Player.js:38-52). */
    method OnKeyDown(code: string)
      modifies this
      ensures State() == KeyDown(old(State()), code)
    {
      var f := KeyFlag(code);
      if f.Some? {
        input := With(input, f.value, true);
      } else if code == "Space" {
        if canJump {
          velocity := velocity.(y := velocity.y + JumpForce);
          canJump := false;
        }
      }
    }

    /** onKeyUp (Player.js:54-62). */
    method OnKeyUp(code: string)
      modifies this
      ensures State() == KeyUp(old(State()), code)
    {
      var f := KeyFlag(code);
      if f.Some? {
        input := With(input, f.value, false);
      }
    }

    /** checkCollision (Player.js:132-158): the triple loop with its early return. */
    method CheckCollision(blocks: map<Pos, Block>) returns (hit: bool)
      ensures hit == Collides(blocks, position)
    {
      var b := PlayerBox(position);
      var x := b.minX;
      while x <= b.maxX
        invariant b.minX <= x
        invariant forall q: Pos :: InBox(b, q) && q.0 < x ==> q !in blocks
      {
        var y := b.minY;
        while y <= b.maxY
          invariant b.minY <= y
          invariant forall q: Pos :: InBox(b, q) && q.0 < x ==> q !in blocks
          invariant forall q: Pos :: InBox(b, q) && q.0 == x && q.1 < y ==> q !in blocks
        {
          var z := b.minZ;
          while z <= b.maxZ
            invariant b.minZ <= z
            invariant forall q: Pos :: InBox(b, q) && q.0 < x ==> q !in blocks
            invariant forall q: Pos :: InBox(b, q) && q.0 == x && q.1 < y ==> q !in blocks
            invariant forall q: Pos :: InBox(b, q) && q.0 == x && q.1 == y && q.2 < z ==> q !in blocks
          {
            if (x, y, z) in blocks {
              assert InBox(b, (x, y, z));
              ScanDecidesCollision(blocks, position);
              return true;
            }
            z := z + 1;
          }
          y := y + 1;
        }
        x := x + 1;
      }
      ScanDecidesCollision(blocks, position);
      return false;
    }

    /** Damping, gravity and thrust (Player.js:68-82). */
    method ApplyForces(delta: real, dir: Vec3)
      modifies this
      ensures State() == Accelerate(old(State()), delta, dir)
    {
      velocity := velocity.(x := velocity.x - Travel(velocity.x * Damping, delta));
      velocity := velocity.(z := velocity.z - Travel(velocity.z * Damping, delta));
      velocity := velocity.(y := velocity.y - Gravity * delta);
      var speed := if input.sprint then 12.0 else 6.0;
      if input.forward || input.backward {
        velocity := velocity.(z := velocity.z - Travel(dir.z * Thrust * Boost(speed), delta));
      }
      if input.left || input.right {
        velocity := velocity.(x := velocity.x - Travel(dir.x * Thrust * Boost(speed), delta));
      }
    }

    /** moveRight and its revert (Player.js:85-90). */
    method MoveRight(delta: real, right: Mover, blocks: map<Pos, Block>)
      modifies this
      ensures State() == SlideRight(old(State()), delta, right, blocks)
    {
      position := right(position, -Travel(velocity.x, delta));
      var hit := CheckCollision(blocks);
      if hit {
        position := right(position, Travel(velocity.x, delta));
        velocity := velocity.(x := 0.0);
      }
    }

    /** moveForward and its revert (Player.js:92-97). */
    method MoveForward(delta: real, forward: Mover, blocks: map<Pos, Block>)
      modifies this
      ensures State() == SlideForward(old(State()), delta, forward, blocks)
    {
      position := forward(position, -Travel(velocity.z, delta));
      var hit := CheckCollision(blocks);
      if hit {
        position := forward(position, Travel(velocity.z, delta));
        velocity := velocity.(z := 0.0);
      }
    }

    /** The vertical move and the ground collision (Player.js:100-116). */
    method MoveUp(delta: real, blocks: map<Pos, Block>)
      modifies this
      ensures State() == Fall(old(State()), delta, blocks)
    {
      position := position.(y := position.y + Travel(velocity.y, delta));
      var hit := CheckCollision(blocks);
      if hit {
        if velocity.y < 0.0 {
          position := position.(y := position.y - Travel(velocity.y, delta));
          velocity := velocity.(y := 0.0);
          canJump := true;
        } else {
          position := position.(y := position.y - Travel(velocity.y, delta));
          velocity := velocity.(y := 0.0);
        }
      }
    }

    /** update(delta) (Player.js:64-128) without the field-of-view animation. */
    method Update(locked: bool, delta: real, dir: Vec3, right: Mover, forward: Mover, blocks: map<Pos, Block>)
      modifies this
      ensures State() == Step(old(State()), locked, delta, dir, right, forward, blocks)
    {
      if !locked {
        return;
      }
      ApplyForces(delta, dir);
      MoveRight(delta, right, blocks);
      MoveForward(delta, forward, blocks);
      MoveUp(delta, blocks);
      if position.y < VoidLevel {
        position := Spawn;
        velocity := Zero;
      }
    }
  }
}
