/**
 * The bookkeeping of main.js: the hotbar slot and its key and wheel
 * handlers, the placement type and the safety check of a right click, the
 * table of remote players kept from network messages, the dispatch of block
 * messages to the world, and the frame clock with its broadcast throttle.
 * The renderer, the raycaster and the peer-to-peer room are outside the
 * model: a raycast arrives as its list of hits, a network message as a value,
 * and the clock reading as a parameter.
 */
module Client {
  import opened Common
  import opened Voxels
  import opened WorldObject
  import opened PlayerLogic

  // ---------------------------------------------------------------------------
  // Hotbar (main.js:35-59)

  /** The number of hotbar slots. */
  const SlotCount: int := 9

  /** The block type of each hotbar slot (main.js:59). */
  const Types: seq<string> := ["grass", "stone", "dirt", "wood", "leaves", "stone", "grass", "dirt", "wood"]

  /** JavaScript's a < b on strings: lexicographic order on the characters, a proper prefix first. */
  predicate JsLess(a: string, b: string)
    decreases |a|
  {
    if |b| == 0 then false
    else if |a| == 0 then true
    else if a[0] != b[0] then a[0] < b[0]
    else JsLess(a[1..], b[1..])
  }

  /** The test e.key >= '1' && e.key <= '9' of the hotbar key handler. */
  predicate IsSlotKey(key: string) {
    !JsLess(key, "1") && !JsLess("9", key)
  }

  predicate IsDigit(c: char) {
    '0' <= c <= '9'
  }

  /** The number of leading decimal digits of s. */
  function DigitRun(s: string): (n: nat)
    ensures n <= |s|
    ensures forall i :: 0 <= i < n ==> IsDigit(s[i])
    ensures n < |s| ==> !IsDigit(s[n])
  {
    if |s| == 0 || !IsDigit(s[0]) then 0 else 1 + DigitRun(s[1..])
  }

  /** The value of a string of decimal digits. */
  function Decimal(d: string): nat
    requires forall i :: 0 <= i < |d| ==> IsDigit(d[i])
  {
    if |d| == 0 then 0 else 10 * Decimal(d[..|d| - 1]) + DigitValue(d[|d| - 1])
  }

  function DigitValue(c: char): nat
    requires IsDigit(c)
  {
    (c as int) - ('0' as int)
  }

  /**
   * parseInt on a string that starts with a digit: the value of its leading
   * run of digits (whitespace and sign handling never arise here).
   */
  function ParseInt(s: string): (v: nat)
    requires |s| > 0 && IsDigit(s[0])
  {
    Decimal(s[..DigitRun(s)])
  }

  /** The slot after a keydown with this key (main.js:39-44). */
  function KeySlot(slot: int, key: string): int {
    if IsSlotKey(key) then
      SlotKeyStartsWithDigit(key);
      ParseInt(key) - 1
    else slot
  }

  /** The slot after a wheel turn: one step down the bar, or one step back, wrapping around (main.js:46-50). */
  function WheelSlot(slot: int, deltaY: real): int {
    if deltaY > 0.0 then JsRem(slot + 1, SlotCount) else JsRem(slot - 1 + SlotCount, SlotCount)
  }

  /** types[selectedSlot] || 'stone': a missing or empty entry falls back to stone (main.js:104). */
  function PlaceType(slot: int): string {
    if 0 <= slot < |Types| && Types[slot] != "" then Types[slot] else "stone"
  }

  /** The key test passes exactly for a key whose first character is 1..9 and that is not "9" followed by more. */
  lemma SlotKeyShape(key: string)
    ensures IsSlotKey(key) <==> |key| > 0 && '1' <= key[0] <= '9' && (key[0] == '9' ==> |key| == 1)
  {
    BelowOne(key);
    AboveNine(key);
  }

  lemma BelowOne(key: string)
    ensures JsLess(key, "1") <==> |key| == 0 || key[0] < '1'
  {
    if |key| > 0 && key[0] == '1' {
      assert "1"[1..] == "";
    }
  }

  lemma AboveNine(key: string)
    ensures JsLess("9", key) <==> |key| > 0 && ('9' < key[0] || (key[0] == '9' && |key| > 1))
  {
    if |key| > 0 && key[0] == '9' {
      assert "9"[1..] == "";
    }
  }

  lemma SlotKeyStartsWithDigit(key: string)
    requires IsSlotKey(key)
    ensures |key| > 0 && '1' <= key[0] <= '9'
  {
    SlotKeyShape(key);
  }

  /** A single-character digit key 1..9 selects the slot one below the digit; every other single character keeps the slot. */
  lemma DigitKeySelectsSlot(slot: int, c: char)
    ensures '1' <= c <= '9' ==> KeySlot(slot, [c]) == (c as int) - ('1' as int)
    ensures !('1' <= c <= '9') ==> KeySlot(slot, [c]) == slot
  {
    SlotKeyShape([c]);
    if '1' <= c <= '9' {
      assert DigitRun([c]) == 1 by {
        assert [c][1..] == [];
      }
      assert [c][..1] == [c];
      assert [c][..0] == [];
      assert Decimal([c]) == DigitValue(c);
    }
  }

  /** Whatever key selected it, the slot is never negative. */
  lemma KeySlotNonNegative(slot: int, key: string)
    requires 0 <= slot
    ensures 0 <= KeySlot(slot, key)
  {
    if IsSlotKey(key) {
      SlotKeyStartsWithDigit(key);
      var n := DigitRun(key);
      DecimalOfLeadingDigit(key[..n]);
    }
  }

  lemma DecimalOfLeadingDigit(d: string)
    requires |d| > 0 && '1' <= d[0] <= '9'
    requires forall i :: 0 <= i < |d| ==> IsDigit(d[i])
    ensures Decimal(d) >= 1
    decreases |d|
  {
    if |d| > 1 {
      DecimalOfLeadingDigit(d[..|d| - 1]);
    }
  }

  /** From any slot that is not negative, the wheel lands on one of the nine slots. */
  lemma WheelStaysOnBar(slot: int, deltaY: real)
    requires 0 <= slot
    ensures 0 <= WheelSlot(slot, deltaY) < SlotCount
  {
  }

  /** A turn one way and a turn the other way return to the slot. */
  lemma WheelRoundTrip(slot: int)
    requires 0 <= slot < SlotCount
    ensures WheelSlot(WheelSlot(slot, 1.0), -1.0) == slot
    ensures WheelSlot(WheelSlot(slot, -1.0), 1.0) == slot
  {
  }

  /** Every slot of the bar names its own type; the stone fallback is only reached off the bar. */
  lemma PlaceTypeOnBar(slot: int)
    ensures 0 <= slot < SlotCount ==> PlaceType(slot) == Types[slot]
    ensures !(0 <= slot < SlotCount) ==> PlaceType(slot) == "stone"
    ensures !KindOf(PlaceType(slot)).Other?
  {
  }

  // ---------------------------------------------------------------------------
  // Placement (main.js:91-111)

  /** The target is too close to the player to place a block there (main.js:96-101). */
  predicate TooClose(target: Vec3, eye: Vec3) {
    Abs(target.x - eye.x) < 0.8 && Abs(target.y - eye.y) < 1.8 && Abs(target.z - eye.z) < 0.8
  }

  /** The cell a point lies in. */
  function CellOf(v: Vec3): Pos {
    (v.x.Floor, v.y.Floor, v.z.Floor)
  }

  /**
   * One raycast intersection: its distance, the centre of the block that was hit,
   * and the normal of the face hit.
   */
  datatype Hit = Hit(distance: real, centre: Vec3, normal: Vec3)

  /** The point next to the hit face: the block's position plus the face normal. */
  function Beside(h: Hit): Vec3 {
    Vec3(h.centre.x + h.normal.x, h.centre.y + h.normal.y, h.centre.z + h.normal.z)
  }

  /** The right click: on the nearest hit within reach 6, the type of the slot goes into the cell beside it unless that is too close to the eye. */
  function RightClick(s: Store, locked: bool, hits: seq<Hit>, eye: Vec3, slot: int): Store {
    if !locked || |hits| == 0 || hits[0].distance >= 6.0 then s
    else if TooClose(Beside(hits[0]), eye) then s
    else Place(s, CellOf(Beside(hits[0])), KindOf(PlaceType(slot)))
  }

  /**
   * A right click changes the world only in the cell beside the first hit:
   * never while unlocked, out of reach or too close, and otherwise exactly as
   * placing the slot's type there.
   */
  lemma RightClickPlacesBeside(s: Store, locked: bool, hits: seq<Hit>, eye: Vec3, slot: int)
    ensures |hits| > 0 ==> var r := RightClick(s, locked, hits, eye, slot);
      forall q :: q != CellOf(Beside(hits[0])) ==> (q in r.blocks <==> q in s.blocks) && (q in s.blocks ==> r.blocks[q] == s.blocks[q])
    ensures !locked || |hits| == 0 || hits[0].distance >= 6.0 ==> RightClick(s, locked, hits, eye, slot) == s
    ensures locked && |hits| > 0 && hits[0].distance < 6.0 && TooClose(Beside(hits[0]), eye) ==> RightClick(s, locked, hits, eye, slot) == s
  {
  }

  /** A unit normal of one of the six faces of a block. */
  predicate FaceNormal(n: Vec3) {
    n in {Vec3(1.0, 0.0, 0.0), Vec3(-1.0, 0.0, 0.0), Vec3(0.0, 1.0, 0.0),
          Vec3(0.0, -1.0, 0.0), Vec3(0.0, 0.0, 1.0), Vec3(0.0, 0.0, -1.0)}
  }

  /** The centre of the cell c. */
  function Centre(c: Pos): Vec3 {
    Vec3(c.0 as real + 0.5, c.1 as real + 0.5, c.2 as real + 0.5)
  }

  /** The cell next to c across the face with normal n. */
  function Across(c: Pos, n: Vec3): Pos {
    (c.0 + n.x.Floor, c.1 + n.y.Floor, c.2 + n.z.Floor)
  }

  /** Rounding down a cell's centre moved by a whole step gives the cell moved by that step. */
  lemma FloorOfShiftedCentre(k: int, d: real)
    requires d == 1.0 || d == 0.0 || d == -1.0
    ensures (k as real + 0.5 + d).Floor == k + d.Floor
  {
    if d == 1.0 {
      assert k as real + 0.5 + d == (k + 1) as real + 0.5;
    } else if d == -1.0 {
      assert k as real + 0.5 + d == (k - 1) as real + 0.5;
    }
  }

  /** With the hit block's centre, the cell beside a hit is the block's neighbour across the face that was hit. */
  lemma BesideIsNeighbour(c: Pos, distance: real, n: Vec3)
    requires FaceNormal(n)
    ensures CellOf(Beside(Hit(distance, Centre(c), n))) == Across(c, n)
    ensures Across(c, n) != c
  {
    FloorOfShiftedCentre(c.0, n.x);
    FloorOfShiftedCentre(c.1, n.y);
    FloorOfShiftedCentre(c.2, n.z);
  }

  /**
   * The point main.js:94 computes: the position of the hit object plus the
   * face normal. The hit object is the instanced mesh, which stays at the
   * origin, so the point is the normal itself whatever block was hit.
   */
  function BesideAsWritten(h: Hit): Vec3 {
    Vec3(Zero.x + h.normal.x, Zero.y + h.normal.y, Zero.z + h.normal.z)
  }

  /** The right click as main.js:91-110 writes it. */
  function RightClickAsWritten(s: Store, locked: bool, hits: seq<Hit>, eye: Vec3, slot: int): Store {
    if !locked || |hits| == 0 || hits[0].distance >= 6.0 then s
    else if TooClose(BesideAsWritten(hits[0]), eye) then s
    else Place(s, CellOf(BesideAsWritten(hits[0])), KindOf(PlaceType(slot)))
  }

  /**
   * A click on the top face of the block at (10, 0, 10) in an empty world, as written, puts grass
   * at (0, 1, 0), next to the origin. The intended rule puts it on top of the block, at (10, 1, 10).
   */
  lemma RightClickMissesHitBlock()
    ensures var h := Hit(3.0, Centre((10, 0, 10)), Vec3(0.0, 1.0, 0.0));
      var eye := Vec3(10.5, 5.0, 10.5);
      && (0, 1, 0) in RightClickAsWritten(Empty(), true, [h], eye, 0).blocks
      && (10, 1, 10) !in RightClickAsWritten(Empty(), true, [h], eye, 0).blocks
      && (10, 1, 10) in RightClick(Empty(), true, [h], eye, 0).blocks
      && (0, 1, 0) !in RightClick(Empty(), true, [h], eye, 0).blocks
  {
    var h := Hit(3.0, Centre((10, 0, 10)), Vec3(0.0, 1.0, 0.0));
    var eye := Vec3(10.5, 5.0, 10.5);
    assert CellOf(BesideAsWritten(h)) == (0, 1, 0);
    BesideIsNeighbour((10, 0, 10), 3.0, Vec3(0.0, 1.0, 0.0));
    assert KindOf(PlaceType(0)) == Grass;
    assert !TooClose(BesideAsWritten(h), eye);
    assert !TooClose(Beside(h), eye);
    assert Grass in Empty().counts && Empty().counts[Grass] == 0;
    PlaceSolidIntoEmpty(Empty(), (0, 1, 0), Grass);
    PlaceSolidIntoEmpty(Empty(), (10, 1, 10), Grass);
  }

  // ---------------------------------------------------------------------------
  // Remote players (main.js:136-217)

  /** A remote player's mesh pose: position and yaw. */
  datatype Pose = Pose(position: Vec3, yaw: real)

  /** The pose of a freshly added remote player's mesh. */
  const Origin: Pose := Pose(Zero, 0.0)

  /** addRemotePlayer: a new mesh at the origin for an unknown id (main.js:193-210). */
  function AddPeer(m: map<string, Pose>, id: string): (r: map<string, Pose>)
    ensures id in r
    ensures id in m ==> r == m
    ensures id !in m ==> r == m[id := Origin]
  {
    if id in m then m else m[id := Origin]
  }

  /** removeRemotePlayer: drop the entry of a known id (main.js:212-217). */
  function RemovePeer(m: map<string, Pose>, id: string): (r: map<string, Pose>)
    ensures id !in r
    ensures forall k :: k != id ==> (k in r <==> k in m) && (k in r ==> r[k] == m[k])
  {
    if id in m then m - {id} else m
  }

  /** A move message: add the sender if unseen, then set its pose (main.js:172-181). */
  function MovePeer(m: map<string, Pose>, id: string, p: Pose): (r: map<string, Pose>)
    ensures id in r && r[id] == p
    ensures forall k :: k != id ==> (k in r <==> k in m) && (k in r ==> r[k] == m[k])
  {
    AddPeer(m, id)[id := p]
  }

  /** The number the status line shows: the remote players and this one. */
  function PlayerCount(m: map<string, Pose>): nat {
    |m| + 1
  }

  /** Adding a known id changes nothing; a second add is the first add. */
  lemma AddIdempotent(m: map<string, Pose>, id: string)
    ensures AddPeer(AddPeer(m, id), id) == AddPeer(m, id)
    ensures id in m ==> AddPeer(m, id) == m
  {
  }

  /** Removing an unknown id changes nothing; a second remove is the first remove. */
  lemma RemoveIdempotent(m: map<string, Pose>, id: string)
    ensures RemovePeer(RemovePeer(m, id), id) == RemovePeer(m, id)
    ensures id !in m ==> RemovePeer(m, id) == m
  {
  }

  /** A peer that joins and leaves again leaves the table as it was. */
  lemma JoinLeaveRoundTrip(m: map<string, Pose>, id: string)
    requires id !in m
    ensures RemovePeer(AddPeer(m, id), id) == m
  {
    assert AddPeer(m, id) - {id} == m;
  }

  /** A join or a move raises the count by one exactly when the id is new. */
  lemma CountGrowsForNewPeers(m: map<string, Pose>, id: string, p: Pose)
    ensures PlayerCount(AddPeer(m, id)) == PlayerCount(m) + (if id in m then 0 else 1)
    ensures PlayerCount(MovePeer(m, id, p)) == PlayerCount(m) + (if id in m then 0 else 1)
  {
    assert MovePeer(m, id, p) == m[id := p];
  }

  /** A leave lowers the count by one exactly when the id was known. */
  lemma CountShrinksForKnownPeers(m: map<string, Pose>, id: string)
    ensures PlayerCount(RemovePeer(m, id)) == PlayerCount(m) - (if id in m then 1 else 0)
  {
    if id in m {
      assert RemovePeer(m, id).Keys == m.Keys - {id};
    }
  }

  // ---------------------------------------------------------------------------
  // Block messages (main.js:183-190)

  /** A block message of the room. */
  datatype BlockMessage = BlockMessage(action: string, x: int, y: int, z: int, blockType: string)

  /** The world after a block message: place, remove, or nothing for any other action. */
  function Dispatch(s: Store, msg: BlockMessage): Store {
    if msg.action == "place" then Place(s, (msg.x, msg.y, msg.z), KindOf(msg.blockType))
    else if msg.action == "remove" then Remove(s, (msg.x, msg.y, msg.z))
    else s
  }

  /** Only the named cell can change, and an unknown action changes nothing. */
  lemma DispatchTouchesOneCell(s: Store, msg: BlockMessage)
    ensures var r := Dispatch(s, msg);
      forall q :: q != (msg.x, msg.y, msg.z) ==> (q in r.blocks <==> q in s.blocks) && (q in s.blocks ==> r.blocks[q] == s.blocks[q])
    ensures msg.action != "place" && msg.action != "remove" ==> Dispatch(s, msg) == s
    ensures msg.action == "remove" ==> (msg.x, msg.y, msg.z) !in Dispatch(s, msg).blocks
  {
  }

  /** A place message into an empty cell followed by a remove message for it gives back the blocks and their order. */
  lemma PlaceThenRemoveMessage(s: Store, x: int, y: int, z: int, t: string)
    requires Voxels.Valid(s) && (x, y, z) !in s.blocks
    ensures var r := Dispatch(Dispatch(s, BlockMessage("place", x, y, z, t)), BlockMessage("remove", x, y, z, ""));
      r.blocks == s.blocks && r.order == s.order
  {
    PlaceRemoveRoundTrip(s, (x, y, z), KindOf(t));
  }

  // ---------------------------------------------------------------------------
  // Frame clock (main.js:220-240)

  /** The minimum time between two broadcasts, in milliseconds. */
  const BroadcastRate: real := 50.0

  /** The longest frame step, in seconds. */
  const MaxDelta: real := 0.1

  /** The frame step in seconds: the time since the last frame, at most 0.1. */
  function FrameDelta(prevTime: real, time: real): (delta: real)
    ensures delta <= MaxDelta
    ensures delta == MaxDelta || delta == (time - prevTime) / 1000.0
    ensures time >= prevTime ==> delta >= 0.0
    ensures delta <= (time - prevTime) / 1000.0
  {
    var elapsed := (time - prevTime) / 1000.0;
    if elapsed <= MaxDelta then elapsed else MaxDelta
  }

  /** Whether this frame sends the pose. */
  predicate Broadcasts(lastBroadcast: real, time: real) {
    time - lastBroadcast > BroadcastRate
  }

  /** The time of the last sent pose after a frame. */
  function NextBroadcast(lastBroadcast: real, time: real): real {
    if Broadcasts(lastBroadcast, time) then time else lastBroadcast
  }

  /**
   * The throttle: a send moves the last send time to the frame, a frame that
   * does not send is within 50 ms of the last send and keeps it, and two
   * frames that both send are more than 50 ms apart.
   */
  lemma Throttle(last: real, t1: real, t2: real)
    ensures Broadcasts(last, t1) ==> NextBroadcast(last, t1) == t1
    ensures Broadcasts(last, t1) && Broadcasts(NextBroadcast(last, t1), t2) ==> t2 - t1 > BroadcastRate
    ensures !Broadcasts(last, t1) ==> NextBroadcast(last, t1) == last && t1 - last <= BroadcastRate
  {
  }

  /** The glue's own state: the selected slot, the remote players and the two clock readings. */
  datatype Glue = Glue(selectedSlot: int, remotePlayers: map<string, Pose>, prevTime: real, lastBroadcast: real)

  /** The page: the world, the local player and the glue variables of main.js. */
  class Page {
    const world: World
    const player: Player
    var selectedSlot: int
    var remotePlayers: map<string, Pose>
    var prevTime: real
    var lastBroadcast: real

    function State(): Glue
      reads this
    {
      Glue(selectedSlot, remotePlayers, prevTime, lastBroadcast)
    }

    /** Module start-up: slot 0, nobody else in the room, the clock read once, and no pose sent yet. */
    constructor(world: World, player: Player, now: real)
      ensures this.world == world && this.player == player
      ensures State() == Glue(0, map[], now, 0.0)
    {
      this.world := world;
      this.player := player;
      selectedSlot := 0;
      remotePlayers := map[];
      prevTime := now;
      lastBroadcast := 0.0;
    }

    /** The hotbar keydown handler (main.js:39-44). */
    method OnSlotKey(key: string)
      modifies this
      ensures State() == old(State()).(selectedSlot := KeySlot(old(selectedSlot), key))
    {
      if !JsLess(key, "1") && !JsLess("9", key) {
        SlotKeyStartsWithDigit(key);
        selectedSlot := ParseInt(key) - 1;
      }
    }

    /** The wheel handler (main.js:46-50). */
    method OnWheel(deltaY: real)
      modifies this
      ensures State() == old(State()).(selectedSlot := WheelSlot(old(selectedSlot), deltaY))
    {
      if deltaY > 0.0 {
        selectedSlot := JsRem(selectedSlot + 1, 9);
      } else {
        selectedSlot := JsRem(selectedSlot - 1 + 9, 9);
      }
    }

    /** The right button of the mouse handler (main.js:75-113, without the left button). */
    method OnPlaceClick(locked: bool, hits: seq<Hit>)
      modifies world
      ensures world.Snapshot() == RightClick(old(world.Snapshot()), locked, hits, player.position, selectedSlot)
    {
      if !locked {
        return;
      }
      if |hits| > 0 && hits[0].distance < 6.0 {
        var pos := Beside(hits[0]);
        var eye := player.position;
        var dx := Abs(pos.x - eye.x);
        var dy := Abs(pos.y - eye.y);
        var dz := Abs(pos.z - eye.z);
        if dx < 0.8 && dy < 1.8 && dz < 0.8 {
          return;
        }
        var t := PlaceType(selectedSlot);
        world.PlaceBlock(pos.x.Floor, pos.y.Floor, pos.z.Floor, KindOf(t));
      }
    }

    /** addRemotePlayer (main.js:193-210). */
    method AddRemotePlayer(id: string)
      modifies this
      ensures State() == old(State()).(remotePlayers := AddPeer(old(remotePlayers), id))
    {
      if id in remotePlayers {
        return;
      }
      remotePlayers := remotePlayers[id := Origin];
    }

    /** removeRemotePlayer (main.js:212-217). */
    method RemoveRemotePlayer(id: string)
      modifies this
      ensures State() == old(State()).(remotePlayers := RemovePeer(old(remotePlayers), id))
    {
      if id in remotePlayers {
        remotePlayers := remotePlayers - {id};
      }
    }

    /** The move message handler (main.js:172-181). */
    method OnMove(id: string, data: Pose)
      modifies this
      ensures State() == old(State()).(remotePlayers := MovePeer(old(remotePlayers), id, data))
    {
      if id !in remotePlayers {
        AddRemotePlayer(id);
      }
      if id in remotePlayers {
        remotePlayers := remotePlayers[id := data];
      }
    }

    /** The block message handler (main.js:184-190). */
    method OnBlock(msg: BlockMessage)
      modifies world
      ensures world.Snapshot() == Dispatch(old(world.Snapshot()), msg)
    {
      if msg.action == "place" {
        world.PlaceBlock(msg.x, msg.y, msg.z, KindOf(msg.blockType));
      } else if msg.action == "remove" {
        world.RemoveBlockAt(msg.x, msg.y, msg.z);
      }
    }

    /**
     * One frame of animate (main.js:225-243): the clamped step, the player's
     * update with it, and the pose to send when the throttle allows.  The
     * camera's yaw comes from the pointer-lock controls and is a parameter.
     */
    method Animate(time: real, locked: bool, dir: Vec3, right: Mover, forward: Mover, yaw: real)
      returns (delta: real, sent: Option<Pose>)
      modifies this, player
      ensures delta == FrameDelta(old(prevTime), time)
      ensures player.State() == PlayerLogic.Step(old(player.State()), locked, delta, dir, right, forward, world.blocks)
      ensures State() == old(State()).(prevTime := time, lastBroadcast := NextBroadcast(old(lastBroadcast), time))
      ensures sent == if Broadcasts(old(lastBroadcast), time) then Some(Pose(player.position, yaw)) else None
    {
      delta := FrameDelta(prevTime, time);
      prevTime := time;
      player.Update(locked, delta, dir, right, forward, world.blocks);
      if time - lastBroadcast > 50.0 {
        sent := Some(Pose(player.position, yaw));
        lastBroadcast := time;
      } else {
        sent := None;
      }
    }
  }
}
