/** Small value types shared by the world, the mobs, the player and the client glue. */
module Common {

  /** An optional value: a missing JavaScript property, or a lookup that found nothing. */
  datatype Option<T> = None | Some(value: T) {
    function GetOr(default: T): T {
      match this
      case Some(v) => v
      case None => default
    }
  }

  /** An integer block coordinate (x, y, z); the source keys its block map by the string "x,y,z". */
  type Pos = (int, int, int)

  /** A point or a vector in world space. JavaScript numbers are modelled as exact reals. */
  datatype Vec3 = Vec3(x: real, y: real, z: real)

  const Zero: Vec3 := Vec3(0.0, 0.0, 0.0)

  /** An axis-aligned range of block cells, bounds included on both ends. */
  datatype Box = Box(minX: int, maxX: int, minY: int, maxY: int, minZ: int, maxZ: int)

  predicate InBox(b: Box, q: Pos) {
    b.minX <= q.0 <= b.maxX && b.minY <= q.1 <= b.maxY && b.minZ <= q.2 <= b.maxZ
  }

  function Abs(r: real): (a: real)
    ensures a >= 0.0 && (a == r || a == -r)
  {
    if r < 0.0 then -r else r
  }

  function IAbs(i: int): (a: int)
    ensures a >= 0 && (a == i || a == -i)
  {
    if i < 0 then -i else i
  }
}
