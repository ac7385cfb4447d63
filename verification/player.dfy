/** The player body: foot position, velocity, the grounded flag and an
    AABB derived from the feet, plus the body and physics constants. */
module Players {
  import opened Vectors
  import opened Aabb

  const WIDTH: real := 0.6
  const HEIGHT: real := 1.8
  const EYE_HEIGHT: real := 1.62

  const GRAVITY: real := -20.0
  const JUMP_VELOCITY: real := 7.0
  const TERMINAL_VELOCITY: real := -50.0

  const HALF_WIDTH: real := WIDTH / 2.0
  const HALF_HEIGHT: real := HEIGHT / 2.0

  datatype Player = Player(position: Vec3, velocity: Vec3, onGround: bool, aabb: Box)
  {
    /** The body's box is always the one derived from its feet. */
    predicate Valid() {
      aabb == BodyBox(position)
    }
  }

  /** The body box of a player standing at `foot`: centred half a height
      above the feet, half-extents (0.3, 0.9, 0.3). */
  function BodyBox(foot: Vec3): Box {
    Create(Vec3(foot.x, foot.y + HALF_HEIGHT, foot.z), HALF_WIDTH, HALF_HEIGHT, HALF_WIDTH)
  }

  /** How far the body reaches below the feet along an axis. */
  function Below(a: Axis): real {
    if a == Y then 0.0 else HALF_WIDTH
  }

  /** How far the body reaches above the feet along an axis. */
  function Above(a: Axis): real {
    if a == Y then HEIGHT else HALF_WIDTH
  }

  /** The body box spans `[foot - Below, foot + Above]` on every axis:
      feet to head on Y, and 0.3 either side of the feet on X and Z. */
  lemma BodyBoxSpan(foot: Vec3)
    ensures forall a: Axis :: BodyBox(foot).min.Get(a) == foot.Get(a) - Below(a)
                          && BodyBox(foot).max.Get(a) == foot.Get(a) + Above(a)
    ensures BodyBox(foot).min.y == foot.y && BodyBox(foot).max.y == foot.y + 1.8
    ensures BodyBox(foot).min.x == foot.x - 0.3 && BodyBox(foot).max.x == foot.x + 0.3
    ensures BodyBox(foot).min.z == foot.z - 0.3 && BodyBox(foot).max.z == foot.z + 0.3
  {
    var b := BodyBox(foot);
    assert b.min.Get(X) == b.center.Get(X) - b.Half(X) && b.max.Get(X) == b.center.Get(X) + b.Half(X);
    assert b.min.Get(Y) == b.center.Get(Y) - b.Half(Y) && b.max.Get(Y) == b.center.Get(Y) + b.Half(Y);
    assert b.min.Get(Z) == b.center.Get(Z) - b.Half(Z) && b.max.Get(Z) == b.center.Get(Z) + b.Half(Z);
  }

  /** A new player at `start`: at rest, grounded, box centred at
      `start + (0, 0.9, 0)` with half-extents (0.3, 0.9, 0.3). */
  function NewPlayer(start: Vec3): (p: Player)
    ensures p.Valid()
    ensures p.position == start && p.velocity == Zero && p.onGround
    ensures p.aabb.center == Vec3(start.x, start.y + 0.9, start.z)
    ensures p.aabb.halfWidth == 0.3 && p.aabb.halfHeight == 0.9 && p.aabb.halfDepth == 0.3
  {
    Player(start, Zero, true, BodyBox(start))
  }

  /** Moves the feet and re-centres the existing box on them. */
  function SetPosition(p: Player, pos: Vec3): (r: Player)
    ensures r.position == pos
    ensures r.velocity == p.velocity && r.onGround == p.onGround
    ensures r.aabb.Consistent()
    ensures r.aabb.center == Vec3(pos.x, pos.y + HEIGHT / 2.0, pos.z)
    ensures forall a: Axis :: r.aabb.Half(a) == p.aabb.Half(a)
    ensures p.Valid() ==> r.Valid()
  {
    p.(position := pos, aabb := SetCenter(p.aabb, Vec3(pos.x, pos.y + HALF_HEIGHT, pos.z)))
  }

  function SetOnGround(p: Player, g: bool): (r: Player)
    ensures r.onGround == g
    ensures r.position == p.position && r.velocity == p.velocity && r.aabb == p.aabb
  {
    p.(onGround := g)
  }

  /** The camera position: eye height above the feet, which lies strictly
      inside the body's vertical span. */
  function EyePosition(p: Player): (e: Vec3)
    ensures e.x == p.position.x && e.z == p.position.z
    ensures e.y - p.position.y == EYE_HEIGHT
    ensures p.Valid() ==> p.aabb.min.y < e.y < p.aabb.max.y
  {
    BodyBoxSpan(p.position);
    Vec3(p.position.x, p.position.y + EYE_HEIGHT, p.position.z)
  }
}
