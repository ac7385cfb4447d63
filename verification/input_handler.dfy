/** Mouse input for block editing. A left click removes the block under
    the crosshair; a right click places an origin-stone block on the face
    under the crosshair unless it would overlap the player; the middle and
    other buttons do nothing. The engine's effects are returned as an
    `Edit` instead of being performed. */
module BlockInput {
  import opened Vectors
  import opened Aabb
  import opened Players
  import opened Physics
  import opened BlockTypes

  const LEFT: int := 0
  const RIGHT: int := 1
  const MIDDLE: int := 2
  const NO_BUTTON: int := -1

  /** Which buttons went down this frame. */
  datatype JustPressed = JustPressed(left: bool, right: bool, middle: bool)

  /** What the engine reports at the moment of the click: the block under
      the crosshair, the position a new block would take against the face
      under the crosshair, and the player's feet. */
  datatype Target = Target(selected: Option<Vec3>, placement: Option<Vec3>, playerFeet: Vec3)

  datatype Edit = NoEdit | RemoveBlock(pos: Vec3) | AddBlock(pos: Vec3, blockType: int)

  /** `getMouseButton`: the first just-pressed button in the order left,
      right, middle, or -1 when none is. */
  function GetMouseButton(p: JustPressed): (b: int)
    ensures b == LEFT <==> p.left
    ensures b == RIGHT <==> !p.left && p.right
    ensures b == MIDDLE <==> !p.left && !p.right && p.middle
    ensures b == NO_BUTTON <==> !p.left && !p.right && !p.middle
  {
    if p.left then LEFT
    else if p.right then RIGHT
    else if p.middle then MIDDLE
    else NO_BUTTON
  }

  /** `wouldCollideWithPlayer`: the unit block at `b` and the player's box
      (0.6 wide, 1.8 tall, standing on `feet`) overlap with positive
      volume; this is exactly the box intersection test of the physics. */
  function WouldCollideWithPlayer(feet: Vec3, b: Vec3): (r: bool)
    ensures r <==> Intersects(BodyBox(feet), BlockBox(b))
  {
    BodyBoxSpan(feet);
    BlockBoxSpan(b);
    var playerMinX, playerMaxX := feet.x - 0.3, feet.x + 0.3;
    var playerMinY, playerMaxY := feet.y, feet.y + 1.8;
    var playerMinZ, playerMaxZ := feet.z - 0.3, feet.z + 0.3;
    var blockMinX, blockMaxX := b.x - 0.5, b.x + 0.5;
    var blockMinY, blockMaxY := b.y - 0.5, b.y + 0.5;
    var blockMinZ, blockMaxZ := b.z - 0.5, b.z + 0.5;
    !(playerMaxX <= blockMinX || playerMinX >= blockMaxX ||
      playerMaxY <= blockMinY || playerMinY >= blockMaxY ||
      playerMaxZ <= blockMinZ || playerMinZ >= blockMaxZ)
  }

  /** `processMouseInput`: left removes the selected block if there is
      one; right adds an origin-stone block at the placement position if
      there is one and it leaves the player clear; anything else, or a
      missing target, changes nothing. */
  function ProcessMouseInput(button: int, t: Target): (e: Edit)
    ensures e.RemoveBlock? <==> button == LEFT && t.selected.Some?
    ensures e.RemoveBlock? ==> e.pos == t.selected.value
    ensures e.AddBlock? <==> (button == RIGHT && t.placement.Some?
                              && !Intersects(BodyBox(t.playerFeet), BlockBox(t.placement.value)))
    ensures e.AddBlock? ==> e.pos == t.placement.value && e.blockType == ORIGIN_STONE
  {
    if button == LEFT then
      if t.selected.Some? then RemoveBlock(t.selected.value) else NoEdit
    else if button == RIGHT then
      if t.placement.Some? && !WouldCollideWithPlayer(t.playerFeet, t.placement.value) then
        AddBlock(t.placement.value, ORIGIN_STONE)
      else NoEdit
    else NoEdit
  }

  /** `handleInput`: clicks are handled only on the frame the screen was
      just touched. */
  function HandleInput(justTouched: bool, p: JustPressed, t: Target): (e: Edit)
    ensures !justTouched ==> e == NoEdit
    ensures justTouched ==> e == ProcessMouseInput(GetMouseButton(p), t)
  {
    if justTouched then ProcessMouseInput(GetMouseButton(p), t) else NoEdit
  }

  /** A click places a block only where the player, if clear of the world
      before, stays clear of the world with the new block added. */
  lemma PlacementKeepsPlayerClear(justTouched: bool, p: JustPressed, t: Target, blocks: seq<Vec3>)
    requires !Collides(BodyBox(t.playerFeet), blocks)
    ensures var e := HandleInput(justTouched, p, t);
            e.AddBlock? ==> !Collides(BodyBox(t.playerFeet), blocks + [e.pos])
  {
    var e := HandleInput(justTouched, p, t);
    if e.AddBlock? {
      var all := blocks + [e.pos];
      forall i | 0 <= i < |all|
        ensures !Hits(BodyBox(t.playerFeet), all[i])
      {
        if i < |blocks| {
          assert all[i] == blocks[i];
        }
      }
    }
  }

  /** Both buttons pressed together: the left click wins, so the block
      under the crosshair is removed and nothing is placed. */
  lemma LeftClickWins(p: JustPressed, t: Target)
    requires p.left && p.right && t.selected.Some?
    ensures HandleInput(true, p, t) == RemoveBlock(t.selected.value)
  {
  }
}
