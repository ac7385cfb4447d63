/** The game's per-frame controller with fly mode. It runs on the engine's
    own player, camera controller and physics, which are not part of this
    model: the engine's physics step, jump and eye position are parameters,
    and its camera is taken to behave like the camera modelled here.

    Flying, the keys give the full velocity: the level view direction and
    its right vector as when walking, plus one unit up for Space and one
    down for either Shift, normalised and scaled to the fly speed, or zero
    when they cancel. Walking, Space just pressed asks for a jump and the
    keys set only the horizontal velocity. Either way one physics step
    follows and the camera moves to the player's eyes. */
module FlyControllers {
  import opened Vectors
  import opened Cameras
  import opened FlyPlayers
  import opened Controllers

  /** The frame's input: what the walking controller reads, plus whether
      Space is held and the two Shift keys. */
  datatype FlyInput = FlyInput(frame: FrameInput, spaceHeld: bool, shiftLeft: bool, shiftRight: bool)

  /** The engine calls the controller makes. */
  datatype Engine = Engine(physics: (FlyPlayer, real) -> FlyPlayer, tryJump: FlyPlayer -> FlyPlayer,
                           eye: FlyPlayer -> Vec3)

  datatype FlyController = FlyController(camera: Camera, player: FlyPlayer, moveSpeed: real)

  /** The flying intent: the horizontal keys, then Space adds one to the
      vertical component and Shift takes one away. */
  function FlyIntent(cam: Camera, input: FlyInput, ops: VecOps): (m: Vec3)
    ensures m.x == Intent(cam, input.frame.keys, ops).x && m.z == Intent(cam, input.frame.keys, ops).z
    ensures var shift := input.shiftLeft || input.shiftRight;
            m.y - Intent(cam, input.frame.keys, ops).y
              == (if input.spaceHeld && !shift then 1.0 else if shift && !input.spaceHeld then -1.0 else 0.0)
  {
    var m := Intent(cam, input.frame.keys, ops);
    var up := if input.spaceHeld then m.(y := m.y + 1.0) else m;
    if input.shiftLeft || input.shiftRight then up.(y := up.y - 1.0) else up
  }

  /** The flying velocity: the intent normalised and scaled to the fly
      speed when longer than 0.001, and otherwise zero in all three
      components. */
  function FlyVelocity(m: Vec3, ops: VecOps): (v: Vec3)
    ensures m.LenSq() <= MIN_INTENT_SQ ==> v == Zero
    ensures m.LenSq() > MIN_INTENT_SQ ==> v == ops.nor(m).Scale(FLY_SPEED)
  {
    if m.LenSq() > MIN_INTENT_SQ then ops.nor(m).Scale(FLY_SPEED) else Zero
  }

  /** The player handed to the physics step. Flying replaces the whole
      velocity; walking may jump and then replaces only the horizontal
      velocity. */
  function Prepare(c: FlyController, input: FlyInput, ops: VecOps, engine: Engine): (p: FlyPlayer)
    ensures c.player.flyMode ==>
              p == c.player.(velocity := FlyVelocity(FlyIntent(Look(c.camera, input.frame), input, ops), ops))
    ensures !c.player.flyMode && !input.frame.spaceJustPressed ==>
              p == c.player.(velocity := WalkVelocity(c.player.velocity, Intent(Look(c.camera, input.frame), input.frame.keys, ops),
                                                      c.moveSpeed, ops))
    ensures !c.player.flyMode && input.frame.spaceJustPressed ==>
              p.velocity.y == engine.tryJump(c.player).velocity.y
    ensures !c.player.flyMode && input.frame.spaceJustPressed ==>
              var j := engine.tryJump(c.player);
              p == j.(velocity := WalkVelocity(j.velocity, Intent(Look(c.camera, input.frame), input.frame.keys, ops),
                                               c.moveSpeed, ops))
  {
    var cam := Look(c.camera, input.frame);
    if c.player.flyMode then
      c.player.(velocity := FlyVelocity(FlyIntent(cam, input, ops), ops))
    else
      var jumped := if input.frame.spaceJustPressed then engine.tryJump(c.player) else c.player;
      jumped.(velocity := WalkVelocity(jumped.velocity, Intent(cam, input.frame.keys, ops), c.moveSpeed, ops))
  }

  /** `update`: look, prepare the velocity, one physics step, then the
      camera follows the player's eyes. */
  function UpdateFrame(c: FlyController, input: FlyInput, ops: VecOps, engine: Engine, delta: real): (r: FlyController)
    ensures r.camera.position == engine.eye(r.player)
    ensures r.camera.yaw == Look(c.camera, input.frame).yaw && r.camera.pitch == Look(c.camera, input.frame).pitch
    ensures c.camera.Valid() ==> r.camera.Valid()
    ensures r.moveSpeed == c.moveSpeed
    ensures r.player == engine.physics(Prepare(c, input, ops, engine), delta)
  {
    var cam := Look(c.camera, input.frame);
    var moved := engine.physics(Prepare(c, input, ops, engine), delta);
    FlyController(Cameras.SetPosition(cam, engine.eye(moved)), moved, c.moveSpeed)
  }

  /** Flying ignores the jump key and never calls the engine's jump: the
      prepared player is the same whatever Space-just-pressed says and
      whichever jump the engine has. */
  lemma FlyingNeverJumps(c: FlyController, input: FlyInput, ops: VecOps, e1: Engine, e2: Engine, jp: bool)
    requires c.player.flyMode
    ensures Prepare(c, input, ops, e1) == Prepare(c, input.(frame := input.frame.(spaceJustPressed := jp)), ops, e2)
  {
    var other := input.(frame := input.frame.(spaceJustPressed := jp));
    assert Look(c.camera, other.frame) == Look(c.camera, input.frame);
    assert FlyIntent(Look(c.camera, input.frame), other, ops) == FlyIntent(Look(c.camera, input.frame), input, ops);
  }

  /** Flying keeps the mode, gravity switch, ground flag and position; only
      the velocity is set. */
  lemma FlyingSetsOnlyVelocity(c: FlyController, input: FlyInput, ops: VecOps, engine: Engine)
    requires c.player.flyMode && c.player.Consistent()
    ensures var p := Prepare(c, input, ops, engine);
            p.flyMode && p.Consistent() && !p.gravityEnabled
            && p.position == c.player.position && p.onGround == c.player.onGround
  {
  }

  /** Flying with no movement key held, or with only opposing keys held,
      hovers: the velocity handed to physics is zero in every component. */
  lemma FlyingHovers(c: FlyController, input: FlyInput, ops: VecOps, engine: Engine)
    requires c.player.flyMode
    requires var k := input.frame.keys;
             (!k.w && !k.s && !k.a && !k.d)
             || (k.w && k.s && !k.a && !k.d)
             || (k.a && k.d && !k.w && !k.s)
             || (k.w && k.s && k.a && k.d)
    requires input.spaceHeld == (input.shiftLeft || input.shiftRight)
    ensures Prepare(c, input, ops, engine).velocity == Zero
  {
    var cam := Look(c.camera, input.frame);
    var h := HorizontalDir(cam, ops);
    MoveDirIsCombination(h, RightDir(h, ops), input.frame.keys);
    assert Intent(cam, input.frame.keys, ops) == Zero;
    assert FlyIntent(cam, input, ops) == Zero;
  }

  /** Space alone flies straight up at the fly speed, given that the
      normalisation leaves the unit up vector as it is. */
  lemma SpaceAscends(c: FlyController, input: FlyInput, ops: VecOps, engine: Engine)
    requires c.player.flyMode
    requires input.frame.keys == Keys(false, false, false, false)
    requires input.spaceHeld && !input.shiftLeft && !input.shiftRight
    requires ops.nor(Vec3(0.0, 1.0, 0.0)) == Vec3(0.0, 1.0, 0.0)
    ensures Prepare(c, input, ops, engine).velocity == Vec3(0.0, FLY_SPEED, 0.0)
  {
    var cam := Look(c.camera, input.frame);
    assert Intent(cam, input.frame.keys, ops) == Zero;
    assert FlyIntent(cam, input, ops) == Vec3(0.0, 1.0, 0.0);
  }

  /** Flying with a normalisation that returns unit vectors moves at
      exactly the fly speed whenever the keys produce an intent. */
  lemma FlyingSpeed(c: FlyController, input: FlyInput, ops: VecOps, engine: Engine)
    requires c.player.flyMode
    requires var m := FlyIntent(Look(c.camera, input.frame), input, ops);
             m.LenSq() > MIN_INTENT_SQ && ops.nor(m).LenSq() == 1.0
    ensures Prepare(c, input, ops, engine).velocity.LenSq() == FLY_SPEED * FLY_SPEED
  {
    var n := ops.nor(FlyIntent(Look(c.camera, input.frame), input, ops));
    var v := Prepare(c, input, ops, engine).velocity;
    assert v == Vec3(8.0 * n.x, 8.0 * n.y, 8.0 * n.z);
    assert v.LenSq() == 64.0 * (n.x * n.x + n.y * n.y + n.z * n.z);
  }

  /** Walking without a jump leaves the vertical velocity, the flags and
      the position to physics: only the horizontal velocity is set. */
  lemma WalkingKeepsVertical(c: FlyController, input: FlyInput, ops: VecOps, engine: Engine)
    requires !c.player.flyMode && !input.frame.spaceJustPressed
    ensures var p := Prepare(c, input, ops, engine);
            p.velocity.y == c.player.velocity.y && p.position == c.player.position
            && p.flyMode == c.player.flyMode && p.gravityEnabled == c.player.gravityEnabled
            && p.onGround == c.player.onGround
  {
  }

  /** Walking ignores Space held and Shift: they only steer flight. */
  lemma WalkingIgnoresVerticalKeys(c: FlyController, input: FlyInput, ops: VecOps, engine: Engine,
                                   space: bool, left: bool, right: bool)
    requires !c.player.flyMode
    ensures Prepare(c, input, ops, engine) == Prepare(c, input.(spaceHeld := space, shiftLeft := left, shiftRight := right), ops, engine)
  {
  }
}
