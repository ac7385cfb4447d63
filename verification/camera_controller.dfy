/** The per-frame controller of the walking player: mouse look, jump,
    the movement keys turned into a horizontal velocity, one physics step,
    and the camera moved to the player's eyes. The keyboard and mouse are
    read into an explicit snapshot, and the trigonometric view direction
    and libGDX's vector normalisation are parameters. */
module Controllers {
  import opened Vectors
  import opened Players
  import opened Physics
  import opened Cameras

  /** The default walking speed. */
  const MOVE_SPEED: real := 5.0
  /** `len() > 0.001`, squared: the movement keys produce an intent. */
  const MIN_INTENT_SQ: real := 0.000001

  datatype Keys = Keys(w: bool, s: bool, a: bool, d: bool)

  /** What the frame reads from the input devices. */
  datatype FrameInput = FrameInput(mouseLocked: bool, mouseDeltaX: int, mouseDeltaY: int, sensitivity: real,
                                   spaceJustPressed: bool, keys: Keys)

  /** The foreign vector operations: the view direction from yaw and
      pitch, and normalisation. */
  datatype VecOps = VecOps(direction: (real, real) -> Vec3, nor: Vec3 -> Vec3)

  datatype Controller = Controller(camera: Camera, player: Player, moveSpeed: real) {
    /** The camera sits at the player's eyes. */
    predicate Synced() {
      camera.position == EyePosition(player)
    }
  }

  /** The constructor syncs the camera to the player's eyes. */
  function NewController(camera: Camera, player: Player): (c: Controller)
    ensures c.Synced() && c.player == player && c.moveSpeed == MOVE_SPEED
    ensures c.camera.yaw == camera.yaw && c.camera.pitch == camera.pitch
  {
    Controller(Cameras.SetPosition(camera, EyePosition(player)), player, MOVE_SPEED)
  }

  /** Mouse look: with the mouse captured, its motion turns the camera. */
  function Look(cam: Camera, input: FrameInput): (r: Camera)
    ensures r.position == cam.position
    ensures !input.mouseLocked ==> r == cam
    ensures cam.Valid() ==> r.Valid()
  {
    if input.mouseLocked then
      AddPitch(AddYaw(cam, input.mouseDeltaX as real * input.sensitivity), input.mouseDeltaY as real * input.sensitivity)
    else cam
  }

  /** Keys: W adds the horizontal view direction, S subtracts
      it, A subtracts the right vector and D adds it, in that order. */
  function MoveDir(h: Vec3, right: Vec3, keys: Keys): Vec3 {
    var m0 := Zero;
    var m1 := if keys.w then m0.Add(h) else m0;
    var m2 := if keys.s then m1.Sub(h) else m1;
    var m3 := if keys.a then m2.Sub(right) else m2;
    if keys.d then m3.Add(right) else m3
  }

  /** +1, -1 or 0 for a pair of opposing keys. */
  function Axis1(plus: bool, minus: bool): real {
    (if plus then 1.0 else 0.0) - (if minus then 1.0 else 0.0)
  }

  /** The keys combine as forward/back times the view direction plus
      right/left times the right vector: opposing keys cancel exactly. */
  lemma MoveDirIsCombination(h: Vec3, right: Vec3, keys: Keys)
    ensures MoveDir(h, right, keys) == h.Scale(Axis1(keys.w, keys.s)).Add(right.Scale(Axis1(keys.d, keys.a)))
  {
    var f, g := Axis1(keys.w, keys.s), Axis1(keys.d, keys.a);
    var lhs, rhs := MoveDir(h, right, keys), h.Scale(f).Add(right.Scale(g));
    if f == 0.0 {
      assert h.Scale(f) == Zero;
    } else if f == 1.0 {
      assert h.Scale(f) == h;
    } else {
      assert h.Scale(f) == Zero.Sub(h);
    }
    if g == 0.0 {
      assert right.Scale(g) == Zero;
    } else if g == 1.0 {
      assert right.Scale(g) == right;
    } else {
      assert right.Scale(g) == Zero.Sub(right);
    }
    assert lhs.x == rhs.x && lhs.y == rhs.y && lhs.z == rhs.z;
  }

  /** The view direction flattened onto the ground and normalised, and
      the right vector `h x up`, normalised. */
  function HorizontalDir(cam: Camera, ops: VecOps): Vec3 {
    ops.nor(ops.direction(cam.yaw, cam.pitch).(y := 0.0))
  }

  function RightDir(h: Vec3, ops: VecOps): Vec3 {
    ops.nor(Cross(h, Vec3(0.0, 1.0, 0.0)))
  }

  /** The movement intent of the keys for a camera. */
  function Intent(cam: Camera, keys: Keys, ops: VecOps): Vec3 {
    var h := HorizontalDir(cam, ops);
    MoveDir(h, RightDir(h, ops), keys)
  }

  /** Velocity: an intent longer than 0.001 sets the
      horizontal velocity to the normalised intent times the speed;
      otherwise the horizontal velocity is zeroed. The vertical velocity is
      not touched. */
  function WalkVelocity(v: Vec3, moveDir: Vec3, speed: real, ops: VecOps): (r: Vec3)
    ensures r.y == v.y
    ensures moveDir.LenSq() <= MIN_INTENT_SQ ==> r.x == 0.0 && r.z == 0.0
    ensures moveDir.LenSq() > MIN_INTENT_SQ ==>
              r.x == ops.nor(moveDir).Scale(speed).x && r.z == ops.nor(moveDir).Scale(speed).z
  {
    if moveDir.LenSq() > MIN_INTENT_SQ then
      var m := ops.nor(moveDir).Scale(speed);
      v.(x := m.x, z := m.z)
    else
      v.(x := 0.0, z := 0.0)
  }

  /** With a normalisation that returns unit vectors, walking speed is the
      controller's speed scaled by the horizontal share of the unit intent:
      exactly the speed when the intent is level. */
  lemma WalkSpeed(v: Vec3, moveDir: Vec3, speed: real, ops: VecOps)
    requires moveDir.LenSq() > MIN_INTENT_SQ
    requires ops.nor(moveDir).LenSq() == 1.0 && ops.nor(moveDir).y == 0.0
    ensures var r := WalkVelocity(v, moveDir, speed, ops);
            r.x * r.x + r.z * r.z == speed * speed
  {
    var n := ops.nor(moveDir);
    var r := WalkVelocity(v, moveDir, speed, ops);
    assert r.x == speed * n.x && r.z == speed * n.z;
    assert n.x * n.x + n.z * n.z == 1.0;
    calc {
      r.x * r.x + r.z * r.z;
      (speed * n.x) * (speed * n.x) + (speed * n.z) * (speed * n.z);
      (n.x * n.x + n.z * n.z) * (speed * speed);
    }
  }

  function SetHorizontal(p: Player, moveDir: Vec3, speed: real, ops: VecOps): (r: Player)
    ensures r.position == p.position && r.onGround == p.onGround && r.aabb == p.aabb
    ensures r.velocity == WalkVelocity(p.velocity, moveDir, speed, ops)
  {
    p.(velocity := WalkVelocity(p.velocity, moveDir, speed, ops))
  }

  /** The player as handed to physics: jump first (when Space was just
      pressed), then the horizontal velocity from the keys as seen by the
      camera after this frame's mouse look. */
  function Prepare(c: Controller, input: FrameInput, ops: VecOps): (p: Player)
    ensures p.position == c.player.position && p.aabb == c.player.aabb
    ensures input.spaceJustPressed && c.player.onGround ==> p.velocity.y == JUMP_VELOCITY && !p.onGround
    ensures !(input.spaceJustPressed && c.player.onGround) ==>
              p.velocity.y == c.player.velocity.y && p.onGround == c.player.onGround
    ensures var w := WalkVelocity(c.player.velocity, Intent(Look(c.camera, input), input.keys, ops), c.moveSpeed, ops);
            p.velocity.x == w.x && p.velocity.z == w.z
  {
    var cam := Look(c.camera, input);
    var jumped := if input.spaceJustPressed then TryJump(c.player) else c.player;
    SetHorizontal(jumped, Intent(cam, input.keys, ops), c.moveSpeed, ops)
  }

  /** `update`: look, jump, move intent, one physics step, then the camera
      follows the player's eyes. */
  function UpdateFrame(c: Controller, input: FrameInput, ops: VecOps, blocks: seq<Vec3>, delta: real): (r: Controller)
    requires c.player.Valid()
    ensures r.player.Valid() && r.Synced()
    ensures r.moveSpeed == c.moveSpeed
    ensures r.camera.yaw == Look(c.camera, input).yaw && r.camera.pitch == Look(c.camera, input).pitch
    ensures r.player == Physics.Update(Prepare(c, input, ops), blocks, delta)
  {
    var cam := Look(c.camera, input);
    var p := Prepare(c, input, ops);
    var moved := Physics.Update(p, blocks, delta);
    Controller(Cameras.SetPosition(cam, EyePosition(moved)), moved, c.moveSpeed)
  }

  /** Opposing keys cancel: W with S, or A with D, alone, leave no intent
      and stop the player horizontally, whatever the view direction. */
  lemma OpposingKeysStop(c: Controller, input: FrameInput, ops: VecOps)
    requires var k := input.keys;
             (k.w && k.s && !k.a && !k.d) || (k.a && k.d && !k.w && !k.s) || (!k.w && !k.s && !k.a && !k.d)
    ensures Prepare(c, input, ops).velocity.x == 0.0 && Prepare(c, input, ops).velocity.z == 0.0
  {
    var cam := Look(c.camera, input);
    var h := HorizontalDir(cam, ops);
    MoveDirIsCombination(h, RightDir(h, ops), input.keys);
    assert Intent(cam, input.keys, ops) == Zero;
  }

  /** A jump from the ground reaches physics in the same frame: gravity
      then acts on the jump speed, so the vertical speed after gravity is
      `7 - 20 dt` for any frame time short enough not to reach terminal
      velocity. */
  lemma JumpThenGravity(c: Controller, input: FrameInput, ops: VecOps, dt: real)
    requires input.spaceJustPressed && c.player.onGround
    requires 0.0 <= dt <= 2.85
    ensures ApplyGravity(Prepare(c, input, ops), dt).velocity.y == JUMP_VELOCITY - 20.0 * dt
  {
  }
}
