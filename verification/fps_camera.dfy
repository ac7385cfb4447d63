/** The first-person camera's state: a position and two angles in degrees.
    Yaw turns freely; pitch is kept within [-89, 89] so the view never
    flips over the vertical. The view direction computed from the angles
    and the projection are not part of this model. */
module Cameras {
  import opened Vectors

  const INITIAL_YAW: real := -90.0
  const INITIAL_PITCH: real := 0.0
  const PITCH_LIMIT: real := 89.0

  datatype Camera = Camera(position: Vec3, yaw: real, pitch: real) {
    /** The pitch lies within the limits. */
    predicate Valid() {
      -PITCH_LIMIT <= pitch <= PITCH_LIMIT
    }
  }

  /** libGDX's `MathUtils.clamp`: below the range gives the lower end,
      above it the upper end, and anything else itself. */
  function Clamp(v: real, lo: real, hi: real): (r: real)
    ensures v < lo ==> r == lo
    ensures lo <= v && v > hi ==> r == hi
    ensures lo <= v <= hi ==> r == v
  {
    if v < lo then lo else if v > hi then hi else v
  }

  /** A clamp into a non-empty range lands in it, and is the nearest point
      of the range: nothing in the range is closer to `v`. */
  lemma ClampIsNearest(v: real, lo: real, hi: real, w: real)
    requires lo <= hi && lo <= w <= hi
    ensures lo <= Clamp(v, lo, hi) <= hi
    ensures Dist(v, Clamp(v, lo, hi)) <= Dist(v, w)
  {
  }

  function Dist(a: real, b: real): real {
    if a >= b then a - b else b - a
  }

  /** The camera as constructed: looking along -Z at the horizon, at the
      perspective camera's default position, the origin. */
  function NewCamera(): (c: Camera)
    ensures c.Valid()
    ensures c.yaw == -90.0 && c.pitch == 0.0 && c.position == Zero
  {
    Camera(Zero, INITIAL_YAW, INITIAL_PITCH)
  }

  function SetPosition(c: Camera, p: Vec3): (r: Camera)
    ensures r.position == p && r.yaw == c.yaw && r.pitch == c.pitch
  {
    c.(position := p)
  }

  /** Yaw is stored as given, without wrapping or clamping. */
  function SetYaw(c: Camera, yaw: real): (r: Camera)
    ensures r.yaw == yaw && r.pitch == c.pitch && r.position == c.position
  {
    c.(yaw := yaw)
  }

  function AddYaw(c: Camera, delta: real): (r: Camera)
    ensures r.yaw - c.yaw == delta && r.pitch == c.pitch && r.position == c.position
  {
    c.(yaw := c.yaw + delta)
  }

  /** The pitch is clamped into [-89, 89]; an in-range value is stored
      exactly. */
  function SetPitch(c: Camera, pitch: real): (r: Camera)
    ensures r.Valid()
    ensures -PITCH_LIMIT <= pitch <= PITCH_LIMIT ==> r.pitch == pitch
    ensures pitch < -PITCH_LIMIT ==> r.pitch == -PITCH_LIMIT
    ensures pitch > PITCH_LIMIT ==> r.pitch == PITCH_LIMIT
    ensures r.yaw == c.yaw && r.position == c.position
  {
    c.(pitch := Clamp(pitch, -PITCH_LIMIT, PITCH_LIMIT))
  }

  /** The pitch moves by `delta`, stopping at the limits. */
  function AddPitch(c: Camera, delta: real): (r: Camera)
    ensures r.Valid()
    ensures -PITCH_LIMIT <= c.pitch + delta <= PITCH_LIMIT ==> r.pitch - c.pitch == delta
    ensures r.yaw == c.yaw && r.position == c.position
  {
    c.(pitch := Clamp(c.pitch + delta, -PITCH_LIMIT, PITCH_LIMIT))
  }

  /** Adding to the pitch is setting it to the sum. */
  lemma AddPitchIsSetPitch(c: Camera, delta: real)
    ensures AddPitch(c, delta) == SetPitch(c, c.pitch + delta)
  {
  }

  /** Nudging the pitch never moves it the wrong way, nor past the sum. */
  lemma AddPitchMovesTowardSum(c: Camera, delta: real)
    requires c.Valid()
    ensures delta >= 0.0 ==> c.pitch <= AddPitch(c, delta).pitch <= c.pitch + delta
    ensures delta <= 0.0 ==> c.pitch + delta <= AddPitch(c, delta).pitch <= c.pitch
  {
  }

  /** The camera operations a frame can apply. */
  datatype CameraOp = SetYawOp(yaw: real) | AddYawOp(dyaw: real) | SetPitchOp(pitch: real) | AddPitchOp(dpitch: real)

  function Apply(c: Camera, op: CameraOp): Camera {
    match op
    case SetYawOp(y) => SetYaw(c, y)
    case AddYawOp(d) => AddYaw(c, d)
    case SetPitchOp(p) => SetPitch(c, p)
    case AddPitchOp(d) => AddPitch(c, d)
  }

  function ApplyAll(c: Camera, ops: seq<CameraOp>): Camera
    decreases |ops|
  {
    if |ops| == 0 then c else ApplyAll(Apply(c, ops[0]), ops[1..])
  }

  /** Whatever the sequence of rotations, a camera with its pitch in range
      keeps it in range, and never moves. */
  lemma {:induction false} PitchStaysInRange(c: Camera, ops: seq<CameraOp>)
    requires c.Valid()
    ensures ApplyAll(c, ops).Valid()
    ensures ApplyAll(c, ops).position == c.position
    decreases |ops|
  {
    if |ops| > 0 {
      PitchStaysInRange(Apply(c, ops[0]), ops[1..]);
    }
  }

  /** Yaw accumulates exactly: turning by `a` then by `b` is turning by
      `a + b`, with no wrapping at 360. */
  lemma YawAccumulates(c: Camera, a: real, b: real)
    ensures AddYaw(AddYaw(c, a), b) == AddYaw(c, a + b)
  {
  }
}
