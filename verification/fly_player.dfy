/** The game's player with fly mode on top of the engine's player. Of the
    engine's player the model keeps what the fly-mode code and the
    controllers touch: the position, the velocity, the ground flag and the
    gravity switch. Flying turns gravity off and stops vertical motion;
    landing ends flight. */
module FlyPlayers {
  import opened Vectors

  const FLY_SPEED: real := 8.0

  datatype FlyPlayer = FlyPlayer(position: Vec3, velocity: Vec3, onGround: bool, gravityEnabled: bool, flyMode: bool) {
    /** Gravity is on exactly when the player is not flying. */
    predicate Consistent() {
      gravityEnabled == !flyMode
    }
  }

  /** A new player stands at `start`, at rest, grounded, not flying, with
      gravity on. The engine player is taken to start like the game's own
      player class: grounded and at rest. */
  function NewFlyPlayer(start: Vec3): (p: FlyPlayer)
    ensures !p.flyMode && p.Consistent()
    ensures p.position == start && p.velocity == Zero && p.onGround
  {
    FlyPlayer(start, Zero, true, true, false)
  }

  /** `setFlyMode`: the mode is stored, gravity is switched to its
      opposite, and entering flight stops vertical motion. Nothing else
      changes. */
  function SetFlyMode(p: FlyPlayer, flyMode: bool): (r: FlyPlayer)
    ensures r.flyMode == flyMode && r.Consistent()
    ensures flyMode ==> r.velocity == p.velocity.(y := 0.0)
    ensures !flyMode ==> r.velocity == p.velocity
    ensures r.position == p.position && r.onGround == p.onGround
  {
    var q := p.(flyMode := flyMode, gravityEnabled := !flyMode);
    if flyMode then q.(velocity := q.velocity.(y := 0.0)) else q
  }

  /** `toggleFlyMode`: flips the mode. */
  function ToggleFlyMode(p: FlyPlayer): (r: FlyPlayer)
    ensures r.flyMode == !p.flyMode && r.Consistent()
    ensures r.position == p.position && r.velocity.x == p.velocity.x && r.velocity.z == p.velocity.z
  {
    SetFlyMode(p, !p.flyMode)
  }

  /** `onLanding`: a flying player stops flying; otherwise nothing
      happens. The log message is not modelled. */
  function OnLanding(p: FlyPlayer): (r: FlyPlayer)
    ensures !r.flyMode
    ensures !p.flyMode ==> r == p
    ensures p.flyMode ==> r == SetFlyMode(p, false)
  {
    if p.flyMode then SetFlyMode(p, false) else p
  }

  /** Toggling twice restores the mode and the horizontal velocity, but
      not the vertical one: one of the two toggles entered flight and
      stopped it. */
  lemma ToggleTwice(p: FlyPlayer)
    ensures var r := ToggleFlyMode(ToggleFlyMode(p));
            && r.flyMode == p.flyMode && r.Consistent()
            && r.position == p.position && r.onGround == p.onGround
            && r.velocity == p.velocity.(y := 0.0)
  {
  }

  /** Setting the same mode twice is setting it once. */
  lemma SetFlyModeIdempotent(p: FlyPlayer, f: bool)
    ensures SetFlyMode(SetFlyMode(p, f), f) == SetFlyMode(p, f)
  {
  }

  /** Landing twice is landing once. */
  lemma OnLandingIdempotent(p: FlyPlayer)
    ensures OnLanding(OnLanding(p)) == OnLanding(p)
  {
  }

  /** The mode operations in sequence. */
  datatype ModeOp = SetMode(f: bool) | Toggle | Land

  function ApplyMode(p: FlyPlayer, op: ModeOp): FlyPlayer {
    match op
    case SetMode(f) => SetFlyMode(p, f)
    case Toggle => ToggleFlyMode(p)
    case Land => OnLanding(p)
  }

  function ApplyModes(p: FlyPlayer, ops: seq<ModeOp>): FlyPlayer
    decreases |ops|
  {
    if |ops| == 0 then p else ApplyModes(ApplyMode(p, ops[0]), ops[1..])
  }

  /** From a consistent player, every sequence of mode changes keeps
      gravity on exactly when not flying, and never moves the player. */
  lemma {:induction false} ModesStayConsistent(p: FlyPlayer, ops: seq<ModeOp>)
    requires p.Consistent()
    ensures ApplyModes(p, ops).Consistent()
    ensures ApplyModes(p, ops).position == p.position
    decreases |ops|
  {
    if |ops| > 0 {
      ModesStayConsistent(ApplyMode(p, ops[0]), ops[1..]);
    }
  }
}
