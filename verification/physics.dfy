/** The movement and collision kernel: gravity, axis-separated movement in
    the order Y, X, Z with snapping to the nearest block face, the ledge
    re-probe after horizontal movement, and jumping. The world is the flat
    list of unit-cube block centres. */
module Physics {
  import opened Vectors
  import opened Aabb
  import opened Players

  const BLOCK_SIZE: real := 1.0
  const BLOCK_HALF: real := BLOCK_SIZE / 2.0
  /** Depth of the ground probe below the feet. */
  const GROUND_EPSILON: real := 0.01

  /** The unit cube of a block centred at `b`. */
  function BlockBox(b: Vec3): Box {
    Cube(b, BLOCK_HALF)
  }

  predicate Hits(box: Box, b: Vec3) {
    Intersects(box, BlockBox(b))
  }

  /** Broad phase: does the box intersect any block of the world? */
  predicate Collides(box: Box, blocks: seq<Vec3>) {
    exists i :: 0 <= i < |blocks| && Hits(box, blocks[i])
  }

  /** A block's face met first when travelling along `a`: its low face for
      a positive move, its high face for a negative one. */
  function NearFace(b: Vec3, a: Axis, positive: bool): real {
    if positive then b.Get(a) - BLOCK_HALF else b.Get(a) + BLOCK_HALF
  }

  /** `r` is at least as close as `f` when travelling in that direction. */
  predicate NoFurther(r: real, f: real, positive: bool) {
    if positive then r <= f else f <= r
  }

  /** The extremum scans of the narrow phase, one function for the six
      directions: the lowest bottom face (ceiling, +Y), the highest top face
      (floor, -Y), the lowest left/back face (+X/+Z) and the highest
      right/front face (-X/-Z) among blocks the box intersects, scanning the
      list in order. `None` stands for the untouched sentinel, which is
      returned exactly when no block intersects the box. */
  function Contact(box: Box, blocks: seq<Vec3>, a: Axis, positive: bool): (r: Option<real>)
    ensures r.Some? <==> Collides(box, blocks)
    ensures r.Some? ==> exists i :: 0 <= i < |blocks| && Hits(box, blocks[i])
                                     && r.value == NearFace(blocks[i], a, positive)
    ensures r.Some? ==> forall i :: (0 <= i < |blocks| && Hits(box, blocks[i])
                                     ==> NoFurther(r.value, NearFace(blocks[i], a, positive), positive))
    decreases |blocks|
  {
    if |blocks| == 0 then None
    else
      var init := blocks[..|blocks| - 1];
      var b := blocks[|blocks| - 1];
      assert forall i :: 0 <= i < |init| ==> init[i] == blocks[i];
      var acc := Contact(box, init, a, positive);
      if !Hits(box, b) then
        assert Collides(box, blocks) ==> Collides(box, init);
        acc
      else
        var f := NearFace(b, a, positive);
        match acc
        case None => Some(f)
        case Some(v) => if (positive && f < v) || (!positive && f > v) then Some(f) else acc
  }

  /** Gravity acts only on an airborne body, and never drives the vertical
      speed below terminal velocity. */
  function ApplyGravity(p: Player, dt: real): (r: Player)
    ensures r.position == p.position && r.onGround == p.onGround && r.aabb == p.aabb
    ensures r.velocity.x == p.velocity.x && r.velocity.z == p.velocity.z
    ensures p.onGround ==> r.velocity.y == p.velocity.y
    ensures !p.onGround ==> r.velocity.y >= TERMINAL_VELOCITY
    ensures (!p.onGround && p.velocity.y + GRAVITY * dt >= TERMINAL_VELOCITY)
              ==> r.velocity.y == p.velocity.y - 20.0 * dt
    ensures (!p.onGround && p.velocity.y + GRAVITY * dt < TERMINAL_VELOCITY)
              ==> r.velocity.y == -50.0
  {
    if p.onGround then p
    else
      var vy := p.velocity.y + GRAVITY * dt;
      p.(velocity := p.velocity.(y := if vy < TERMINAL_VELOCITY then TERMINAL_VELOCITY else vy))
  }

  /** The feet after a tentative move of `d` along `a`. */
  function Candidate(p: Player, a: Axis, d: real): Vec3 {
    p.position.With(a, p.position.Get(a) + d)
  }

  /** The body face leading in the direction of travel along `a`. */
  function Leading(foot: Vec3, a: Axis, positive: bool): real {
    if positive then foot.Get(a) + Above(a) else foot.Get(a) - Below(a)
  }

  /** The foot coordinate that puts the leading face on `face`. */
  function SnapTarget(face: real, a: Axis, positive: bool): real {
    if positive then face - Above(a) else face + Below(a)
  }

  /** One axis of `moveAndCollide`: skipped for a zero displacement;
      otherwise the feet move by `d`, and on a collision snap back so that
      the leading face rests on the nearest contact face, with the velocity
      on that axis zeroed. Only a downward move touches the grounded flag:
      it is set on a landing and cleared on a free fall. */
  function MoveAxis(p: Player, blocks: seq<Vec3>, a: Axis, d: real): (r: Player)
    requires p.Valid()
    ensures r.Valid()
    ensures d == 0.0 ==> r == p
    ensures forall b: Axis :: b != a ==> (r.position.Get(b) == p.position.Get(b)
                                          && r.velocity.Get(b) == p.velocity.Get(b))
    ensures !(a == Y && d < 0.0) ==> r.onGround == p.onGround
    ensures a == Y && d < 0.0 ==> r.onGround == Collides(BodyBox(Candidate(p, a, d)), blocks)
    ensures (d != 0.0 && !Collides(BodyBox(Candidate(p, a, d)), blocks))
              ==> (r.position == Candidate(p, a, d) && r.velocity == p.velocity)
  {
    if d == 0.0 then p
    else
      var moved := SetPosition(p, Candidate(p, a, d));
      if Collides(moved.aabb, blocks) then
        var face := Contact(moved.aabb, blocks, a, d > 0.0).value;
        var snapped := SetPosition(moved, moved.position.With(a, SnapTarget(face, a, d > 0.0)));
        var stopped := snapped.(velocity := snapped.velocity.With(a, 0.0));
        if a == Y && d < 0.0 then SetOnGround(stopped, true) else stopped
      else if a == Y && d < 0.0 then SetOnGround(moved, false)
      else moved
  }

  // ---------------------------------------------------------------------
  // Geometry of body boxes against block cubes, one axis at a time.

  /** The body standing at `f` and the block at `b` overlap strictly on `ax`. */
  predicate SpanOverlap(f: Vec3, b: Vec3, ax: Axis) {
    f.Get(ax) + Above(ax) > b.Get(ax) - BLOCK_HALF && f.Get(ax) - Below(ax) < b.Get(ax) + BLOCK_HALF
  }

  lemma BlockBoxSpan(b: Vec3)
    ensures forall a: Axis :: BlockBox(b).min.Get(a) == b.Get(a) - BLOCK_HALF
                          && BlockBox(b).max.Get(a) == b.Get(a) + BLOCK_HALF
  {
    var c := BlockBox(b);
    assert c.min.Get(X) == c.center.Get(X) - c.Half(X) && c.max.Get(X) == c.center.Get(X) + c.Half(X);
    assert c.min.Get(Y) == c.center.Get(Y) - c.Half(Y) && c.max.Get(Y) == c.center.Get(Y) + c.Half(Y);
    assert c.min.Get(Z) == c.center.Get(Z) - c.Half(Z) && c.max.Get(Z) == c.center.Get(Z) + c.Half(Z);
  }

  /** A body hits a block exactly when their spans overlap on all three axes. */
  lemma HitsBySpans(f: Vec3, b: Vec3)
    ensures Hits(BodyBox(f), b) <==> SpanOverlap(f, b, X) && SpanOverlap(f, b, Y) && SpanOverlap(f, b, Z)
  {
    BodyBoxSpan(f);
    BlockBoxSpan(b);
    IntersectsOnAllAxes(BodyBox(f), BlockBox(b));
    assert OverlapOn(BodyBox(f), BlockBox(b), X) <==> SpanOverlap(f, b, X);
    assert OverlapOn(BodyBox(f), BlockBox(b), Y) <==> SpanOverlap(f, b, Y);
    assert OverlapOn(BodyBox(f), BlockBox(b), Z) <==> SpanOverlap(f, b, Z);
  }

  /** Two feet positions that agree off axis `a` hit a block iff the other
      one does, given overlap on `a`. */
  lemma HitsOffAxis(f: Vec3, g: Vec3, b: Vec3, a: Axis)
    requires forall c: Axis :: c != a ==> f.Get(c) == g.Get(c)
    ensures Hits(BodyBox(f), b) <==> SpanOverlap(f, b, a) && forall c: Axis :: c != a ==> SpanOverlap(g, b, c)
  {
    HitsBySpans(f, b);
    assert forall c: Axis :: c != a ==> (SpanOverlap(f, b, c) <==> SpanOverlap(g, b, c));
    assert SpanOverlap(f, b, X) && SpanOverlap(f, b, Y) && SpanOverlap(f, b, Z)
       <==> forall c: Axis :: SpanOverlap(f, b, c);
  }

  /** A blocked move: the velocity on the axis is zeroed, the leading face
      rests on the nearest near-face among the blocks the candidate box hit
      (it is attained by one of them and no hit block is nearer), and the
      resolved body no longer intersects any of those blocks. */
  lemma MoveAxisBlocked(p: Player, blocks: seq<Vec3>, a: Axis, d: real)
    requires p.Valid()
    requires d != 0.0 && Collides(BodyBox(Candidate(p, a, d)), blocks)
    ensures var r := MoveAxis(p, blocks, a, d);
            && r.velocity.Get(a) == 0.0
            && (exists i :: 0 <= i < |blocks| && Hits(BodyBox(Candidate(p, a, d)), blocks[i])
                            && Leading(r.position, a, d > 0.0) == NearFace(blocks[i], a, d > 0.0))
            && (forall i :: 0 <= i < |blocks| && Hits(BodyBox(Candidate(p, a, d)), blocks[i])
                            ==> NoFurther(Leading(r.position, a, d > 0.0), NearFace(blocks[i], a, d > 0.0), d > 0.0))
            && (forall i :: 0 <= i < |blocks| && Hits(BodyBox(Candidate(p, a, d)), blocks[i])
                            ==> !Hits(r.aabb, blocks[i]))
  {
    var r := MoveAxis(p, blocks, a, d);
    var cand := Candidate(p, a, d);
    var moved := SetPosition(p, cand);
    assert moved.aabb == BodyBox(cand);
    var face := Contact(moved.aabb, blocks, a, d > 0.0).value;
    assert r.position.Get(a) == SnapTarget(face, a, d > 0.0);
    assert Leading(r.position, a, d > 0.0) == face;
    forall i | 0 <= i < |blocks| && Hits(BodyBox(cand), blocks[i])
      ensures !Hits(r.aabb, blocks[i])
    {
      assert NoFurther(face, NearFace(blocks[i], a, d > 0.0), d > 0.0);
      assert !SpanOverlap(r.position, blocks[i], a);
      HitsBySpans(r.position, blocks[i]);
    }
  }

  /** Every block the candidate box hits lies at or beyond the start's
      leading face, when the start itself is clear. */
  lemma HitBlocksLieAhead(p: Player, blocks: seq<Vec3>, a: Axis, d: real, i: int)
    requires p.Valid() && !Collides(p.aabb, blocks)
    requires d != 0.0 && 0 <= i < |blocks| && Hits(BodyBox(Candidate(p, a, d)), blocks[i])
    ensures NoFurther(Leading(p.position, a, d > 0.0), NearFace(blocks[i], a, d > 0.0), d > 0.0)
  {
    var cand := Candidate(p, a, d);
    HitsOffAxis(cand, p.position, blocks[i], a);
    HitsOffAxis(p.position, p.position, blocks[i], a);
    assert !Hits(BodyBox(p.position), blocks[i]);
    assert !SpanOverlap(p.position, blocks[i], a);
    assert SpanOverlap(cand, blocks[i], a);
  }

  /** A blocked move from a clear start snaps to a point between the start
      (inclusive) and the candidate (exclusive): the snap never pulls the
      body back behind where it started. */
  lemma SnapBetweenStartAndCandidate(p: Player, blocks: seq<Vec3>, a: Axis, d: real)
    requires p.Valid() && !Collides(p.aabb, blocks)
    requires d != 0.0 && Collides(BodyBox(Candidate(p, a, d)), blocks)
    ensures var s, t := p.position.Get(a), MoveAxis(p, blocks, a, d).position.Get(a);
            && (d > 0.0 ==> s <= t < s + d)
            && (d < 0.0 ==> s + d < t <= s)
  {
    var r := MoveAxis(p, blocks, a, d);
    var cand := Candidate(p, a, d);
    var pos := d > 0.0;
    MoveAxisBlocked(p, blocks, a, d);
    var lead := Leading(r.position, a, pos);
    var j :| 0 <= j < |blocks| && Hits(BodyBox(cand), blocks[j]) && lead == NearFace(blocks[j], a, pos);
    HitBlocksLieAhead(p, blocks, a, d, j);
    HitsOffAxis(cand, p.position, blocks[j], a);
    assert SpanOverlap(cand, blocks[j], a);
    assert cand.Get(a) == p.position.Get(a) + d;
  }

  /** The one-axis arithmetic behind `MoveAxisStaysClear`: a body at `s`
      that did not overlap the block `[c - 0.5, c + 0.5]`, moved by `d`
      and snapped back to `t` between `s` and `s + d`, with its leading
      face no further than the block's near face if the candidate
      overlapped the block, does not overlap the block. */
  lemma SnapMissesBlock(s: real, d: real, t: real, c: real, below: real, above: real)
    requires d != 0.0
    requires -(below + above + BLOCK_SIZE) < d < below + above + BLOCK_SIZE
    requires !(s + above > c - BLOCK_HALF && s - below < c + BLOCK_HALF)
    requires d > 0.0 ==> s <= t < s + d
    requires d < 0.0 ==> s + d < t <= s
    requires (s + d + above > c - BLOCK_HALF && s + d - below < c + BLOCK_HALF) ==>
               (if d > 0.0 then t + above <= c - BLOCK_HALF else c + BLOCK_HALF <= t - below)
    ensures !(t + above > c - BLOCK_HALF && t - below < c + BLOCK_HALF)
  {
  }

  /** A body that started clear of block `b` and was snapped along axis
      `a` to a point between its start and its candidate, with its leading
      face no further than the block's near face whenever the candidate
      hit the block, ends clear of the block, provided the move is smaller
      than the body's extent plus one block. */
  lemma SnapLeavesBlockClear(p: Player, r: Player, b: Vec3, a: Axis, d: real)
    requires p.Valid() && r.Valid() && !Hits(p.aabb, b)
    requires d != 0.0 && -(Below(a) + Above(a) + BLOCK_SIZE) < d < Below(a) + Above(a) + BLOCK_SIZE
    requires forall c: Axis :: c != a ==> r.position.Get(c) == p.position.Get(c)
    requires d > 0.0 ==> p.position.Get(a) <= r.position.Get(a) < p.position.Get(a) + d
    requires d < 0.0 ==> p.position.Get(a) + d < r.position.Get(a) <= p.position.Get(a)
    requires Hits(BodyBox(Candidate(p, a, d)), b) ==>
               NoFurther(Leading(r.position, a, d > 0.0), NearFace(b, a, d > 0.0), d > 0.0)
    ensures !Hits(r.aabb, b)
  {
    var cand := Candidate(p, a, d);
    HitsOffAxis(r.position, p.position, b, a);
    HitsOffAxis(p.position, p.position, b, a);
    HitsOffAxis(cand, p.position, b, a);
    if forall c: Axis :: c != a ==> SpanOverlap(p.position, b, c) {
      assert cand.Get(a) == p.position.Get(a) + d;
      SnapMissesBlock(p.position.Get(a), d, r.position.Get(a), b.Get(a), Below(a), Above(a));
    }
  }

  /** Resolution along one axis keeps a body clear of every block, provided
      it started clear and moves less than its own extent plus one block
      along that axis (a larger step can pass through a block unseen). */
  lemma MoveAxisStaysClear(p: Player, blocks: seq<Vec3>, a: Axis, d: real)
    requires p.Valid()
    requires !Collides(p.aabb, blocks)
    requires -(Below(a) + Above(a) + BLOCK_SIZE) < d < Below(a) + Above(a) + BLOCK_SIZE
    ensures !Collides(MoveAxis(p, blocks, a, d).aabb, blocks)
  {
    if d != 0.0 && Collides(BodyBox(Candidate(p, a, d)), blocks) {
      var r := MoveAxis(p, blocks, a, d);
      MoveAxisBlocked(p, blocks, a, d);
      SnapBetweenStartAndCandidate(p, blocks, a, d);
      forall i | 0 <= i < |blocks|
        ensures !Hits(r.aabb, blocks[i])
      {
        SnapLeavesBlockClear(p, r, blocks[i], a, d);
      }
    }
  }

  /** The thin box just below the feet used by the ledge re-probe: centred
      0.01 below the feet, half-extents (0.3, 0.01, 0.3). */
  function ProbeBox(foot: Vec3): Box {
    Create(Vec3(foot.x, foot.y - GROUND_EPSILON, foot.z), HALF_WIDTH, GROUND_EPSILON, HALF_WIDTH)
  }

  /** The probe meets a block exactly when the block's footprint overlaps
      the body's strictly and its top lies within 0.02 below the feet up to
      (not including) one block above them, so standing flush on a top face
      counts as grounded. */
  lemma ProbeHits(foot: Vec3, b: Vec3)
    ensures Hits(ProbeBox(foot), b) <==>
              (-0.8 < foot.x - b.x < 0.8 && -0.8 < foot.z - b.z < 0.8
               && foot.y - 0.02 < b.y + 0.5 && b.y - 0.5 < foot.y)
  {
    var q := ProbeBox(foot);
    assert q.min.Get(X) == q.center.Get(X) - q.Half(X) && q.max.Get(X) == q.center.Get(X) + q.Half(X);
    assert q.min.Get(Y) == q.center.Get(Y) - q.Half(Y) && q.max.Get(Y) == q.center.Get(Y) + q.Half(Y);
    assert q.min.Get(Z) == q.center.Get(Z) - q.Half(Z) && q.max.Get(Z) == q.center.Get(Z) + q.Half(Z);
    BlockBoxSpan(b);
  }

  /** Ledge re-probe: the grounded flag becomes whether the probe below the
      feet meets any block; nothing else changes. */
  function CheckGroundBelow(p: Player, blocks: seq<Vec3>): (r: Player)
    ensures r.onGround <==> exists i :: 0 <= i < |blocks| && Hits(ProbeBox(p.position), blocks[i])
    ensures r.position == p.position && r.velocity == p.velocity && r.aabb == p.aabb
  {
    SetOnGround(p, Collides(ProbeBox(p.position), blocks))
  }

  /** `moveAndCollide`: Y, then X, then Z, then the ledge re-probe when the
      body was asked to move horizontally. */
  function MoveAndCollide(p: Player, blocks: seq<Vec3>, dx: real, dy: real, dz: real): (r: Player)
    requires p.Valid()
    ensures r.Valid()
    ensures dx == 0.0 && dy == 0.0 && dz == 0.0 ==> r == p
    ensures dx != 0.0 || dz != 0.0 ==> r.onGround == Collides(ProbeBox(r.position), blocks)
    ensures dx == 0.0 && dz == 0.0 ==> r.onGround == MoveAxis(p, blocks, Y, dy).onGround
  {
    var afterY := MoveAxis(p, blocks, Y, dy);
    var afterX := MoveAxis(afterY, blocks, X, dx);
    var afterZ := MoveAxis(afterX, blocks, Z, dz);
    if dx != 0.0 || dz != 0.0 then CheckGroundBelow(afterZ, blocks) else afterZ
  }

  /** The per-frame entry point: gravity, then the velocity times the frame
      time resolved axis by axis. */
  function Update(p: Player, blocks: seq<Vec3>, dt: real): (r: Player)
    requires p.Valid()
    ensures r.Valid()
  {
    var g := ApplyGravity(p, dt);
    var d := g.velocity.Scale(dt);
    MoveAndCollide(g, blocks, d.x, d.y, d.z)
  }

  /** A grounded body at rest is a fixed point of `Update`, whatever the
      world and the frame time. */
  lemma RestIsFixedPoint(p: Player, blocks: seq<Vec3>, dt: real)
    requires p.Valid() && p.onGround && p.velocity == Zero
    ensures Update(p, blocks, dt) == p
  {
    var g := ApplyGravity(p, dt);
    assert g == p;
    assert g.velocity.x * dt == 0.0 && g.velocity.y * dt == 0.0 && g.velocity.z * dt == 0.0;
  }

  /** Resolution as a whole keeps a clear body clear when each displacement
      is smaller than the body's extent plus one block on its axis. */
  lemma MoveAndCollideStaysClear(p: Player, blocks: seq<Vec3>, dx: real, dy: real, dz: real)
    requires p.Valid() && !Collides(p.aabb, blocks)
    requires -1.6 < dx < 1.6 && -2.8 < dy < 2.8 && -1.6 < dz < 1.6
    ensures !Collides(MoveAndCollide(p, blocks, dx, dy, dz).aabb, blocks)
  {
    var afterY := MoveAxis(p, blocks, Y, dy);
    MoveAxisStaysClear(p, blocks, Y, dy);
    var afterX := MoveAxis(afterY, blocks, X, dx);
    MoveAxisStaysClear(afterY, blocks, X, dx);
    MoveAxisStaysClear(afterX, blocks, Z, dz);
  }

  /** Non-penetration per frame: with frame time at most 0.05 s and speeds
      within the bounds below, a body that starts clear of every block ends
      the frame clear of every block. */
  lemma UpdateStaysClear(p: Player, blocks: seq<Vec3>, dt: real)
    requires p.Valid() && !Collides(p.aabb, blocks)
    requires 0.0 <= dt <= 0.05
    requires -30.0 <= p.velocity.x <= 30.0 && -30.0 <= p.velocity.z <= 30.0
    requires -50.0 <= p.velocity.y <= 50.0
    ensures !Collides(Update(p, blocks, dt).aabb, blocks)
  {
    var g := ApplyGravity(p, dt);
    assert -50.0 <= g.velocity.y <= 50.0 by {
      assert g.velocity.y <= p.velocity.y;
    }
    var d := g.velocity.Scale(dt);
    BoundedProduct(g.velocity.x, dt, 30.0);
    BoundedProduct(g.velocity.y, dt, 50.0);
    BoundedProduct(g.velocity.z, dt, 30.0);
    MoveAndCollideStaysClear(g, blocks, d.x, d.y, d.z);
  }

  lemma BoundedProduct(v: real, dt: real, m: real)
    requires -m <= v <= m && 0.0 <= dt <= 0.05
    ensures -m * 0.05 <= dt * v <= m * 0.05
  {
    if v >= 0.0 {
      assert dt * v <= 0.05 * v <= m * 0.05;
    } else {
      assert v * (dt - 0.05) >= 0.0;
      assert dt * v >= 0.05 * v >= -m * 0.05;
    }
  }

  /** Tunnelling: at terminal speed with a frame time of 0.1 s, a body just
      above a single block ends the frame entirely below it, never having
      been found to collide. */
  lemma TerminalFallTunnels()
    ensures var p := SetOnGround(NewPlayer(Vec3(0.0, 1.0, 0.0)), false).(velocity := Vec3(0.0, -50.0, 0.0));
            var r := Update(p, [Zero], 0.1);
            && !Collides(p.aabb, [Zero])
            && p.aabb.min.y > BlockBox(Zero).max.y
            && r.aabb.max.y < BlockBox(Zero).min.y
  {
    var p := SetOnGround(NewPlayer(Vec3(0.0, 1.0, 0.0)), false).(velocity := Vec3(0.0, -50.0, 0.0));
    BlockBoxSpan(Zero);
    BodyBoxSpan(p.position);
    HitsBySpans(p.position, Zero);
    var g := ApplyGravity(p, 0.1);
    assert g.velocity == Vec3(0.0, -50.0, 0.0);
    var cand := Candidate(g, Y, -5.0);
    assert cand == Vec3(0.0, -4.0, 0.0);
    HitsBySpans(cand, Zero);
    assert !Collides(BodyBox(cand), [Zero]);
    var r := Update(p, [Zero], 0.1);
    assert r == MoveAxis(g, [Zero], Y, -5.0);
    BodyBoxSpan(r.position);
  }

  /** Penetration: at terminal speed with a frame time of 0.1 s, a body
      falling past a block onto another one lands inside the block it
      passed. The candidate misses the upper block, the snap rests the feet
      on the lower block's top, and the body then overlaps the upper one. */
  lemma TerminalFallPenetrates()
    ensures var p := SetOnGround(NewPlayer(Vec3(0.0, 4.0, 0.0)), false).(velocity := Vec3(0.0, -50.0, 0.0));
            var blocks := [Zero, Vec3(0.0, 2.0, 0.0)];
            && !Collides(p.aabb, blocks)
            && Collides(Update(p, blocks, 0.1).aabb, blocks)
  {
    var p := SetOnGround(NewPlayer(Vec3(0.0, 4.0, 0.0)), false).(velocity := Vec3(0.0, -50.0, 0.0));
    var upper := Vec3(0.0, 2.0, 0.0);
    var blocks := [Zero, upper];
    BlockBoxSpan(Zero);
    BlockBoxSpan(upper);
    HitsBySpans(p.position, Zero);
    HitsBySpans(p.position, upper);
    assert !Collides(p.aabb, blocks);
    var g := ApplyGravity(p, 0.1);
    assert g.velocity == Vec3(0.0, -50.0, 0.0);
    var cand := Candidate(g, Y, -5.0);
    assert cand == Vec3(0.0, -1.0, 0.0);
    HitsBySpans(cand, Zero);
    HitsBySpans(cand, upper);
    assert Hits(BodyBox(cand), blocks[0]);
    assert !Hits(BodyBox(cand), blocks[1]);
    var r := Update(p, blocks, 0.1);
    assert r == MoveAxis(g, blocks, Y, -5.0);
    MoveAxisBlocked(g, blocks, Y, -5.0);
    assert r.position.y == 0.5;
    assert r.position == Vec3(0.0, 0.5, 0.0);
    HitsBySpans(r.position, upper);
    assert Hits(r.aabb, blocks[1]);
  }

  /** Jumping works only from the ground: it sets the vertical speed to the
      jump speed and leaves the ground; in the air it changes nothing. */
  function TryJump(p: Player): (r: Player)
    ensures p.onGround ==> r.velocity.y == JUMP_VELOCITY && !r.onGround
    ensures p.onGround ==> (r.position == p.position && r.aabb == p.aabb
                            && r.velocity.x == p.velocity.x && r.velocity.z == p.velocity.z)
    ensures !p.onGround ==> r == p
  {
    if p.onGround then SetOnGround(p.(velocity := p.velocity.(y := JUMP_VELOCITY)), false)
    else p
  }
}
