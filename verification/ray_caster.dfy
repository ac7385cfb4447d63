/** Block picking by ray marching: starting from the ray's origin, the
    point advances by 0.05 along the unit direction, up to 200 times (a
    march of 10 units), and the first block of the world list containing
    the current point is returned. The origin itself is never sampled. */
module RayCasting {
  import opened Vectors

  const MAX_DISTANCE: real := 10.0
  const STEP: real := 0.05
  /** The number of samples: `distance` runs over 0, 0.05, ..., 9.95. */
  const SAMPLES: nat := 200
  const HALF_SIZE: real := 0.5

  /** The closed unit cube of the block centred at `b` contains `p`:
      points on a face count as inside. */
  predicate PointInBlock(p: Vec3, b: Vec3) {
    b.x - HALF_SIZE <= p.x <= b.x + HALF_SIZE &&
    b.y - HALF_SIZE <= p.y <= b.y + HALF_SIZE &&
    b.z - HALF_SIZE <= p.z <= b.z + HALF_SIZE
  }

  /** The step vector: 0.05 along the normalised direction `unit`, which
      is the caller's direction after libGDX's `nor`. */
  function StepVector(unit: Vec3): Vec3 {
    unit.Scale(STEP)
  }

  /** The inner scan: the first block of the list whose cube contains `p`. */
  function FirstBlockAt(p: Vec3, blocks: seq<Vec3>): (r: Option<Vec3>)
    ensures r.None? <==> forall i :: 0 <= i < |blocks| ==> !PointInBlock(p, blocks[i])
    ensures r.Some? ==> exists i :: (0 <= i < |blocks| && blocks[i] == r.value && PointInBlock(p, blocks[i])
                                     && forall j :: 0 <= j < i ==> !PointInBlock(p, blocks[j]))
    decreases |blocks|
  {
    if |blocks| == 0 then None
    else if PointInBlock(p, blocks[0]) then Some(blocks[0])
    else
      var r := FirstBlockAt(p, blocks[1..]);
      assert forall i :: 1 <= i < |blocks| ==> blocks[i] == blocks[1..][i - 1];
      r
  }

  /** Some block's cube contains `p`. */
  predicate InSomeBlock(p: Vec3, blocks: seq<Vec3>) {
    exists i :: 0 <= i < |blocks| && PointInBlock(p, blocks[i])
  }

  /** The `n` sample points of the march from `c`: each one step beyond
      the previous, the first one step beyond `c` itself. */
  function Samples(c: Vec3, step: Vec3, n: nat): (pts: seq<Vec3>)
    ensures |pts| == n
    ensures n > 0 ==> pts[0] == c.Add(step)
    decreases n
  {
    if n == 0 then []
    else
      var rest := Samples(c.Add(step), step, n - 1);
      [c.Add(step)] + rest
  }

  /** Each sample lies one step beyond the previous one. */
  lemma {:induction false} SamplesStep(c: Vec3, step: Vec3, n: nat, j: nat)
    requires 0 < j < n
    ensures Samples(c, step, n)[j] == Samples(c, step, n)[j - 1].Add(step)
    decreases n
  {
    if j > 1 {
      SamplesStep(c.Add(step), step, n - 1, j - 1);
    }
  }

  /** Sample `j` of a march of any step lies `j + 1` steps from the start. */
  lemma {:induction false} SamplesAt(c: Vec3, step: Vec3, n: nat, j: nat)
    requires j < n
    ensures var k := (j + 1) as real;
            Samples(c, step, n)[j] == Vec3(c.x + k * step.x, c.y + k * step.y, c.z + k * step.z)
    decreases j
  {
    if j > 0 {
      SamplesAt(c, step, n, j - 1);
      SamplesStep(c, step, n, j);
      var k := j as real;
      assert (k + 1.0) * step.x == k * step.x + step.x;
      assert (k + 1.0) * step.y == k * step.y + step.y;
      assert (k + 1.0) * step.z == k * step.z + step.z;
    }
  }

  /** Whatever the direction, a march with a non-zero step never samples
      its own starting point. */
  lemma OriginNeverSampled(c: Vec3, step: Vec3, n: nat, j: nat)
    requires step != Zero && j < n
    ensures Samples(c, step, n)[j] != c
  {
    SamplesAt(c, step, n, j);
    var k := (j + 1) as real;
    var s := Samples(c, step, n)[j];
    if step.x != 0.0 {
      assert k * step.x != 0.0;
      assert s.x != c.x;
    } else if step.y != 0.0 {
      assert k * step.y != 0.0;
      assert s.y != c.y;
    } else {
      assert step.z != 0.0 && k * step.z != 0.0;
      assert s.z != c.z;
    }
  }

  /** The reference pick over a list of sample points: the earliest point
      inside some block decides, and the answer is the first block of the
      list containing it. */
  function FirstHit(pts: seq<Vec3>, blocks: seq<Vec3>): (r: Option<Vec3>)
    ensures r.None? <==> forall j :: 0 <= j < |pts| ==> !InSomeBlock(pts[j], blocks)
    ensures r.Some? ==> r.value in blocks
    decreases |pts|
  {
    if |pts| == 0 then None
    else
      var first := FirstBlockAt(pts[0], blocks);
      if first.Some? then
        assert InSomeBlock(pts[0], blocks);
        first
      else
        assert forall j :: 1 <= j < |pts| ==> pts[j] == pts[1..][j - 1];
        FirstHit(pts[1..], blocks)
  }

  /** None of the first `j` sample points lies in a block. */
  predicate NoneBefore(pts: seq<Vec3>, blocks: seq<Vec3>, j: int)
    requires j <= |pts|
  {
    forall m :: 0 <= m < j ==> !InSomeBlock(pts[m], blocks)
  }

  lemma ConsNoneBefore(pts: seq<Vec3>, blocks: seq<Vec3>, j: nat)
    requires 0 < |pts| && j < |pts|
    requires !InSomeBlock(pts[0], blocks) && NoneBefore(pts[1..], blocks, j)
    ensures NoneBefore(pts, blocks, j + 1)
  {
    forall m | 0 < m < j + 1
      ensures !InSomeBlock(pts[m], blocks)
    {
      assert pts[m] == pts[1..][m - 1];
    }
  }

  /** A pick is made at the earliest sample lying in some block, and it is
      the first block of the list containing that sample. */
  lemma {:induction false} FirstHitIsEarliest(pts: seq<Vec3>, blocks: seq<Vec3>)
    ensures var r := FirstHit(pts, blocks);
            r.Some? ==> exists j :: 0 <= j < |pts| && r == FirstBlockAt(pts[j], blocks) && NoneBefore(pts, blocks, j)
    decreases |pts|
  {
    var r := FirstHit(pts, blocks);
    if |pts| > 0 && r.Some? {
      if FirstBlockAt(pts[0], blocks).Some? {
        assert NoneBefore(pts, blocks, 0);
      } else {
        assert r == FirstHit(pts[1..], blocks);
        FirstHitIsEarliest(pts[1..], blocks);
        var j :| 0 <= j < |pts[1..]| && r == FirstBlockAt(pts[1..][j], blocks) && NoneBefore(pts[1..], blocks, j);
        ConsNoneBefore(pts, blocks, j);
        assert pts[1..][j] == pts[j + 1];
      }
    }
  }

  /** The inner loop of `raycast`: the block list in order, stopping at
      the first block containing `p`. */
  method ScanBlocks(p: Vec3, blocks: seq<Vec3>) returns (r: Option<Vec3>)
    ensures r == FirstBlockAt(p, blocks)
  {
    var i := 0;
    while i < |blocks|
      invariant 0 <= i <= |blocks|
      invariant forall j :: 0 <= j < i ==> !PointInBlock(p, blocks[j])
    {
      if PointInBlock(p, blocks[i]) {
        FirstFromPrefix(p, blocks, i);
        return Some(blocks[i]);
      }
      i := i + 1;
    }
    return None;
  }

  /** The pick from sample `k` on is decided at sample `k` if it lies in
      a block, and is the pick from sample `k + 1` on otherwise. */
  lemma FirstHitFrom(pts: seq<Vec3>, blocks: seq<Vec3>, k: nat)
    requires k < |pts|
    ensures FirstBlockAt(pts[k], blocks).Some? ==> FirstHit(pts[k..], blocks) == FirstBlockAt(pts[k], blocks)
    ensures FirstBlockAt(pts[k], blocks).None? ==> FirstHit(pts[k..], blocks) == FirstHit(pts[k + 1..], blocks)
  {
    assert pts[k..][0] == pts[k];
    assert pts[k..][1..] == pts[k + 1..];
  }

  /** `raycast`: the loop over the travelled distance with the point
      advanced by one step before each scan of the block list. Returns the
      first block met, or `None` when no block is met. */
  method Raycast(origin: Vec3, unit: Vec3, blocks: seq<Vec3>) returns (r: Option<Vec3>)
    ensures r == FirstHit(Samples(origin, StepVector(unit), SAMPLES), blocks)
  {
    var step := StepVector(unit);
    ghost var pts := Samples(origin, step, SAMPLES);
    var current := origin;
    var distance := 0.0;
    ghost var k: nat := 0;
    while distance < MAX_DISTANCE
      invariant k <= SAMPLES && distance == k as real * STEP
      invariant current == if k == 0 then origin else pts[k - 1]
      invariant FirstHit(pts, blocks) == FirstHit(pts[k..], blocks)
      decreases SAMPLES - k
    {
      if k > 0 {
        SamplesStep(origin, step, SAMPLES, k);
      }
      current := current.Add(step);
      assert current == pts[k];
      FirstHitFrom(pts, blocks, k);
      k := k + 1;
      var found := ScanBlocks(current, blocks);
      if found.Some? {
        return found;
      }
      distance := distance + STEP;
    }
    return None;
  }

  /** When no block before `i` contains `p` and `blocks[i]` does, the
      inner scan answers `blocks[i]`. */
  lemma {:induction false} FirstFromPrefix(p: Vec3, blocks: seq<Vec3>, i: nat)
    requires i < |blocks| && PointInBlock(p, blocks[i])
    requires forall j :: 0 <= j < i ==> !PointInBlock(p, blocks[j])
    ensures FirstBlockAt(p, blocks) == Some(blocks[i])
    decreases i
  {
    if i > 0 {
      assert blocks[1..][i - 1] == blocks[i];
      FirstFromPrefix(p, blocks[1..], i - 1);
    }
  }

  /** Block `b` lies wholly behind the start `o` of a march with step
      `step`, measured along axis `a`: the march moves forward on `a` and
      the block's whole extent on `a` ends at or before `o`, or it moves
      backward and the block's extent starts at or after `o`. */
  predicate Behind(o: Vec3, step: Vec3, a: Axis, b: Vec3) {
    || (step.Get(a) > 0.0 && b.Get(a) + HALF_SIZE <= o.Get(a))
    || (step.Get(a) < 0.0 && o.Get(a) <= b.Get(a) - HALF_SIZE)
  }

  /** Along any axis, every sample lies strictly on the side of the start
      that the step points to, or level with the start when the step has
      no component on that axis. */
  lemma SamplesAdvance(o: Vec3, step: Vec3, n: nat, j: nat, a: Axis)
    requires j < n
    ensures var p := Samples(o, step, n)[j];
            && (step.Get(a) > 0.0 ==> p.Get(a) > o.Get(a))
            && (step.Get(a) < 0.0 ==> p.Get(a) < o.Get(a))
            && (step.Get(a) == 0.0 ==> p.Get(a) == o.Get(a))
  {
    SamplesAt(o, step, n, j);
    AdvanceOn(o, step, (j + 1) as real, Samples(o, step, n)[j], a);
  }

  /** A point `k > 0` steps from `o` lies on the side of `o` the step
      points to, on every axis. */
  lemma AdvanceOn(o: Vec3, step: Vec3, k: real, p: Vec3, a: Axis)
    requires k > 0.0
    requires p == Vec3(o.x + k * step.x, o.y + k * step.y, o.z + k * step.z)
    ensures step.Get(a) > 0.0 ==> p.Get(a) > o.Get(a)
    ensures step.Get(a) < 0.0 ==> p.Get(a) < o.Get(a)
    ensures step.Get(a) == 0.0 ==> p.Get(a) == o.Get(a)
  {
    ProductSign(k, step.Get(a));
  }

  /** A positive factor keeps the sign of the other. */
  lemma ProductSign(k: real, s: real)
    requires k > 0.0
    ensures s > 0.0 ==> k * s > 0.0
    ensures s < 0.0 ==> k * s < 0.0
    ensures s == 0.0 ==> k * s == 0.0
  {
  }

  /** A point in a block's closed cube lies within the block's extent on
      every axis. */
  lemma InBlockOnAxis(p: Vec3, b: Vec3, a: Axis)
    ensures PointInBlock(p, b) ==> b.Get(a) - HALF_SIZE <= p.Get(a) <= b.Get(a) + HALF_SIZE
  {
  }

  /** Whatever the direction, a march never picks a block lying wholly
      behind its starting point along an axis the march moves on. */
  lemma BehindStartNeverPicked(o: Vec3, step: Vec3, a: Axis, blocks: seq<Vec3>, n: nat)
    requires forall i :: 0 <= i < |blocks| ==> Behind(o, step, a, blocks[i])
    ensures FirstHit(Samples(o, step, n), blocks) == None
  {
    var pts := Samples(o, step, n);
    forall j | 0 <= j < n
      ensures !InSomeBlock(pts[j], blocks)
    {
      SamplesAdvance(o, step, n, j, a);
      forall i | 0 <= i < |blocks|
        ensures !PointInBlock(pts[j], blocks[i])
      {
        InBlockOnAxis(pts[j], blocks[i], a);
      }
    }
  }

  /** The origin is never sampled: from a point on the +X face of a block,
      aiming along +X, a march of any length never picks that block, even
      though the starting point lies in the block's closed cube. */
  lemma OriginNeverTested(o: Vec3, b: Vec3, n: nat)
    requires PointInBlock(o, b) && o.x == b.x + HALF_SIZE
    ensures FirstHit(Samples(o, StepVector(Vec3(1.0, 0.0, 0.0)), n), [b]) == None
  {
    var step := StepVector(Vec3(1.0, 0.0, 0.0));
    assert step.Get(X) == 0.05;
    assert Behind(o, step, X, [b][0]);
    BehindStartNeverPicked(o, step, X, [b], n);
  }
}
