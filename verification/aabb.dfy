/** Axis-aligned bounding box: a centre, three half-extents and the cached
    min/max corners, which every constructor and mutator recomputes from
    the centre and the half-extents. Mutators return the updated box. */
module Aabb {
  import opened Vectors

  datatype Box = Box(center: Vec3, halfWidth: real, halfHeight: real, halfDepth: real,
                     min: Vec3, max: Vec3)
  {
    /** The half-extent along axis `a` (width on X, height on Y, depth on Z). */
    function Half(a: Axis): real {
      match a
      case X => halfWidth
      case Y => halfHeight
      case Z => halfDepth
    }

    /** The cache invariant: `min = center - half` and `max = center + half`
        on every axis. */
    predicate Consistent() {
      forall a: Axis :: min.Get(a) == center.Get(a) - Half(a) && max.Get(a) == center.Get(a) + Half(a)
    }
  }

  /** Recomputes the cached corners from the centre and the half-extents. */
  function UpdateBounds(b: Box): (r: Box)
    ensures r.Consistent()
    ensures r.center == b.center
    ensures forall a: Axis :: r.Half(a) == b.Half(a)
  {
    var c := b.center;
    b.(min := Vec3(c.x - b.halfWidth, c.y - b.halfHeight, c.z - b.halfDepth),
       max := Vec3(c.x + b.halfWidth, c.y + b.halfHeight, c.z + b.halfDepth))
  }

  /** The box constructor with three half-extents. Negative extents are not
      rejected. */
  function Create(center: Vec3, halfWidth: real, halfHeight: real, halfDepth: real): (r: Box)
    ensures r.Consistent()
    ensures r.center == center
    ensures r.Half(X) == halfWidth && r.Half(Y) == halfHeight && r.Half(Z) == halfDepth
  {
    UpdateBounds(Box(center, halfWidth, halfHeight, halfDepth, Zero, Zero))
  }

  /** The cube constructor: one half-size on all three axes. */
  function Cube(center: Vec3, halfSize: real): (r: Box)
    ensures r.Consistent()
    ensures r.center == center
    ensures forall a: Axis :: r.Half(a) == halfSize
  {
    Create(center, halfSize, halfSize, halfSize)
  }

  /** Moves the box to a new centre, keeping its half-extents. */
  function SetCenter(b: Box, c: Vec3): (r: Box)
    ensures r.Consistent()
    ensures r.center == c
    ensures forall a: Axis :: r.Half(a) == b.Half(a)
  {
    UpdateBounds(b.(center := c))
  }

  /** Resizes the box, keeping its centre. */
  function SetSize(b: Box, halfWidth: real, halfHeight: real, halfDepth: real): (r: Box)
    ensures r.Consistent()
    ensures r.center == b.center
    ensures r.Half(X) == halfWidth && r.Half(Y) == halfHeight && r.Half(Z) == halfDepth
  {
    UpdateBounds(b.(halfWidth := halfWidth, halfHeight := halfHeight, halfDepth := halfDepth))
  }

  /** Translates the centre by `(dx, dy, dz)`, keeping the half-extents. */
  function Offset(b: Box, dx: real, dy: real, dz: real): (r: Box)
    ensures r.Consistent()
    ensures r.center == Vec3(b.center.x + dx, b.center.y + dy, b.center.z + dz)
    ensures forall a: Axis :: r.Half(a) == b.Half(a)
  {
    UpdateBounds(b.(center := b.center.Add(Vec3(dx, dy, dz))))
  }

  /** Strict overlap on one axis: touching faces do not overlap. */
  predicate OverlapOn(a: Box, b: Box, ax: Axis) {
    a.max.Get(ax) > b.min.Get(ax) && a.min.Get(ax) < b.max.Get(ax)
  }

  /** The box intersection test: strict overlap on X, Y and Z. */
  predicate Intersects(a: Box, b: Box) {
    a.max.x > b.min.x && a.min.x < b.max.x &&
    a.max.y > b.min.y && a.min.y < b.max.y &&
    a.max.z > b.min.z && a.min.z < b.max.z
  }

  /** Intersection is strict overlap on every axis. */
  lemma IntersectsOnAllAxes(a: Box, b: Box)
    ensures Intersects(a, b) <==> forall ax: Axis :: OverlapOn(a, b, ax)
  {
    assert OverlapOn(a, b, X) && OverlapOn(a, b, Y) && OverlapOn(a, b, Z) ==> forall ax: Axis :: OverlapOn(a, b, ax);
  }

  /** For boxes whose caches are consistent, intersection means that on
      every axis the centres are closer than the sum of the half-extents. */
  lemma IntersectsByCenters(a: Box, b: Box)
    requires a.Consistent() && b.Consistent()
    ensures Intersects(a, b) <==>
              forall ax: Axis :: b.center.Get(ax) - a.center.Get(ax) < a.Half(ax) + b.Half(ax)
                              && a.center.Get(ax) - b.center.Get(ax) < a.Half(ax) + b.Half(ax)
  {
    IntersectsOnAllAxes(a, b);
    forall ax: Axis
      ensures OverlapOn(a, b, ax) <==>
                (b.center.Get(ax) - a.center.Get(ax) < a.Half(ax) + b.Half(ax)
                 && a.center.Get(ax) - b.center.Get(ax) < a.Half(ax) + b.Half(ax))
    {
      assert a.min.Get(ax) == a.center.Get(ax) - a.Half(ax) && a.max.Get(ax) == a.center.Get(ax) + a.Half(ax);
      assert b.min.Get(ax) == b.center.Get(ax) - b.Half(ax) && b.max.Get(ax) == b.center.Get(ax) + b.Half(ax);
    }
  }

  lemma IntersectsSymmetric(a: Box, b: Box)
    ensures Intersects(a, b) <==> Intersects(b, a)
  {
  }

  /** Boxes that only share a face on some axis do not intersect. */
  lemma FaceContactIsNotIntersection(a: Box, b: Box, ax: Axis)
    requires a.max.Get(ax) == b.min.Get(ax)
    ensures !Intersects(a, b) && !Intersects(b, a)
  {
    IntersectsOnAllAxes(a, b);
    IntersectsOnAllAxes(b, a);
    assert !OverlapOn(a, b, ax) && !OverlapOn(b, a, ax);
  }

  /** A consistent box with positive half-extents intersects itself; with
      a zero half-extent on some axis it does not. */
  lemma SelfIntersection(b: Box)
    requires b.Consistent()
    ensures Intersects(b, b) <==> (b.halfWidth > 0.0 && b.halfHeight > 0.0 && b.halfDepth > 0.0)
  {
    assert b.min.Get(X) == b.center.Get(X) - b.Half(X) && b.max.Get(X) == b.center.Get(X) + b.Half(X);
    assert b.min.Get(Y) == b.center.Get(Y) - b.Half(Y) && b.max.Get(Y) == b.center.Get(Y) + b.Half(Y);
    assert b.min.Get(Z) == b.center.Get(Z) - b.Half(Z) && b.max.Get(Z) == b.center.Get(Z) + b.Half(Z);
  }

  /** Offsetting is moving the centre by the same displacement. */
  lemma OffsetIsSetCenter(b: Box, dx: real, dy: real, dz: real)
    ensures Offset(b, dx, dy, dz) == SetCenter(b, Vec3(b.center.x + dx, b.center.y + dy, b.center.z + dz))
  {
  }

  /** A consistent box is determined by its centre and half-extents, so
      resizing to the current size, or re-centring on the current centre,
      changes nothing. */
  lemma ResettingIsIdentity(b: Box)
    requires b.Consistent()
    ensures SetCenter(b, b.center) == b
    ensures SetSize(b, b.halfWidth, b.halfHeight, b.halfDepth) == b
  {
    assert b.min.Get(X) == b.center.Get(X) - b.Half(X) && b.max.Get(X) == b.center.Get(X) + b.Half(X);
    assert b.min.Get(Y) == b.center.Get(Y) - b.Half(Y) && b.max.Get(Y) == b.center.Get(Y) + b.Half(Y);
    assert b.min.Get(Z) == b.center.Get(Z) - b.Half(Z) && b.max.Get(Z) == b.center.Get(Z) + b.Half(Z);
  }
}
