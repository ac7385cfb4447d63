/** The staircase test world: an n-by-n grid of blocks centred on the
    origin, `spacing` apart, whose heights rise by `height` per step in x
    and in z. Each block also gets its six face instances for rendering;
    only their number is modelled. */
module Staircase {
  import opened Vectors

  /** Render instances created per block: one per face. */
  const INSTANCES_PER_BLOCK: nat := 6

  /** The world's block list and the size of its render instance list. */
  datatype World = World(blocks: seq<Vec3>, instanceCount: nat)

  /** The grid coordinate of a block whose index is `x` after centring:
      `x * spacing` shifted by half the grid's extent. */
  function GridCoord(n: int, spacing: real, x: int): real {
    x as real * spacing - (n - 1) as real * spacing * 0.5
  }

  /** The block at grid cell `(x, z)`. */
  function StairBlock(n: int, spacing: real, height: real, x: int, z: int): Vec3 {
    Vec3(GridCoord(n, spacing, x), (x + z) as real * height, GridCoord(n, spacing, z))
  }

  /** Row `x` of the grid: cells `(x, 0)` to `(x, m - 1)` in order. */
  function Row(n: int, spacing: real, height: real, x: int, m: nat): (r: seq<Vec3>)
    ensures |r| == m
    ensures forall z :: 0 <= z < m ==> r[z] == StairBlock(n, spacing, height, x, z)
  {
    if m == 0 then [] else Row(n, spacing, height, x, m - 1) + [StairBlock(n, spacing, height, x, m - 1)]
  }

  /** The first `k` rows of an `n`-wide grid, row after row. */
  function Grid(n: nat, spacing: real, height: real, k: nat): (r: seq<Vec3>)
    ensures |r| == k * n
  {
    if k == 0 then [] else Grid(n, spacing, height, k - 1) + Row(n, spacing, height, k - 1, n)
  }

  /** Cell `(x, z)` of the grid sits at index `x * n + z`. */
  lemma {:induction false} GridIndex(n: nat, spacing: real, height: real, k: nat, x: nat, z: nat)
    requires x < k && z < n
    ensures x * n + z < k * n
    ensures Grid(n, spacing, height, k)[x * n + z] == StairBlock(n, spacing, height, x, z)
  {
    var prev := Grid(n, spacing, height, k - 1);
    assert |prev| == (k - 1) * n;
    if x < k - 1 {
      GridIndex(n, spacing, height, k - 1, x, z);
    } else {
      assert x * n == (k - 1) * n;
    }
  }

  /** The side of the grid: a non-positive `gridSize` builds nothing. */
  function Side(n: int): nat {
    if n < 0 then 0 else n
  }

  /** `createStaircaseGround`: a fresh world whose grid is built row by
      row, `x` outer and `z` inner, with six render instances per block. */
  method CreateStaircaseGround(n: int, spacing: real, height: real) returns (w: World)
    ensures w.blocks == Grid(Side(n), spacing, height, Side(n))
    ensures n <= 0 ==> w.blocks == [] && w.instanceCount == 0
    ensures |w.blocks| == Side(n) * Side(n)
    ensures w.instanceCount == INSTANCES_PER_BLOCK * |w.blocks|
  {
    var size := Side(n);
    var blocks: seq<Vec3> := [];
    var count: nat := 0;
    var x := 0;
    while x < n
      invariant 0 <= x <= size
      invariant blocks == Grid(size, spacing, height, x)
      invariant count == INSTANCES_PER_BLOCK * |blocks|
    {
      var z := 0;
      while z < n
        invariant 0 <= z <= size
        invariant blocks == Grid(size, spacing, height, x) + Row(size, spacing, height, x, z)
        invariant count == INSTANCES_PER_BLOCK * |blocks|
      {
        blocks := blocks + [StairBlock(size, spacing, height, x, z)];
        count := count + INSTANCES_PER_BLOCK;
        z := z + 1;
      }
      x := x + 1;
    }
    w := World(blocks, count);
  }

  /** The grid is centred on the origin: cells `x` and `n - 1 - x` lie at
      opposite coordinates, on the x axis and on the z axis alike. */
  lemma Centred(n: int, spacing: real, height: real, x: int, z: int)
    ensures StairBlock(n, spacing, height, x, z).x == -StairBlock(n, spacing, height, n - 1 - x, z).x
    ensures StairBlock(n, spacing, height, x, z).z == -StairBlock(n, spacing, height, x, n - 1 - z).z
  {
    var m := (n - 1) as real;
    assert (n - 1 - x) as real * spacing == m * spacing - x as real * spacing;
    assert (n - 1 - z) as real * spacing == m * spacing - z as real * spacing;
  }

  /** With a non-negative step height the ground never descends in x or
      in z, and stays between 0 and `(2n - 2) * height` over the grid. */
  lemma HeightsClimb(n: int, spacing: real, height: real, x: int, z: int, x': int, z': int)
    requires height >= 0.0
    requires 0 <= x <= x' < n && 0 <= z <= z' < n
    ensures StairBlock(n, spacing, height, x, z).y <= StairBlock(n, spacing, height, x', z').y
    ensures 0.0 <= StairBlock(n, spacing, height, x, z).y <= (2 * n - 2) as real * height
  {
    NonNegProduct(((x' + z') - (x + z)) as real, height);
    NonNegProduct((x + z) as real, height);
    NonNegProduct(((2 * n - 2) - (x + z)) as real, height);
  }

  lemma NonNegProduct(a: real, b: real)
    requires a >= 0.0 && b >= 0.0
    ensures a * b >= 0.0
  {
  }
}
