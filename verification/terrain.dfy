/** Terrain generation for one chunk: every column of the chunk gets
    bedrock at y = 0, stone from y = 1 to 4, and dirt from y = 5 up to a
    height between 5 and 8 read off a noise field. The noise is a
    parameter of the model, and the chunk is modelled as the log of the
    blocks added to it plus its "generated" flag. */
module Terrain {
  import opened BlockTypes

  const NOISE_SCALE: real := 0.05
  const DIRT_MIN_HEIGHT: int := 5
  const DIRT_MAX_HEIGHT: int := 8
  /** The top of the stone layer. */
  const STONE_TOP: int := 4

  /** A block added to a chunk, at local coordinates. */
  datatype Placed = Placed(x: int, y: int, z: int, blockType: int)

  /** A chunk's coordinates, the blocks added to it in order, and whether
      it has been marked as generated. */
  datatype TerrainChunk = TerrainChunk(chunkX: int, chunkZ: int, blocks: seq<Placed>, generated: bool)

  /** Java's `(int)` cast of a double: truncation toward zero. */
  function Trunc(x: real): (t: int)
    ensures x >= 0.0 ==> 0 <= t && t as real <= x < t as real + 1.0
    ensures x < 0.0 ==> t <= 0 && t as real - 1.0 < x <= t as real
  {
    if x >= 0.0 then x.Floor else -((-x).Floor)
  }

  /** `calculateDirtHeight` once the noise value is known: the noise range
      [-1, 1] spread over three steps above the minimum, truncated, then
      clamped to [5, 8]. */
  function DirtHeight(noise: real): (h: int)
    ensures DIRT_MIN_HEIGHT <= h <= DIRT_MAX_HEIGHT
  {
    var height := Trunc((noise + 1.0) / 2.0 * (DIRT_MAX_HEIGHT - DIRT_MIN_HEIGHT) as real) + DIRT_MIN_HEIGHT;
    Max(DIRT_MIN_HEIGHT, Min(DIRT_MAX_HEIGHT, height))
  }

  function Max(a: int, b: int): int {
    if a >= b then a else b
  }

  function Min(a: int, b: int): int {
    if a <= b then a else b
  }

  /** Within the noise range the clamp never bites, and the height steps
      up at the noise values -1/3, 1/3 and 1. */
  lemma DirtHeightSteps(noise: real)
    requires -1.0 <= noise <= 1.0
    ensures DirtHeight(noise) == Trunc((noise + 1.0) / 2.0 * 3.0) + 5
    ensures DirtHeight(noise) == (if noise < -1.0 / 3.0 then 5
                                  else if noise < 1.0 / 3.0 then 6
                                  else if noise < 1.0 then 7
                                  else 8)
  {
  }

  /** A higher noise value never gives lower ground. */
  lemma DirtHeightMonotone(noise: real, noise': real)
    requires noise <= noise'
    ensures DirtHeight(noise) <= DirtHeight(noise')
  {
    var x, x' := (noise + 1.0) / 2.0 * 3.0, (noise' + 1.0) / 2.0 * 3.0;
    assert x <= x';
    TruncMonotone(x, x');
  }

  lemma TruncMonotone(x: real, x': real)
    requires x <= x'
    ensures Trunc(x) <= Trunc(x')
  {
  }

  /** The world coordinate of local coordinate `local` in chunk `chunk`. */
  function WorldCoord(chunk: int, chunkSize: nat, local: int): int {
    chunk * chunkSize + local
  }

  /** The dirt height of one column: the noise sampled at the column's
      world position scaled by 0.05. */
  function ColumnHeight(noise: (real, real) -> real, chunkX: int, chunkZ: int, chunkSize: nat, lx: int, lz: int): (h: int)
    ensures DIRT_MIN_HEIGHT <= h <= DIRT_MAX_HEIGHT
  {
    var worldX, worldZ := WorldCoord(chunkX, chunkSize, lx), WorldCoord(chunkZ, chunkSize, lz);
    DirtHeight(noise(worldX as real * NOISE_SCALE, worldZ as real * NOISE_SCALE))
  }

  /** The block type of layer `y` of a column. */
  function LayerType(y: int): int {
    if y == 0 then BEDROCK else if y <= STONE_TOP then MY_STONE else DIRT
  }

  /** Blocks of type `t` at `(lx, lz)` from `y = lo` up to `y = hi`, bottom up. */
  function Layer(lx: int, lz: int, lo: int, hi: int, t: int): seq<Placed>
    decreases hi - lo
  {
    if hi < lo then [] else Layer(lx, lz, lo, hi - 1, t) + [Placed(lx, hi, lz, t)]
  }

  /** One column of dirt height `h`: bedrock, four stones, then dirt. */
  function Column(lx: int, lz: int, h: int): seq<Placed> {
    [Placed(lx, 0, lz, BEDROCK)] + Layer(lx, lz, 1, STONE_TOP, MY_STONE) + Layer(lx, lz, STONE_TOP + 1, h, DIRT)
  }

  /** The dirt heights of the whole chunk, by local column. */
  function HeightMap(noise: (real, real) -> real, chunkX: int, chunkZ: int, chunkSize: nat): (int, int) -> int {
    (lx: int, lz: int) => ColumnHeight(noise, chunkX, chunkZ, chunkSize, lx, lz)
  }

  /** The parts `f(0)` to `f(k - 1)`, concatenated in order. */
  function Concat(f: int -> seq<Placed>, k: nat): seq<Placed>
    decreases k
  {
    if k == 0 then [] else Concat(f, k - 1) + f(k - 1)
  }

  /** Columns `(lx, 0)` to `(lx, m - 1)`, in order, with heights `hm`. */
  function Strip(hm: (int, int) -> int, lx: int, m: nat): seq<Placed> {
    Concat((lz: int) => Column(lx, lz, hm(lx, lz)), m)
  }

  /** The first `k` strips of a chunk of side `chunkSize`, `x` outer and
      `z` inner. */
  function Layout(hm: (int, int) -> int, chunkSize: nat, k: nat): seq<Placed> {
    Concat((lx: int) => Strip(hm, lx, chunkSize), k)
  }

  /** The terrain of a chunk: the chunk's blocks with the whole layout
      appended, marked as generated. */
  function Generated(noise: (real, real) -> real, chunk: TerrainChunk, chunkSize: nat): TerrainChunk {
    var hm := HeightMap(noise, chunk.chunkX, chunk.chunkZ, chunkSize);
    chunk.(blocks := chunk.blocks + Layout(hm, chunkSize, chunkSize), generated := true)
  }

  // ---------------------------------------------------------------------
  // What the layout contains.

  lemma {:induction false} LayerMembers(lx: int, lz: int, lo: int, hi: int, t: int, q: Placed)
    ensures q in Layer(lx, lz, lo, hi, t) <==> q.x == lx && q.z == lz && lo <= q.y <= hi && q.blockType == t
    decreases hi - lo
  {
    if hi >= lo {
      LayerMembers(lx, lz, lo, hi - 1, t, q);
    }
  }

  /** `q` is a block of a column of dirt height `h`, wherever it stands. */
  predicate InColumn(h: int, q: Placed) {
    0 <= q.y <= Max(h, STONE_TOP) && q.blockType == LayerType(q.y)
  }

  /** A column holds exactly one block per layer from 0 to its height (to
      the top of the stone if that is higher), each of its layer's type. */
  lemma ColumnMembers(lx: int, lz: int, h: int, q: Placed)
    ensures q in Column(lx, lz, h) <==> q.x == lx && q.z == lz && InColumn(h, q)
  {
    LayerMembers(lx, lz, 1, STONE_TOP, MY_STONE, q);
    LayerMembers(lx, lz, STONE_TOP + 1, h, DIRT, q);
  }

  /** Every block of a concatenation comes from one of its parts. */
  lemma {:induction false} ConcatSound(f: int -> seq<Placed>, k: nat, q: Placed) returns (i: int)
    requires q in Concat(f, k)
    ensures 0 <= i < k && q in f(i)
    decreases k
  {
    var prev, part := Concat(f, k - 1), f(k - 1);
    assert q in prev + part;
    if q in prev {
      i := ConcatSound(f, k - 1, q);
    } else {
      i := k - 1;
    }
  }

  /** Every block of every part is in the concatenation. */
  lemma {:induction false} ConcatComplete(f: int -> seq<Placed>, k: nat, i: int, q: Placed)
    requires 0 <= i < k && q in f(i)
    ensures q in Concat(f, k)
    decreases k
  {
    var prev, part := Concat(f, k - 1), f(k - 1);
    if i < k - 1 {
      ConcatComplete(f, k - 1, i, q);
      assert q in prev;
    } else {
      assert q in part;
    }
    assert q in prev + part;
  }

  /** A strip holds exactly the blocks of its columns. */
  lemma StripMembers(hm: (int, int) -> int, lx: int, m: nat, q: Placed)
    ensures q in Strip(hm, lx, m) <==> q.x == lx && 0 <= q.z < m && InColumn(hm(lx, q.z), q)
  {
    var f := (lz: int) => Column(lx, lz, hm(lx, lz));
    if q in Strip(hm, lx, m) {
      var i := ConcatSound(f, m, q);
      ColumnMembers(lx, i, hm(lx, i), q);
    }
    if q.x == lx && 0 <= q.z < m && InColumn(hm(lx, q.z), q) {
      ColumnMembers(lx, q.z, hm(lx, q.z), q);
      ConcatComplete(f, m, q.z, q);
    }
  }

  /** The layout holds exactly the blocks of its columns. */
  lemma LayoutMembers(hm: (int, int) -> int, chunkSize: nat, k: nat, q: Placed)
    ensures q in Layout(hm, chunkSize, k) <==>
              0 <= q.x < k && 0 <= q.z < chunkSize && InColumn(hm(q.x, q.z), q)
  {
    var f := (lx: int) => Strip(hm, lx, chunkSize);
    if q in Layout(hm, chunkSize, k) {
      var i := ConcatSound(f, k, q);
      StripMembers(hm, i, chunkSize, q);
    }
    if 0 <= q.x < k && 0 <= q.z < chunkSize && InColumn(hm(q.x, q.z), q) {
      StripMembers(hm, q.x, chunkSize, q);
      ConcatComplete(f, k, q.x, q);
    }
  }

  /** The generated terrain of a chunk holds a block exactly at each layer
      of each column of the chunk, up to that column's dirt height: bedrock
      at y = 0, stone at 1 to 4 and dirt above. */
  lemma GeneratedTerrain(noise: (real, real) -> real, chunk: TerrainChunk, chunkSize: nat, q: Placed)
    ensures var g := Generated(noise, chunk, chunkSize);
            q in g.blocks[|chunk.blocks|..] <==>
              (0 <= q.x < chunkSize && 0 <= q.z < chunkSize
               && 0 <= q.y <= ColumnHeight(noise, chunk.chunkX, chunk.chunkZ, chunkSize, q.x, q.z)
               && (q.y == 0 ==> q.blockType == BEDROCK)
               && (1 <= q.y <= 4 ==> q.blockType == MY_STONE)
               && (q.y >= 5 ==> q.blockType == DIRT))
  {
    var hm := HeightMap(noise, chunk.chunkX, chunk.chunkZ, chunkSize);
    var g := Generated(noise, chunk, chunkSize);
    assert g.blocks[|chunk.blocks|..] == Layout(hm, chunkSize, chunkSize);
    LayoutMembers(hm, chunkSize, chunkSize, q);
  }

  /** Every column of the chunk is filled: it has its bedrock and at least
      one dirt block on top of the stone. */
  lemma EveryColumnFilled(noise: (real, real) -> real, chunk: TerrainChunk, chunkSize: nat, lx: int, lz: int)
    requires 0 <= lx < chunkSize && 0 <= lz < chunkSize
    ensures Placed(lx, 0, lz, BEDROCK) in Generated(noise, chunk, chunkSize).blocks
    ensures Placed(lx, 5, lz, DIRT) in Generated(noise, chunk, chunkSize).blocks
  {
    var hm := HeightMap(noise, chunk.chunkX, chunk.chunkZ, chunkSize);
    LayoutMembers(hm, chunkSize, chunkSize, Placed(lx, 0, lz, BEDROCK));
    LayoutMembers(hm, chunkSize, chunkSize, Placed(lx, 5, lz, DIRT));
  }

  lemma {:induction false} LayerLength(lx: int, lz: int, lo: int, hi: int, t: int)
    ensures |Layer(lx, lz, lo, hi, t)| == if hi < lo then 0 else hi - lo + 1
    decreases hi - lo
  {
    if hi >= lo {
      LayerLength(lx, lz, lo, hi - 1, t);
    }
  }

  /** A column of any dirt height the generator produces holds 6 to 9
      blocks, one per layer from 0 to its height, with dirt at y = 5. */
  lemma ColumnShape(lx: int, lz: int, h: int)
    requires DIRT_MIN_HEIGHT <= h <= DIRT_MAX_HEIGHT
    ensures |Column(lx, lz, h)| == h + 1
    ensures 6 <= |Column(lx, lz, h)| <= 9
    ensures Column(lx, lz, h)[5] == Placed(lx, 5, lz, DIRT)
  {
    LayerLength(lx, lz, 1, STONE_TOP, MY_STONE);
    LayerLength(lx, lz, STONE_TOP + 1, h, DIRT);
    LayerFirst(lx, lz, STONE_TOP + 1, h, DIRT);
  }

  /** The lowest block of a non-empty layer sits at its bottom. */
  lemma {:induction false} LayerFirst(lx: int, lz: int, lo: int, hi: int, t: int)
    requires lo <= hi
    ensures Layer(lx, lz, lo, hi, t)[0] == Placed(lx, lo, lz, t)
    decreases hi - lo
  {
    if hi > lo {
      LayerFirst(lx, lz, lo, hi - 1, t);
    }
  }

  // ---------------------------------------------------------------------
  // The generator's loops.

  /** One of the inner loops: layers `lo` to `hi` of type `t`, bottom up. */
  method AddLayer(blocks: seq<Placed>, lx: int, lz: int, lo: int, hi: int, t: int) returns (out: seq<Placed>)
    ensures out == blocks + Layer(lx, lz, lo, hi, t)
  {
    out := blocks;
    var y := lo;
    while y <= hi
      invariant lo <= y <= Max(lo, hi + 1)
      invariant out == blocks + Layer(lx, lz, lo, y - 1, t)
      decreases hi - y
    {
      out := out + [Placed(lx, y, lz, t)];
      y := y + 1;
    }
  }

  lemma AppendStrip(base: seq<Placed>, prev: seq<Placed>, strip: seq<Placed>)
    ensures base + prev + strip == base + (prev + strip)
  {
  }

  lemma LayoutStep(hm: (int, int) -> int, chunkSize: nat, k: nat)
    ensures Layout(hm, chunkSize, k + 1) == Layout(hm, chunkSize, k) + Strip(hm, k, chunkSize)
  {
  }

  lemma StripStep(hm: (int, int) -> int, lx: int, m: nat)
    ensures Strip(hm, lx, m + 1) == Strip(hm, lx, m) + Column(lx, m, hm(lx, m))
  {
  }

  /** The body of the column loop: bedrock, the stone loop, the height
      lookup and the dirt loop. */
  method AddColumn(noise: (real, real) -> real, chunk: TerrainChunk, chunkSize: nat, blocks: seq<Placed>, lx: int, lz: int)
    returns (out: seq<Placed>)
    ensures out == blocks + Column(lx, lz, ColumnHeight(noise, chunk.chunkX, chunk.chunkZ, chunkSize, lx, lz))
  {
    out := blocks + [Placed(lx, 0, lz, BEDROCK)];
    out := AddLayer(out, lx, lz, 1, STONE_TOP, MY_STONE);
    var dirtHeight := ColumnHeight(noise, chunk.chunkX, chunk.chunkZ, chunkSize, lx, lz);
    out := AddLayer(out, lx, lz, STONE_TOP + 1, dirtHeight, DIRT);
  }

  /** The inner loop over `z` for one `x`: the whole strip of columns. */
  method AddStrip(noise: (real, real) -> real, chunk: TerrainChunk, chunkSize: nat, blocks: seq<Placed>, lx: int)
    returns (out: seq<Placed>)
    ensures out == blocks + Strip(HeightMap(noise, chunk.chunkX, chunk.chunkZ, chunkSize), lx, chunkSize)
  {
    ghost var hm := HeightMap(noise, chunk.chunkX, chunk.chunkZ, chunkSize);
    out := blocks;
    var lz := 0;
    while lz < chunkSize
      invariant 0 <= lz <= chunkSize
      invariant out == blocks + Strip(hm, lx, lz)
    {
      out := AddColumn(noise, chunk, chunkSize, out, lx, lz);
      assert hm(lx, lz) == ColumnHeight(noise, chunk.chunkX, chunk.chunkZ, chunkSize, lx, lz);
      StripStep(hm, lx, lz);
      AppendStrip(blocks, Strip(hm, lx, lz), Column(lx, lz, hm(lx, lz)));
      lz := lz + 1;
    }
    assert lz == chunkSize;
  }

  /** `generateTerrain`: every column of the chunk, `x` outer and `z`
      inner, then the chunk is marked as generated. The default block type
      it is handed plays no part in the result. */
  method GenerateTerrain(noise: (real, real) -> real, chunk: TerrainChunk, chunkSize: nat, defaultBlockType: int)
    returns (c: TerrainChunk)
    ensures c == Generated(noise, chunk, chunkSize)
    ensures c.chunkX == chunk.chunkX && c.chunkZ == chunk.chunkZ && c.generated
    ensures |chunk.blocks| <= |c.blocks| && c.blocks[..|chunk.blocks|] == chunk.blocks
  {
    ghost var hm := HeightMap(noise, chunk.chunkX, chunk.chunkZ, chunkSize);
    var blocks := chunk.blocks;
    var lx := 0;
    while lx < chunkSize
      invariant 0 <= lx <= chunkSize
      invariant blocks == chunk.blocks + Layout(hm, chunkSize, lx)
    {
      blocks := AddStrip(noise, chunk, chunkSize, blocks, lx);
      AppendStrip(chunk.blocks, Layout(hm, chunkSize, lx), Strip(hm, lx, chunkSize));
      LayoutStep(hm, chunkSize, lx);
      lx := lx + 1;
    }
    c := chunk.(blocks := blocks, generated := true);
  }
}
