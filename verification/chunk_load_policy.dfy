/** The chunk loading policy: a chunk is kept in memory when it lies within
    the render distance of the player's chunk, and pre-generated when it
    lies within the pre-generation distance, both measured as the larger
    of the X and Z chunk offsets. The memory budget is the loaded square
    plus a margin of 50 chunks. */
module ChunkLoading {

  datatype Policy = Policy(renderDistance: int, pregenerateDistance: int, maxLoadedChunks: int)

  /** Margin added to the loaded square in the memory budget. */
  const SPARE_CHUNKS: int := 50

  function Abs(x: int): nat {
    if x < 0 then -x else x
  }

  /** `calculateMaxChunks`: the number of chunks in the square of side
      `2r + 1`, plus the spare margin. */
  function CalculateMaxChunks(r: int): (m: int)
    ensures m >= SPARE_CHUNKS
  {
    (r * 2 + 1) * (r * 2 + 1) + SPARE_CHUNKS
  }

  function NewPolicy(renderDistance: int, pregenerateDistance: int): (p: Policy)
    ensures p.renderDistance == renderDistance && p.pregenerateDistance == pregenerateDistance
    ensures p.maxLoadedChunks == CalculateMaxChunks(renderDistance)
  {
    Policy(renderDistance, pregenerateDistance, CalculateMaxChunks(renderDistance))
  }

  /** Both chunk offsets are at most `d`. */
  predicate Within(d: int, chunkX: int, chunkZ: int, playerX: int, playerZ: int) {
    Abs(chunkX - playerX) <= d && Abs(chunkZ - playerZ) <= d
  }

  predicate ShouldLoadToMemory(p: Policy, chunkX: int, chunkZ: int, playerX: int, playerZ: int) {
    Within(p.renderDistance, chunkX, chunkZ, playerX, playerZ)
  }

  predicate ShouldPregenerate(p: Policy, chunkX: int, chunkZ: int, playerX: int, playerZ: int) {
    Within(p.pregenerateDistance, chunkX, chunkZ, playerX, playerZ)
  }

  /** Loading is the closed Chebyshev ball: each offset lies in `[-r, r]`. */
  lemma LoadIsSquare(p: Policy, chunkX: int, chunkZ: int, playerX: int, playerZ: int)
    ensures ShouldLoadToMemory(p, chunkX, chunkZ, playerX, playerZ) <==>
              (playerX - p.renderDistance <= chunkX <= playerX + p.renderDistance
               && playerZ - p.renderDistance <= chunkZ <= playerZ + p.renderDistance)
  {
  }

  /** Both tests are symmetric in chunk and player, and invariant under
      translating both by the same offset. */
  lemma SymmetricAndTranslationInvariant(p: Policy, cx: int, cz: int, px: int, pz: int, tx: int, tz: int)
    ensures ShouldLoadToMemory(p, cx, cz, px, pz) == ShouldLoadToMemory(p, px, pz, cx, cz)
    ensures ShouldPregenerate(p, cx, cz, px, pz) == ShouldPregenerate(p, px, pz, cx, cz)
    ensures ShouldLoadToMemory(p, cx, cz, px, pz) == ShouldLoadToMemory(p, cx + tx, cz + tz, px + tx, pz + tz)
    ensures ShouldPregenerate(p, cx, cz, px, pz) == ShouldPregenerate(p, cx + tx, cz + tz, px + tx, pz + tz)
  {
  }

  /** With the render distance no larger than the pre-generation distance,
      every loaded chunk is also pre-generated. */
  lemma LoadImpliesPregenerate(p: Policy, cx: int, cz: int, px: int, pz: int)
    requires p.renderDistance <= p.pregenerateDistance
    ensures ShouldLoadToMemory(p, cx, cz, px, pz) ==> ShouldPregenerate(p, cx, cz, px, pz)
  {
  }

  /** The player's own chunk is loaded exactly when the render distance is
      not negative. */
  lemma OwnChunkLoaded(p: Policy, px: int, pz: int)
    ensures ShouldLoadToMemory(p, px, pz, px, pz) <==> p.renderDistance >= 0
  {
  }

  // ---------------------------------------------------------------------
  // Counting the loaded chunks.

  /** The cells `(x, z0)` to `(x, z0 + w - 1)`. */
  function Line(x: int, z0: int, w: nat): set<(int, int)>
    decreases w
  {
    if w == 0 then {} else Line(x, z0, w - 1) + {(x, z0 + w - 1)}
  }

  /** The cells of `h` rows of `w` starting at `(x0, z0)`. */
  function Rect(x0: int, h: nat, z0: int, w: nat): set<(int, int)>
    decreases h
  {
    if h == 0 then {} else Rect(x0, h - 1, z0, w) + Line(x0 + h - 1, z0, w)
  }

  /** The square of side `side` whose low corner is `(x0, z0)`. */
  function Square(x0: int, z0: int, side: nat): set<(int, int)> {
    Rect(x0, side, z0, side)
  }

  lemma {:induction false} LineMembers(x: int, z0: int, w: nat, c: (int, int))
    ensures c in Line(x, z0, w) <==> c.0 == x && z0 <= c.1 < z0 + w
    decreases w
  {
    if w > 0 {
      LineMembers(x, z0, w - 1, c);
    }
  }

  lemma {:induction false} RectMembers(x0: int, h: nat, z0: int, w: nat, c: (int, int))
    ensures c in Rect(x0, h, z0, w) <==> x0 <= c.0 < x0 + h && z0 <= c.1 < z0 + w
    decreases h
  {
    if h > 0 {
      RectMembers(x0, h - 1, z0, w, c);
      LineMembers(x0 + h - 1, z0, w, c);
    }
  }

  lemma {:induction false} LineCount(x: int, z0: int, w: nat)
    ensures |Line(x, z0, w)| == w
    decreases w
  {
    if w > 0 {
      LineCount(x, z0, w - 1);
      LineMembers(x, z0, w - 1, (x, z0 + w - 1));
    }
  }

  /** The last row of a rectangle shares no cell with the rows before it,
      so it adds its `w` cells to the count. */
  lemma LastRowIsNew(x0: int, h: nat, z0: int, w: nat)
    requires h > 0
    ensures |Rect(x0, h, z0, w)| == |Rect(x0, h - 1, z0, w)| + w
  {
    var rows, line := Rect(x0, h - 1, z0, w), Line(x0 + h - 1, z0, w);
    forall c | c in line
      ensures c !in rows
    {
      LineMembers(x0 + h - 1, z0, w, c);
      RectMembers(x0, h - 1, z0, w, c);
    }
    DisjointUnionCount(rows, line);
    LineCount(x0 + h - 1, z0, w);
  }

  /** `h` rows of `w` cells, counted row by row. */
  function Area(h: nat, w: nat): nat {
    if h == 0 then 0 else Area(h - 1, w) + w
  }

  lemma {:induction false} AreaIsProduct(h: nat, w: nat)
    ensures Area(h, w) == h * w
  {
    if h > 0 {
      AreaIsProduct(h - 1, w);
    }
  }

  lemma DisjointUnionCount(a: set<(int, int)>, b: set<(int, int)>)
    requires forall c :: c in b ==> c !in a
    ensures |a + b| == |a| + |b|
  {
    assert a * b == {};
  }

  lemma {:induction false} RectCount(x0: int, h: nat, z0: int, w: nat)
    ensures |Rect(x0, h, z0, w)| == Area(h, w)
    decreases h
  {
    if h > 0 {
      RectCount(x0, h - 1, z0, w);
      LastRowIsNew(x0, h, z0, w);
    }
  }

  /** The chunks a non-negative render distance `r` loads around a player
      are exactly the square of side `2r + 1` centred on the player's chunk. */
  lemma LoadedIsSquare(p: Policy, px: int, pz: int, c: (int, int))
    requires p.renderDistance >= 0
    ensures var r := p.renderDistance;
            c in Square(px - r, pz - r, 2 * r + 1) <==> ShouldLoadToMemory(p, c.0, c.1, px, pz)
  {
    var r := p.renderDistance;
    RectMembers(px - r, 2 * r + 1, pz - r, 2 * r + 1, c);
  }

  /** The memory budget covers that square with 50 chunks to spare. */
  lemma BudgetCoversLoaded(p: Policy, px: int, pz: int)
    requires p.renderDistance >= 0 && p.maxLoadedChunks == CalculateMaxChunks(p.renderDistance)
    ensures var r := p.renderDistance;
            |Square(px - r, pz - r, 2 * r + 1)| + SPARE_CHUNKS == p.maxLoadedChunks
  {
    var r := p.renderDistance;
    var side: nat := 2 * r + 1;
    RectCount(px - r, side, pz - r, side);
    AreaIsProduct(side, side);
  }
}
