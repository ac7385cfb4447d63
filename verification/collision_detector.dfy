/** The camera-only collision test: the camera is a point with a 0.2
    margin, checked against every unit block of the world. On X and Z the
    margin must overlap the block strictly; on Y touching counts. */
module CameraCollision {
  import opened Vectors

  const CAMERA_RADIUS: real := 0.2
  const BLOCK_HALF_SIZE: real := 0.5

  /** The camera's margin overlaps the block's footprint strictly on X and Z. */
  predicate OverlapsXZ(p: Vec3, b: Vec3) {
    p.x + CAMERA_RADIUS > b.x - BLOCK_HALF_SIZE && p.x - CAMERA_RADIUS < b.x + BLOCK_HALF_SIZE &&
    p.z + CAMERA_RADIUS > b.z - BLOCK_HALF_SIZE && p.z - CAMERA_RADIUS < b.z + BLOCK_HALF_SIZE
  }

  /** The per-block verdict, branch by branch: no footprint overlap is no
      collision; above the block the margin must reach its top face, below
      it the margin must reach its bottom face, and within its vertical
      span the camera always collides. Altogether the camera's height must
      lie in the block's vertical span widened by the margin, ends
      included. */
  function BlockStopsCamera(p: Vec3, b: Vec3): (r: bool)
    ensures r <==> (OverlapsXZ(p, b)
                    && b.y - BLOCK_HALF_SIZE - CAMERA_RADIUS <= p.y <= b.y + BLOCK_HALF_SIZE + CAMERA_RADIUS)
  {
    var minY, maxY := b.y - BLOCK_HALF_SIZE, b.y + BLOCK_HALF_SIZE;
    if !OverlapsXZ(p, b) then false
    else if p.y > maxY then p.y - CAMERA_RADIUS <= maxY
    else if p.y < minY then p.y + CAMERA_RADIUS >= minY
    else true
  }

  /** `checkCollision`: does any block of the world stop the camera? */
  method CheckCollision(p: Vec3, blocks: seq<Vec3>) returns (hit: bool)
    ensures hit <==> exists i :: 0 <= i < |blocks| && BlockStopsCamera(p, blocks[i])
  {
    var i := 0;
    while i < |blocks|
      invariant 0 <= i <= |blocks|
      invariant forall j :: 0 <= j < i ==> !BlockStopsCamera(p, blocks[j])
    {
      if BlockStopsCamera(p, blocks[i]) {
        return true;
      }
      i := i + 1;
    }
    return false;
  }

  /** The asymmetry of the test: a camera exactly 0.2 above a block's top
      face collides, while one exactly 0.2 beside its +X face does not. */
  lemma TouchingCountsOnlyVertically(b: Vec3)
    ensures BlockStopsCamera(Vec3(b.x, b.y + BLOCK_HALF_SIZE + CAMERA_RADIUS, b.z), b)
    ensures !BlockStopsCamera(Vec3(b.x + BLOCK_HALF_SIZE + CAMERA_RADIUS, b.y, b.z), b)
  {
  }
}
