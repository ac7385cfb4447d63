/** Block type identifiers, as indices into the texture atlas. */
module BlockTypes {
  const AIR: int := -1
  const MY_STONE: int := 0
  const ORIGIN_STONE: int := 1
  const DIRT: int := 2
  const BEDROCK: int := 3
}
