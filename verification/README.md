# OpenCraft movement and collision core, in Dafny

This project models the movement and collision kernel of OpenCraft, a small
voxel game written in Java on libGDX, and the policies around it.

**Bodies and physics.** A player body is an axis-aligned box anchored at the
player's feet. The world is a flat list of unit-cube block centres. Each frame:

- gravity is applied;
- the displacement is resolved one axis at a time, in the order Y, X, Z;
- on a collision the body snaps to the nearest face of the blocks it hit, taken across all of them;
- after a horizontal move, a thin probe below the feet decides whether the body still stands on something.

**Picking and the camera sphere.**

- A fixed-step ray march picks the block under the crosshair.
- A camera-sphere test checks the camera position against every block.

**Surrounding policies.**

- the mouse-button dispatch for placing and destroying blocks, with its overlap guard against the player;
- the staircase world builder;
- the Chebyshev-distance chunk loading policy;
- the per-column terrain layout with its clamped dirt height;
- the fly-mode state machine;
- the camera's clamped pitch;
- the two per-frame controllers, which turn key and mouse input into a velocity, run one physics step and move the camera to the player's eyes.

**How the model is written.**

- Java `float` is modelled as `real`.
- Mutable objects become immutable datatypes, and each mutating method becomes a function returning the new value.
- The "not found" sentinels of the source become `Option`.
- These values are parameters:
  - the trigonometric view direction;
  - libGDX vector normalisation;
  - the terrain noise;
  - the engine's chunk size `Chunk.CHUNK_SIZE`;
  - the calls into the engine library the fly-mode controller runs on.

Modules:

| file | module | models |
|---|---|---|
| vectors.dfy | Vectors | `Vector3` arithmetic, axes, `Option` |
| aabb.dfy | Aabb | `AABB` |
| player.dfy | Players | `Player` |
| physics.dfy | Physics | `PhysicsSystem` |
| ray_caster.dfy | RayCasting | `RayCaster` |
| collision_detector.dfy | CameraCollision | `CollisionDetector` |
| input_handler.dfy | BlockInput | `InputHandler` |
| block_types.dfy | BlockTypes | the block type constants |
| world.dfy | Staircase | `World.createStaircaseGround` |
| chunk_load_policy.dfy | ChunkLoading | `ChunkLoadPolicy` |
| terrain.dfy | Terrain | `TerrainGenerator` |
| fly_player.dfy | FlyPlayers | `OpenCraftPlayer` |
| fps_camera.dfy | Cameras | `FPSCamera` |
| camera_controller.dfy | Controllers | `CameraController` |
| fly_camera_controller.dfy | FlyControllers | `OpenCraftCameraController` |

Source paths below are relative to the repository root.

## Model

| member | source | states |
|---|---|---|
| Aabb.UpdateBounds | src/main/java/kr/co/opencraft/physics/AABB.java:54-57 | the bounds become centre minus and plus the half-extents on every axis, with centre and extents kept |
| Aabb.Create | src/main/java/kr/co/opencraft/physics/AABB.java:34-42 | a new box has the given centre and half-extents and consistent bounds |
| Aabb.Cube | src/main/java/kr/co/opencraft/physics/AABB.java:47-49 | the cube constructor gives the same half-extent on all three axes |
| Aabb.SetCenter | src/main/java/kr/co/opencraft/physics/AABB.java:62-76 | moving the centre keeps the half-extents and recomputes the bounds |
| Aabb.SetSize | src/main/java/kr/co/opencraft/physics/AABB.java:78-83 | resizing keeps the centre and recomputes the bounds |
| Aabb.Offset | src/main/java/kr/co/opencraft/physics/AABB.java:97-100 | an offset moves the centre by the displacement and keeps the half-extents |
| Aabb.Intersects | src/main/java/kr/co/opencraft/physics/AABB.java:88-92 | the strict box-overlap test; Aabb.IntersectsOnAllAxes characterises it as open-interval overlap on every axis |
| Aabb.IntersectsOnAllAxes | src/main/java/kr/co/opencraft/physics/AABB.java:88-92 | boxes intersect iff their open intervals overlap on every axis |
| Aabb.IntersectsByCenters | src/main/java/kr/co/opencraft/physics/AABB.java:88-92 | for consistent boxes, intersection is the centre distance being below the sum of half-extents on each axis |
| Aabb.IntersectsSymmetric | src/main/java/kr/co/opencraft/physics/AABB.java:88-92 | intersection is symmetric |
| Aabb.FaceContactIsNotIntersection | src/main/java/kr/co/opencraft/physics/AABB.java:88-92 | boxes that only share a face do not intersect, in either order |
| Aabb.SelfIntersection | src/main/java/kr/co/opencraft/physics/AABB.java:88-92 | a box intersects itself iff all its half-extents are positive |
| Aabb.OffsetIsSetCenter | src/main/java/kr/co/opencraft/physics/AABB.java:62-65 | an offset is the same box as setting the centre to the moved centre |
| Aabb.ResettingIsIdentity | src/main/java/kr/co/opencraft/physics/AABB.java:62-83 | setting a consistent box's own centre or own size changes nothing |
| Players.BodyBoxSpan | src/main/java/kr/co/opencraft/entity/Player.java:43-44 | the body spans from the feet to 1.8 above them, and 0.3 either side in x and z |
| Players.NewPlayer | src/main/java/kr/co/opencraft/entity/Player.java:37-45 | a new player is at rest and grounded, with box centre (x, y+0.9, z) and half-extents (0.3, 0.9, 0.3) |
| Players.SetPosition | src/main/java/kr/co/opencraft/entity/Player.java:50-65 | moving the feet recentres the box half a height above them and keeps velocity, ground flag and extents |
| Players.SetOnGround | src/main/java/kr/co/opencraft/entity/Player.java:81 | only the ground flag changes |
| Players.EyePosition | src/main/java/kr/co/opencraft/entity/Player.java:70-72 | the eye is 1.62 above the feet, strictly inside the body's vertical span |
| Physics.Contact | src/main/java/kr/co/opencraft/physics/PhysicsSystem.java:152-286 | a face is found iff the box hits some block; it is the near face of one hit block and no hit block's face is further |
| Physics.ApplyGravity | src/main/java/kr/co/opencraft/physics/PhysicsSystem.java:48-57 | airborne vertical speed falls by 20 per second and is clamped at -50; a grounded body is untouched |
| Physics.MoveAxis | src/main/java/kr/co/opencraft/physics/PhysicsSystem.java:68-140 | a zero move changes nothing; other axes are kept; a free move lands at the candidate; a downward move sets the ground flag to whether it hit |
| Physics.Collides | src/main/java/kr/co/opencraft/physics/PhysicsSystem.java:152-160 | some listed block's unit box intersects the body box; Physics.HitsBySpans characterises each hit by spans |
| Physics.HitsBySpans | src/main/java/kr/co/opencraft/physics/PhysicsSystem.java:152-160 | the body hits a block iff their spans overlap on all three axes |
| Physics.MoveAxisBlocked | src/main/java/kr/co/opencraft/physics/PhysicsSystem.java:72-140 | a blocked move zeroes that velocity and snaps the leading face to the extremal face among hit blocks, which then no longer overlap the body |
| Physics.HitBlocksLieAhead | src/main/java/kr/co/opencraft/physics/PhysicsSystem.java:72-140 | from a clear start, every block the candidate hits lies ahead of the body's leading face |
| Physics.SnapBetweenStartAndCandidate | src/main/java/kr/co/opencraft/physics/PhysicsSystem.java:72-140 | from a clear start, the snapped position lies between the start and the candidate |
| Physics.SnapLeavesBlockClear | src/main/java/kr/co/opencraft/physics/PhysicsSystem.java:72-140 | a snap never pushes a clear body into a block, for a displacement smaller than body plus block |
| Physics.MoveAxisStaysClear | src/main/java/kr/co/opencraft/physics/PhysicsSystem.java:63-140 | a bounded move along one axis keeps a clear body clear of every block |
| Physics.ProbeHits | src/main/java/kr/co/opencraft/physics/PhysicsSystem.java:292-301 | the ground probe hits a block iff it is within 0.8 in x and z, its top is above foot height minus 0.02 and its bottom is below the feet; so a block whose top is flush with the feet or straddles them grounds the body |
| Physics.CheckGroundBelow | src/main/java/kr/co/opencraft/physics/PhysicsSystem.java:292-301 | the ground flag becomes whether the probe hits some block, and nothing else changes |
| Physics.MoveAndCollide | src/main/java/kr/co/opencraft/physics/PhysicsSystem.java:63-147 | no displacement changes nothing; after a horizontal move the ground flag is the probe result; otherwise it is the Y move's |
| Physics.Update | src/main/java/kr/co/opencraft/physics/PhysicsSystem.java:32-43 | a frame keeps the body's box derived from its feet |
| Physics.RestIsFixedPoint | src/main/java/kr/co/opencraft/physics/PhysicsSystem.java:32-57 | a grounded body at rest is a fixed point of a frame |
| Physics.MoveAndCollideStaysClear | src/main/java/kr/co/opencraft/physics/PhysicsSystem.java:63-147 | displacements below 1.6, 2.8 and 1.6 keep a clear body clear |
| Physics.UpdateStaysClear | src/main/java/kr/co/opencraft/physics/PhysicsSystem.java:32-147 | at frame times up to 0.05 s and speeds up to 30 horizontally and 50 vertically, a clear body stays clear |
| Physics.TerminalFallPenetrates | src/main/java/kr/co/opencraft/physics/PhysicsSystem.java:32-94 | at terminal speed with a 0.1 s frame, a clear body falling past one block onto another ends inside the first: the frame-time bound of Physics.UpdateStaysClear is needed |
| Physics.TerminalFallTunnels | src/main/java/kr/co/opencraft/physics/PhysicsSystem.java:32-94 | at terminal speed with a 0.1 s frame, a body above a single block ends below it (tunnelling) |
| Physics.TryJump | src/main/java/kr/co/opencraft/physics/PhysicsSystem.java:306-311 | a grounded body gets vertical speed 7 and leaves the ground; an airborne one is unchanged |
| RayCasting.PointInBlock | src/main/java/kr/co/opencraft/physics/RayCaster.java:47-53 | closed containment of a point in the unit block around a centre; RayCasting.FirstBlockAt uses it for the pick |
| RayCasting.FirstBlockAt | src/main/java/kr/co/opencraft/physics/RayCaster.java:33-38 | the first block in list order containing the point, or none iff no block contains it |
| RayCasting.SamplesAt | src/main/java/kr/co/opencraft/physics/RayCaster.java:29-31 | sample j lies j+1 steps from the origin, for any step |
| RayCasting.OriginNeverSampled | src/main/java/kr/co/opencraft/physics/RayCaster.java:29-31 | with a non-zero step the origin is never a sample |
| RayCasting.SamplesStep | src/main/java/kr/co/opencraft/physics/RayCaster.java:29-31 | each sample is the previous one plus one step, the first is one step from the origin |
| RayCasting.FirstHit | src/main/java/kr/co/opencraft/physics/RayCaster.java:26-40 | none iff no sample lies in any block; a hit is an element of the block list |
| RayCasting.FirstHitIsEarliest | src/main/java/kr/co/opencraft/physics/RayCaster.java:29-38 | a hit is the first block containing the earliest sample that lies in any block |
| RayCasting.ScanBlocks | src/main/java/kr/co/opencraft/physics/RayCaster.java:33-38 | the inner loop returns the first block containing the point |
| RayCasting.Raycast | src/main/java/kr/co/opencraft/physics/RayCaster.java:22-41 | the march returns the first hit over the 200 samples origin + k 0.05 d, k = 1..200 |
| RayCasting.FirstFromPrefix | src/main/java/kr/co/opencraft/physics/RayCaster.java:33-35 | the first containing block is returned even when later ones also contain the point |
| RayCasting.BehindStartNeverPicked | src/main/java/kr/co/opencraft/physics/RayCaster.java:22-41 | a march with any step never picks a block lying wholly behind the origin along an axis on which the step is non-zero |
| RayCasting.OriginNeverTested | src/main/java/kr/co/opencraft/physics/RayCaster.java:29-31 | the march of unit direction +x from a point on a block's +x face never picks that block: the origin itself is never sampled |
| RayCasting.SamplesAdvance | src/main/java/kr/co/opencraft/physics/RayCaster.java:29-31 | on every axis each sample lies strictly on the side of the origin the step points to, and level with it where the step is zero |
| CameraCollision.BlockStopsCamera | src/main/java/kr/co/opencraft/physics/CollisionDetector.java:35-58 | a block stops the camera iff it overlaps the 0.2 square in xz and y lies within 0.2 of its closed vertical span |
| CameraCollision.CheckCollision | src/main/java/kr/co/opencraft/physics/CollisionDetector.java:24-61 | the result is whether some block stops the camera; an empty world never does |
| CameraCollision.TouchingCountsOnlyVertically | src/main/java/kr/co/opencraft/physics/CollisionDetector.java:35-53 | touching from above collides but touching from the side does not |
| BlockInput.GetMouseButton | src/main/java/kr/co/opencraft/input/InputHandler.java:35-46 | left beats right beats middle; no button gives -1 |
| BlockInput.WouldCollideWithPlayer | src/main/java/kr/co/opencraft/input/InputHandler.java:100-121 | the overlap test is exactly box intersection of the player body and the block cube |
| BlockInput.ProcessMouseInput | src/main/java/kr/co/opencraft/input/InputHandler.java:51-95 | left removes the selected block when there is one; right adds stone at the placement position when there is one and it misses the player; otherwise nothing |
| BlockInput.HandleInput | src/main/java/kr/co/opencraft/input/InputHandler.java:24-30 | nothing happens without a touch; otherwise the pressed button is dispatched |
| BlockInput.PlacementKeepsPlayerClear | src/main/java/kr/co/opencraft/input/InputHandler.java:84-121 | a player clear of the world stays clear after any placement the handler makes |
| BlockInput.LeftClickWins | src/main/java/kr/co/opencraft/input/InputHandler.java:35-46 | with both buttons pressed and a selection, the selected block is removed |
| Staircase.Row | src/main/java/kr/co/opencraft/world/World.java:34-42 | one row holds the blocks for z = 0 .. m-1 in order |
| Staircase.Grid | src/main/java/kr/co/opencraft/world/World.java:33-43 | k rows of n blocks |
| Staircase.GridIndex | src/main/java/kr/co/opencraft/world/World.java:31-42 | entry x n + z is the block at (x s - (n-1) s / 2, (x+z) h, z s - (n-1) s / 2) |
| Staircase.CreateStaircaseGround | src/main/java/kr/co/opencraft/world/World.java:26-49 | the blocks are the n by n staircase grid; n squared blocks, none for n <= 0; six render instances per block |
| Staircase.Centred | src/main/java/kr/co/opencraft/world/World.java:31-37 | the grid is centred: index x mirrors index n-1-x, and the same for z |
| Staircase.HeightsClimb | src/main/java/kr/co/opencraft/world/World.java:39 | for h >= 0, heights do not decrease in x or z and lie in [0, (2n-2) h] |
| ChunkLoading.CalculateMaxChunks | src/main/java/kr/co/opencraft/world/ChunkLoadPolicy.java:41-44 | the budget is at least the 50-chunk margin |
| ChunkLoading.NewPolicy | src/main/java/kr/co/opencraft/world/ChunkLoadPolicy.java:14-18 | the distances are stored and the budget derived from the render distance |
| ChunkLoading.ShouldLoadToMemory | src/main/java/kr/co/opencraft/world/ChunkLoadPolicy.java:23-27 | both chunk offsets at most the render distance; ChunkLoading.LoadIsSquare states it as the closed square |
| ChunkLoading.ShouldPregenerate | src/main/java/kr/co/opencraft/world/ChunkLoadPolicy.java:32-36 | both chunk offsets at most the pregeneration distance; ChunkLoading.LoadImpliesPregenerate relates it to loading |
| ChunkLoading.LoadIsSquare | src/main/java/kr/co/opencraft/world/ChunkLoadPolicy.java:23-27 | a chunk loads iff both offsets lie in [-r, r] |
| ChunkLoading.SymmetricAndTranslationInvariant | src/main/java/kr/co/opencraft/world/ChunkLoadPolicy.java:23-36 | both tests are symmetric in chunk and player and invariant under translation |
| ChunkLoading.LoadImpliesPregenerate | src/main/java/kr/co/opencraft/world/ChunkLoadPolicy.java:23-36 | with render distance at most the pre-generation distance, loaded implies pre-generated |
| ChunkLoading.OwnChunkLoaded | src/main/java/kr/co/opencraft/world/ChunkLoadPolicy.java:23-27 | the player's own chunk is loaded iff the render distance is not negative |
| ChunkLoading.RectMembers | src/main/java/kr/co/opencraft/world/ChunkLoadPolicy.java:23-27 | the rectangle of cells is exactly the cells within its bounds |
| ChunkLoading.RectCount | src/main/java/kr/co/opencraft/world/ChunkLoadPolicy.java:41-44 | a rectangle of h rows of w cells has h w cells |
| ChunkLoading.LoadedIsSquare | src/main/java/kr/co/opencraft/world/ChunkLoadPolicy.java:23-27 | the loaded chunks are exactly the square of side 2r+1 centred on the player |
| ChunkLoading.BudgetCoversLoaded | src/main/java/kr/co/opencraft/world/ChunkLoadPolicy.java:14-18 | the budget is the number of loaded chunks plus 50 |
| Terrain.Trunc | src/main/java/kr/co/opencraft/world/TerrainGenerator.java:63-66 | the int cast truncates toward zero |
| Terrain.DirtHeight | src/main/java/kr/co/opencraft/world/TerrainGenerator.java:59-68 | the dirt height lies in [5, 8] for any noise value |
| Terrain.DirtHeightSteps | src/main/java/kr/co/opencraft/world/TerrainGenerator.java:63-67 | for noise in [-1, 1] the height is trunc((n+1)/2 3) + 5, a step function with steps at -1/3, 1/3 and 1 |
| Terrain.DirtHeightMonotone | src/main/java/kr/co/opencraft/world/TerrainGenerator.java:59-68 | the height does not decrease with the noise |
| Terrain.ColumnHeight | src/main/java/kr/co/opencraft/world/TerrainGenerator.java:59-68 | the height at a column in world coordinates lies in [5, 8] |
| Terrain.LayerMembers | src/main/java/kr/co/opencraft/world/TerrainGenerator.java:41-49 | a layer holds exactly the blocks of its type at heights lo..hi |
| Terrain.ColumnMembers | src/main/java/kr/co/opencraft/world/TerrainGenerator.java:37-50 | a column holds bedrock at 0, stone at 1..4 and dirt at 5..h, and nothing else |
| Terrain.StripMembers | src/main/java/kr/co/opencraft/world/TerrainGenerator.java:36-50 | the strip of one x holds exactly the column blocks of every z below m |
| Terrain.LayoutMembers | src/main/java/kr/co/opencraft/world/TerrainGenerator.java:35-51 | the layout holds exactly the column blocks of every (x, z) in the chunk |
| Terrain.GeneratedTerrain | src/main/java/kr/co/opencraft/world/TerrainGenerator.java:31-54 | the blocks a generation adds are exactly the bedrock, stone and dirt below each column's height |
| Terrain.EveryColumnFilled | src/main/java/kr/co/opencraft/world/TerrainGenerator.java:35-50 | every column of the chunk gets bedrock at 0 and dirt at 5 |
| Terrain.ColumnShape | src/main/java/kr/co/opencraft/world/TerrainGenerator.java:41-49 | a column of height 5..8 has h+1 blocks, 6 to 9, with dirt at y = 5 |
| Terrain.AddLayer | src/main/java/kr/co/opencraft/world/TerrainGenerator.java:41-49 | the loop appends exactly one layer |
| Terrain.AddColumn | src/main/java/kr/co/opencraft/world/TerrainGenerator.java:37-50 | the loop body appends exactly one column at the noise height |
| Terrain.AddStrip | src/main/java/kr/co/opencraft/world/TerrainGenerator.java:36-51 | the inner loop appends the columns of one x |
| Terrain.GenerateTerrain | src/main/java/kr/co/opencraft/world/TerrainGenerator.java:31-54 | generation appends the layout to the existing blocks, keeps the coordinates, marks the chunk generated, and ignores the default block type |
| FlyPlayers.NewFlyPlayer | src/main/java/kr/co/opencraft/entity/OpenCraftPlayer.java:11-17 | a new player does not fly, has gravity on, is grounded and is at rest at the start |
| FlyPlayers.SetFlyMode | src/main/java/kr/co/opencraft/entity/OpenCraftPlayer.java:30-40 | the mode is stored, gravity is its opposite, entering flight zeroes vertical speed, nothing else changes |
| FlyPlayers.ToggleFlyMode | src/main/java/kr/co/opencraft/entity/OpenCraftPlayer.java:45-47 | the mode flips and horizontal motion is kept |
| FlyPlayers.OnLanding | src/main/java/kr/co/opencraft/entity/OpenCraftPlayer.java:52-57 | landing ends flight, and changes nothing when not flying |
| FlyPlayers.ToggleTwice | src/main/java/kr/co/opencraft/entity/OpenCraftPlayer.java:30-47 | two toggles restore the mode but leave the vertical speed zeroed |
| FlyPlayers.SetFlyModeIdempotent | src/main/java/kr/co/opencraft/entity/OpenCraftPlayer.java:30-40 | setting a mode twice is setting it once |
| FlyPlayers.OnLandingIdempotent | src/main/java/kr/co/opencraft/entity/OpenCraftPlayer.java:52-57 | landing twice is landing once |
| FlyPlayers.ModesStayConsistent | src/main/java/kr/co/opencraft/entity/OpenCraftPlayer.java:30-57 | any sequence of mode changes keeps gravity on exactly when not flying |
| Cameras.Clamp | src/main/java/kr/co/opencraft/camera/FPSCamera.java:39-49 | below the range gives its low end, above it the high end, inside it the value |
| Cameras.ClampIsNearest | src/main/java/kr/co/opencraft/camera/FPSCamera.java:39-49 | a clamp lands in the range and no point of the range is nearer |
| Cameras.NewCamera | src/main/java/kr/co/opencraft/camera/FPSCamera.java:15-21 | the camera starts at yaw -90 and pitch 0 |
| Cameras.SetPosition | src/main/java/kr/co/opencraft/camera/FPSCamera.java:27-29 | only the position changes |
| Cameras.SetYaw | src/main/java/kr/co/opencraft/camera/FPSCamera.java:35-37 | yaw is stored exactly |
| Cameras.AddYaw | src/main/java/kr/co/opencraft/camera/FPSCamera.java:43-45 | yaw grows by exactly the delta |
| Cameras.SetPitch | src/main/java/kr/co/opencraft/camera/FPSCamera.java:39-41 | pitch lands in [-89, 89], stored exactly when in range |
| Cameras.AddPitch | src/main/java/kr/co/opencraft/camera/FPSCamera.java:47-49 | pitch lands in [-89, 89], moving by the delta when the sum is in range |
| Cameras.AddPitchIsSetPitch | src/main/java/kr/co/opencraft/camera/FPSCamera.java:39-49 | adding to the pitch is setting the sum |
| Cameras.AddPitchMovesTowardSum | src/main/java/kr/co/opencraft/camera/FPSCamera.java:47-49 | the pitch never moves the wrong way nor past the sum |
| Cameras.PitchStaysInRange | src/main/java/kr/co/opencraft/camera/FPSCamera.java:35-49 | any sequence of rotations keeps the pitch in range |
| Cameras.YawAccumulates | src/main/java/kr/co/opencraft/camera/FPSCamera.java:43-45 | turning by a then b is turning by a + b |
| Controllers.NewController | src/main/java/kr/co/opencraft/camera/CameraController.java:26-34 | the constructor puts the camera at the player's eyes |
| Controllers.Look | src/main/java/kr/co/opencraft/camera/CameraController.java:38-45 | the mouse only turns the camera while locked, and keeps the pitch in range |
| Controllers.MoveDirIsCombination | src/main/java/kr/co/opencraft/camera/CameraController.java:61-79 | the keys give forward-minus-back times the view plus right-minus-left times the right vector |
| Controllers.WalkVelocity | src/main/java/kr/co/opencraft/camera/CameraController.java:81-89 | no intent stops horizontal motion; an intent sets the scaled normalised direction; vertical speed is kept |
| Controllers.WalkSpeed | src/main/java/kr/co/opencraft/camera/CameraController.java:82-85 | with a level unit normalisation, horizontal speed is exactly the move speed |
| Controllers.SetHorizontal | src/main/java/kr/co/opencraft/camera/CameraController.java:81-89 | only the velocity changes |
| Controllers.Prepare | src/main/java/kr/co/opencraft/camera/CameraController.java:47-89 | a jump from the ground sets vertical speed 7 before physics; otherwise vertical speed and ground flag are kept; the horizontal velocity is the walking velocity of the key intent: move speed along the normalised intent, or zero when the intent is within 0.001 |
| Controllers.UpdateFrame | src/main/java/kr/co/opencraft/camera/CameraController.java:36-97 | one physics step on the prepared player, after which the camera sits at its eyes |
| Controllers.OpposingKeysStop | src/main/java/kr/co/opencraft/camera/CameraController.java:61-89 | W with S, or A with D, alone, or no key, give zero horizontal velocity |
| Controllers.JumpThenGravity | src/main/java/kr/co/opencraft/camera/CameraController.java:47-50 | gravity in the same frame acts on the jump speed: 7 - 20 dt |
| FlyControllers.FlyIntent | src/main/java/kr/co/opencraft/camera/OpenCraftCameraController.java:42-71 | Space adds one and Shift takes one from the vertical intent, so together they cancel |
| FlyControllers.FlyVelocity | src/main/java/kr/co/opencraft/camera/OpenCraftCameraController.java:73-78 | no intent gives zero velocity in every component; otherwise the normalised intent at fly speed |
| FlyControllers.Prepare | src/main/java/kr/co/opencraft/camera/OpenCraftCameraController.java:39-120 | flying sets the whole velocity; walking without jump sets only the horizontal one; walking with a jump is the engine's jumped player with its horizontal velocity then set from the keys, its vertical speed, position and flags kept from the jump |
| FlyControllers.UpdateFrame | src/main/java/kr/co/opencraft/camera/OpenCraftCameraController.java:25-128 | one physics step on the prepared player in either mode, then the camera sits at its eyes |
| FlyControllers.FlyingNeverJumps | src/main/java/kr/co/opencraft/camera/OpenCraftCameraController.java:39-81 | flying ignores Space-just-pressed and never calls the jump |
| FlyControllers.FlyingSetsOnlyVelocity | src/main/java/kr/co/opencraft/camera/OpenCraftCameraController.java:73-78 | flying keeps mode, gravity, ground flag and position |
| FlyControllers.FlyingHovers | src/main/java/kr/co/opencraft/camera/OpenCraftCameraController.java:46-78 | no keys or only opposing ones give zero velocity |
| FlyControllers.SpaceAscends | src/main/java/kr/co/opencraft/camera/OpenCraftCameraController.java:66-75 | Space alone flies straight up at speed 8 |
| FlyControllers.FlyingSpeed | src/main/java/kr/co/opencraft/camera/OpenCraftCameraController.java:73-75 | with a unit normalisation, flight is at exactly speed 8 |
| FlyControllers.WalkingKeepsVertical | src/main/java/kr/co/opencraft/camera/OpenCraftCameraController.java:113-120 | walking without a jump keeps vertical speed, flags and position |
| FlyControllers.WalkingIgnoresVerticalKeys | src/main/java/kr/co/opencraft/camera/OpenCraftCameraController.java:82-120 | walking ignores Space held and Shift |

## Left out

- Float rounding is not modelled. Coordinates are exact reals, so `Float.MAX_VALUE` sentinels and the drift of the ray march's float loop counter are out of scope.
- The ray march takes the normalised direction as an input. Normalisation and `Ray` construction are libGDX code.
- The ray march samples exactly 200 points, the count exact arithmetic gives. Float accumulation of the loop counter could add or drop one.
- Trigonometry and vector normalisation are parameters of the controllers, not defined here: `FPSCamera.getDirection`, `Vector3.nor` and `len`.
- Controllers.WalkSpeed and FlyControllers.FlyingSpeed assume that normalisation returns a unit vector.
- The projection and `camera.update()` are not modelled.
- Terrain noise is an opaque function of world coordinates.
- The `(int)` cast's saturation and Java `int` overflow in the coordinates are not modelled.
- The engine's `Chunk` is modelled as its coordinates, the log of blocks added through `addBlockLocal`, and its generated flag. Its other state is not modelled.
- `ChunkLoading`: `Math.abs` overflow at `Integer.MIN_VALUE` is not modelled; integers are unbounded.
- `FlyPlayers.OnLanding` omits the log message.
- BlockInput.ProcessMouseInput omits the message printed when a placement is refused.
- `FlyPlayers.NewFlyPlayer` assumes the engine player starts like `entity/Player.java`: at rest and grounded, with gravity on. The engine itself is not part of this model.
- `FlyControllers` runs on the engine library's player, physics and camera controller, which are not part of this model.
  - The engine's physics step, jump and eye position are parameters.
  - Its camera is taken to be the one modelled in `Cameras`.
- The `InputHandler` talks to the engine to read the pick and edit the world. The model takes the pick as a `Target` and returns the edit instead of performing it.
- Rendering, meshes, textures, screens, device polling and the loading thread are not modelled.
  - `World` keeps only the count of six render instances per block.
- Physics.UpdateStaysClear: non-penetration is proved only for frame times up to 0.05 s and bounded speeds. The resolution is per-step, Physics.TerminalFallTunnels shows a fast fall passing through a single block, and Physics.TerminalFallPenetrates shows one ending inside a block.

The code behaves as follows where a reader might expect otherwise:

- The ray march never tests the origin itself: the first sample is one step along the ray.
- The box constructor does not reject negative half-extents.
- Non-penetration holds only for bounded displacement per step: a large step can pass through a block or end inside one.
