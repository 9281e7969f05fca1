# Room for Change: a Dafny model of the game's core rules

Room for Change is a small top-down labyrinth game built on libGDX. The player walks
through a grid of room pieces. Pressing W, S, A or D shakes the screen and then slides
a labyrinth piece in that direction. This project models three parts of the game in
Dafny and proves properties about them:

- `entity.dfy`, module `EntityPhysics`: the physics step of a movable actor (`Entity`).
  - `MoveWithAccel` records the intent to move.
  - `FetchCollidableRects` samples the four corner tiles of the actor's box.
  - `TryMove` resolves collisions one axis at a time: the whole vertical pass comes first, then the horizontal pass. On an overlap the box snaps against the tile with a 0.01 gap, and the velocity on that axis becomes 0.
  - `Update` runs the collision step, then integrates the acceleration into the velocity.
  - `IsNotWalking` is the idle test.
  - Each method is proved equal to a pure specification function (`Fetched`, `Moved`, `Integrated`, `Steered`, `AtRest`). The lemmas about those functions state the promised behaviour.
- `assets.dfy`, module `AssetCatalog`: the piece-template catalog of the `Assets` registry.
  - The catalog holds fifteen files, `data/piecetemplates<sep>i_piece.png`. Each file is paired with the doors open on its four sides.
  - The two random pickers draw from the template lists.
  - `clear` disposes of every bitmap and empties both lists.
  - The main theorem is about the door patterns: each is one of the fifteen non-empty subsets of the four sides, each subset occurs exactly once, and only the last pattern has every door open.
- `screen.dfy`, module `Screen`: the rules of the game screen (`GameScreen`).
  - The arrow keys become move requests of the player, but only when the screen is not paused.
  - The camera follows the player's piece when the piece has moved by more than 0.1 on some axis.
  - W/S/A/D start a "screen quake". The quake pauses the entities at once. Its completion resumes them and then moves the labyrinth piece.

Modelling conventions:

- Positions and velocities are `real`s.
- Java's `(int)` cast is `Trunc`, which truncates toward zero. `Math.floor`, used for the lower row of the corner sample, is Dafny's `.Floor`.
- `Rectangle.overlaps` is the strict-inequality intersection test.
- `Vector2.lerp(Zero, a)` is the scaling `v * (1 - a)`.
- The level's tiles are a two-dimensional `bool` array (`true` = collidable), indexed `[x, y]`.
- `MathUtils.random(n)` draws from `[0, n]`. It is modelled by a roll the caller supplies.
  - With `n < 0` the underlying `Random.nextInt(n + 1)` throws `IllegalArgumentException`; the model returns `Err(IllegalArgument)`.
  - `Array.get` past the end throws `IndexOutOfBoundsException`; the model returns `Err(IndexOutOfBounds)`.

A step of length 0 is not a no-op. On any grid where neither pass meets an overlapping sample, the box still moves by its whole velocity, and an idle entity then loses that velocity (`ZeroStepMoves`, with a concrete instance in `ZeroStepStillMoves`). Nor is there an invariant that a box never overlaps a tile after a step. A snap against one sampled tile can push the box into a tile that pass did not sample (`SnapCanEnterTile`). A stale sample can also be the placeholder rectangle `(-1, -1, 0, 0)`, which a box straddling `(-1, -1)` does overlap (`PlaceholderCanCollide`).

The fifteen `addPieceTemplate` calls of `setupPieceTemplates` appear in `SetupPieceTemplates` as one loop over the table `DOOR_PATTERNS`. The loop makes the same calls in the same order, with the same handles and the same patterns. The room-object loop of the same method is the separate method `AddRoomObjectTemplates`, which `SetupPieceTemplates` calls with the empty handle array, as `setupPieceTemplates` does. The integration half of `update` is the separate method `Integrate`, which `Update` calls after `TryMove`.

## Model

Source paths are relative to the repository root.

| member | source | states |
|---|---|---|
| EntityPhysics.GetMaxVelocity | roomforchange/roomforchange/src/com/sturdyhelmetgames/roomforchange/entity/Entity.java:29-31 | the velocity bound the clamp uses is positive, so the interval it clamps to is non-empty |
| EntityPhysics.Trunc | roomforchange/roomforchange/src/com/sturdyhelmetgames/roomforchange/entity/Entity.java:123-130 | the `(int)` cast truncates toward zero: for a non-negative value it is the floor, for a negative value the ceiling |
| EntityPhysics.NegativeFractionSampling | roomforchange/roomforchange/src/com/sturdyhelmetgames/roomforchange/entity/Entity.java:123-124 | a coordinate strictly between -1 and 0 gives column 0 under the cast but row -1 under `Math.floor` |
| EntityPhysics.Pushed | roomforchange/roomforchange/src/com/sturdyhelmetgames/roomforchange/entity/Entity.java:80-89 | UP/DOWN set the vertical acceleration to +2/-2 and keep the horizontal one; LEFT/RIGHT set the horizontal acceleration to -2/+2 and keep the vertical one |
| EntityPhysics.Steered | roomforchange/roomforchange/src/com/sturdyhelmetgames/roomforchange/entity/Entity.java:90-91 | after a move request the facing is the requested direction and the state is WALKING |
| EntityPhysics.FetchedCoversCorners | roomforchange/roomforchange/src/com/sturdyhelmetgames/roomforchange/entity/Entity.java:122-153 | when every corner lies on the grid, sample `k` is the unit tile at corner `k`'s cell if that tile is collidable and the placeholder (-1, -1, 0, 0) otherwise; for a box with non-negative position and size that unit tile contains corner `k` |
| EntityPhysics.FetchedOffGridIsStale | roomforchange/roomforchange/src/com/sturdyhelmetgames/roomforchange/entity/Entity.java:132-156 | when any one corner lies off the grid, all four samples stay exactly as they were |
| EntityPhysics.PlaceholderCanCollide | roomforchange/roomforchange/src/com/sturdyhelmetgames/roomforchange/entity/Entity.java:132-156 | a box straddling (-1, -1) samples off the grid, keeps its stale placeholders, and overlaps them under the strict test |
| EntityPhysics.HitClears | roomforchange/roomforchange/src/com/sturdyhelmetgames/roomforchange/entity/Entity.java:99-105 | a box snapped against an overlapped rectangle no longer overlaps that rectangle |
| EntityPhysics.PassOnlyOwnAxis | roomforchange/roomforchange/src/com/sturdyhelmetgames/roomforchange/entity/Entity.java:97-106 | a pass changes only the position and the velocity component of its own axis; the other coordinate, the size and the other component stay |
| EntityPhysics.PassVelocity | roomforchange/roomforchange/src/com/sturdyhelmetgames/roomforchange/entity/Entity.java:97-119 | after a pass the velocity component of its axis is either unchanged or 0 |
| EntityPhysics.PassFree | roomforchange/roomforchange/src/com/sturdyhelmetgames/roomforchange/entity/Entity.java:97-106 | a pass in which no sample overlaps the box leaves box and velocity unchanged |
| EntityPhysics.PassStops | roomforchange/roomforchange/src/com/sturdyhelmetgames/roomforchange/entity/Entity.java:99-105 | a pass in which some sample overlaps the box ends with that axis's velocity 0 |
| EntityPhysics.PassSnaps | roomforchange/roomforchange/src/com/sturdyhelmetgames/roomforchange/entity/Entity.java:97-106 | with no hit a pass leaves the box unchanged; otherwise the box is stopped and placed by the last sample that hit: before its near edge minus 0.01, or past its far edge plus 0.01 exactly when that hit was also the first and the box entered moving backwards |
| EntityPhysics.PassNoHit | roomforchange/roomforchange/src/com/sturdyhelmetgames/roomforchange/entity/Entity.java:97-106 | a pass in which no sample hits the box as the earlier samples left it returns the box unchanged |
| EntityPhysics.LastHitPlaces | roomforchange/roomforchange/src/com/sturdyhelmetgames/roomforchange/entity/Entity.java:99-104 | given the last sample that hits, the pass stops the box on its axis and puts it at that sample's far edge plus 0.01 when the box entered moving backwards and no earlier sample hit (a box falling onto a floor tile, or moving left into a wall), and otherwise at its near edge minus the box's extent minus 0.01 |
| EntityPhysics.PassStoppedSnapsNear | roomforchange/roomforchange/src/com/sturdyhelmetgames/roomforchange/entity/Entity.java:100-104 | once the axis's velocity is 0, a pass leaves the box alone or snaps it before the near edge of the last sample that hit |
| EntityPhysics.MovedKeepsSize | roomforchange/roomforchange/src/com/sturdyhelmetgames/roomforchange/entity/Entity.java:94-120 | collision resolution never changes the width or height of the box |
| EntityPhysics.MovedVertical | roomforchange/roomforchange/src/com/sturdyhelmetgames/roomforchange/entity/Entity.java:95-106 | the final y and vertical velocity are those the vertical pass left; with no overlap the box moved by exactly `vel.y` and kept it, with an overlap `vel.y` is 0 |
| EntityPhysics.MovedHorizontal | roomforchange/roomforchange/src/com/sturdyhelmetgames/roomforchange/entity/Entity.java:108-119 | the vertical pass leaves x and `vel.x` alone; the box then moves by `vel.x` from where the vertical pass left it, and keeps that spot and `vel.x` with no overlap, or has `vel.x` 0 with one |
| EntityPhysics.MovedVelocity | roomforchange/roomforchange/src/com/sturdyhelmetgames/roomforchange/entity/Entity.java:94-120 | each velocity component after collision resolution is the old one or 0 |
| EntityPhysics.Clamp | roomforchange/roomforchange/src/com/sturdyhelmetgames/roomforchange/entity/Entity.java:57-68 | a clamped component lies in [-VEL_MAX, VEL_MAX]: unchanged inside, the nearer bound outside |
| EntityPhysics.DampingShrinks | roomforchange/roomforchange/src/com/sturdyhelmetgames/roomforchange/entity/Entity.java:71-75 | WALKING damping with step in [0, 0.2] and IDLE scaling with step in [0, 1] never increase a component's magnitude |
| EntityPhysics.IntegratedBounded | roomforchange/roomforchange/src/com/sturdyhelmetgames/roomforchange/entity/Entity.java:56-75 | with such a step, the velocity `update` leaves has each component within [-VEL_MAX, VEL_MAX] |
| EntityPhysics.RestPersists | roomforchange/roomforchange/src/com/sturdyhelmetgames/roomforchange/entity/Entity.java:53-75 | an entity at rest with no acceleration is still at rest after one step of such a length, whatever it collides with |
| EntityPhysics.SnapCanEnterTile | roomforchange/roomforchange/src/com/sturdyhelmetgames/roomforchange/entity/Entity.java:94-120 | a box clear of every collidable tile can end a step overlapping one: the horizontal snap against tile (0, 2) pushes it into tile (2, 2), which that pass did not sample |
| EntityPhysics.ZeroStepMoves | roomforchange/roomforchange/src/com/sturdyhelmetgames/roomforchange/entity/Entity.java:53-78 | on any grid where neither pass meets an overlapping sample, a step of length 0 moves the box by its whole velocity and leaves an idle entity with zero velocity |
| EntityPhysics.ZeroStepStillMoves | roomforchange/roomforchange/src/com/sturdyhelmetgames/roomforchange/entity/Entity.java:53-78 | a step of length 0 moves the box by its velocity and zeroes an idle entity's velocity: it is not a no-op |
| EntityPhysics.Entity.constructor | roomforchange/roomforchange/src/com/sturdyhelmetgames/roomforchange/entity/Entity.java:14-47 | a new entity has bounds (x, y, width, height), state IDLE, facing DOWN, zero velocity and acceleration, stateTime 0 and four zero sample rectangles |
| EntityPhysics.Entity.MoveWithAccel | roomforchange/roomforchange/src/com/sturdyhelmetgames/roomforchange/entity/Entity.java:80-92 | the acceleration, facing and state become the `Steered` intent of the old ones; nothing else changes |
| EntityPhysics.Entity.FetchCollidableRects | roomforchange/roomforchange/src/com/sturdyhelmetgames/roomforchange/entity/Entity.java:122-157 | the sample array becomes `Fetched` of the box and the old samples: four corner cells, all or nothing |
| EntityPhysics.Entity.TryMove | roomforchange/roomforchange/src/com/sturdyhelmetgames/roomforchange/entity/Entity.java:94-120 | box, velocity and samples become `Moved` of the old ones: the vertical pass over freshly fetched samples, then the horizontal pass |
| EntityPhysics.Entity.Integrate | roomforchange/roomforchange/src/com/sturdyhelmetgames/roomforchange/entity/Entity.java:56-75 | the velocity becomes `Integrated` (add, clamp per axis, damp or scale) and the acceleration is scaled by the step |
| EntityPhysics.Entity.Update | roomforchange/roomforchange/src/com/sturdyhelmetgames/roomforchange/entity/Entity.java:53-78 | box and samples are those of `Moved`, the velocity is `Integrated` of the moved velocity and the old acceleration, the acceleration is scaled by the step and stateTime grows by exactly the step |
| EntityPhysics.Entity.IsNotWalking | roomforchange/roomforchange/src/com/sturdyhelmetgames/roomforchange/entity/Entity.java:159-166 | returns true iff both velocity components lie strictly inside (-0.001, 0.001); then the state is IDLE, otherwise it is unchanged |
| Screen.KeysAppliedLaterWins | roomforchange/roomforchange/src/com/sturdyhelmetgames/roomforchange/screen/GameScreen.java:88-99 | with keys polled UP, DOWN, RIGHT, LEFT the later held key wins each axis and the facing, and only a held key makes the player walk |
| Screen.FollowPiece | roomforchange/roomforchange/src/com/sturdyhelmetgames/roomforchange/screen/GameScreen.java:58-65 | a tween starts iff the piece differs from the recorded position by more than 0.1 on x or y; it targets (piece.x + 6, piece.y + 4) and records the piece, otherwise the record stays |
| Screen.FollowSettles | roomforchange/roomforchange/src/com/sturdyhelmetgames/roomforchange/screen/GameScreen.java:60-64 | a second check with the same piece position starts no tween |
| Screen.FollowStayAtMostOne | roomforchange/roomforchange/src/com/sturdyhelmetgames/roomforchange/screen/GameScreen.java:58-65 | any number of checks with one piece position start at most one tween, none iff the record was already within 0.1, and leave the record within 0.1 of the piece |
| Screen.QuakeKeyRoundTrip | roomforchange/roomforchange/src/com/sturdyhelmetgames/roomforchange/screen/GameScreen.java:113-129 | W, S, A, D and the four quake directions correspond one to one: a key starts a quake toward `d` iff it is the key of `d` |
| Screen.QuakeRoundTrip | roomforchange/roomforchange/src/com/sturdyhelmetgames/roomforchange/screen/GameScreen.java:145-154 | after a quake starts the entities are paused; after its completion they run again and the last call moves the piece in the quake's direction |
| Screen.GameScreen.constructor | roomforchange/roomforchange/src/com/sturdyhelmetgames/roomforchange/screen/GameScreen.java:25-39 | the recorded piece position starts at (0, 0), the camera at (6, 4), no quake and no level calls |
| Screen.GameScreen.ProcessKeys | roomforchange/roomforchange/src/com/sturdyhelmetgames/roomforchange/screen/GameScreen.java:85-99 | while paused the player's intent is unchanged; otherwise it is `KeysApplied` to the held keys |
| Screen.GameScreen.FollowCurrentPiece | roomforchange/roomforchange/src/com/sturdyhelmetgames/roomforchange/screen/GameScreen.java:58-65 | the tween started and the new recorded position are `FollowPiece` of the old record and the piece |
| Screen.GameScreen.UpdateScreen | roomforchange/roomforchange/src/com/sturdyhelmetgames/roomforchange/screen/GameScreen.java:53-65 | one frame applies the keys first and then the follow check on the piece position the level reports |
| Screen.GameScreen.StartScreenQuake | roomforchange/roomforchange/src/com/sturdyhelmetgames/roomforchange/screen/GameScreen.java:145-154 | activates a 2.8-second quake toward `dir` and pauses the entities at once |
| Screen.GameScreen.KeyDown | roomforchange/roomforchange/src/com/sturdyhelmetgames/roomforchange/screen/GameScreen.java:113-131 | a key is consumed iff it is W, S, A or D, which starts the quake of its direction; any other key is handed on with the screen state unchanged |
| Screen.GameScreen.CompleteScreenQuake | roomforchange/roomforchange/src/com/sturdyhelmetgames/roomforchange/screen/GameScreen.java:146-151 | a running quake's completion resumes the entities and then moves the piece in its direction, once |
| AssetCatalog.DecimalRoundTrip | roomforchange/roomforchange/src/com/sturdyhelmetgames/roomforchange/assets/Assets.java:73-74 | the decimal notation of a template number reads back as that number |
| AssetCatalog.PieceHandlesDistinct | roomforchange/roomforchange/src/com/sturdyhelmetgames/roomforchange/assets/Assets.java:71-75 | different template numbers name different files |
| AssetCatalog.Catalog | roomforchange/roomforchange/src/com/sturdyhelmetgames/roomforchange/assets/Assets.java:71-106 | the catalog has exactly fifteen templates |
| AssetCatalog.CatalogPatternsWellFormed | roomforchange/roomforchange/src/com/sturdyhelmetgames/roomforchange/assets/Assets.java:77-106 | every door pattern has four entries and at least one open door |
| AssetCatalog.CatalogDistinct | roomforchange/roomforchange/src/com/sturdyhelmetgames/roomforchange/assets/Assets.java:71-106 | any two templates differ in door pattern and in bitmap file |
| AssetCatalog.PatternIndexInverse | roomforchange/roomforchange/src/com/sturdyhelmetgames/roomforchange/assets/Assets.java:77-106 | the position of a pattern in the table and the table lookup are inverse to each other on the well-formed patterns |
| AssetCatalog.CatalogComplete | roomforchange/roomforchange/src/com/sturdyhelmetgames/roomforchange/assets/Assets.java:77-106 | every non-empty set of open sides is the pattern of some template |
| AssetCatalog.CatalogOnePerPattern | roomforchange/roomforchange/src/com/sturdyhelmetgames/roomforchange/assets/Assets.java:77-106 | every non-empty set of open sides is the pattern of exactly one template |
| AssetCatalog.CatalogOnlyLastAllOpen | roomforchange/roomforchange/src/com/sturdyhelmetgames/roomforchange/assets/Assets.java:105-106 | the template with every door open is the fifteenth and only that one |
| AssetCatalog.RandomInt | roomforchange/roomforchange/src/com/sturdyhelmetgames/roomforchange/assets/Assets.java:193-200 | the draw over [0, n] succeeds iff n is non-negative and then lies in [0, n]; otherwise it fails with an illegal argument |
| AssetCatalog.Get | roomforchange/roomforchange/src/com/sturdyhelmetgames/roomforchange/assets/Assets.java:193-200 | the list lookup succeeds iff the index is in range, with the element at that index, and otherwise fails out of bounds |
| AssetCatalog.RoomObjectsFrom | roomforchange/roomforchange/src/com/sturdyhelmetgames/roomforchange/assets/Assets.java:109-112 | one room-object template per handle, in order, each with the bitmap of its handle |
| AssetCatalog.Assets.constructor | roomforchange/roomforchange/src/com/sturdyhelmetgames/roomforchange/assets/Assets.java:53-54 | the registry starts with both template lists empty |
| AssetCatalog.Assets.AddPieceTemplate | roomforchange/roomforchange/src/com/sturdyhelmetgames/roomforchange/assets/Assets.java:115-119 | appends one template with the bitmap of the handle and the given door pattern |
| AssetCatalog.Assets.SetupPieceTemplates | roomforchange/roomforchange/src/com/sturdyhelmetgames/roomforchange/assets/Assets.java:70-113 | appends exactly the fifteen catalog templates in order, template `k` from file `k + 1` and pattern `k`, and no room-object template |
| AssetCatalog.Assets.AddRoomObjectTemplates | roomforchange/roomforchange/src/com/sturdyhelmetgames/roomforchange/assets/Assets.java:108-112 | appends one room-object template per handle, in order |
| AssetCatalog.Assets.Clear | roomforchange/roomforchange/src/com/sturdyhelmetgames/roomforchange/assets/Assets.java:179-191 | disposes of every piece bitmap and then every room-object bitmap, in list order, and leaves both lists empty |
| AssetCatalog.Assets.GetRandomPieceTemplate | roomforchange/roomforchange/src/com/sturdyhelmetgames/roomforchange/assets/Assets.java:193-195 | on a non-empty list the draw lies in [0, size - 1] and yields that template; on the empty list it fails with an illegal argument |
| AssetCatalog.Assets.GetRandomRoomObjectTemplate | roomforchange/roomforchange/src/com/sturdyhelmetgames/roomforchange/assets/Assets.java:197-200 | the draw lies in [0, size]; it yields a template iff it is below the size and fails out of bounds otherwise |
| AssetCatalog.Assets.GetRandomRoomObjectTemplateInBounds | roomforchange/roomforchange/src/com/sturdyhelmetgames/roomforchange/assets/Assets.java:197-200 | the room-object picker with the draw over [0, size - 1]: it yields the drawn template on a non-empty list |
| AssetCatalog.PiecePickerReachesAll | roomforchange/roomforchange/src/com/sturdyhelmetgames/roomforchange/assets/Assets.java:193-195 | every template in the list is returned by some draw |
| AssetCatalog.RoomObjectPickerOffByOne | roomforchange/roomforchange/src/com/sturdyhelmetgames/roomforchange/assets/Assets.java:197-200 | the draw equal to the size is possible and fails out of bounds; on the empty list the setup leaves, every draw fails |
| AssetCatalog.RoomObjectPickerInBounds | roomforchange/roomforchange/src/com/sturdyhelmetgames/roomforchange/assets/Assets.java:197-200 | the corrected picker never indexes out of bounds and returns a template of the list |

## Left out

- Float rounding: positions, velocities, the 0.01 snap gap and the 0.001 and 0.1 tolerances are exact `real`s.
- The level, its tiles and the labyrinth generator are not part of this model. The tile grid is a rectangular `bool` array given to the entity. A ragged or missing tile array is not modelled.
- The log message written when a lookup leaves the grid is not modelled; only the stale samples are.
- Rendering, the mini-map camera, the zoom keys (MINUS/PLUS) and `updateCameraPos` are not modelled.
- The tween engine is not modelled: a started tween is an output with its target, and the camera does not move toward it (`cameraPosition` keeps its initial value).
- `ScreenQuake` timing is not modelled. The quake is a record of its duration and direction, and its end is the explicit method `CompleteScreenQuake`.
- The calls into the level (`pauseEntities`, `resumeEntities`, `moveLabyrinthPiece`) are recorded as a trace. Their effect on the level is not modelled.
- `level.update`, `camera.update`, `screenQuake.update` and `cameraTweenManager.update` are not modelled. The piece position the level reports after its update is an input of `UpdateScreen`.
- Sound playback in `startScreenQuake` is not modelled.
- The base screen's own `keyDown` is not modelled; an unhandled key is reported as `Delegated`.
- Key polling is a `KeyState` of four booleans.
- The default `GameScreen()` constructor is not modelled, since it does not place the camera.
- Texture, font, animation and sound loading (`loadGameData`, `setupAssets`, the `AssetManager` calls in `clear`) are not modelled.
- File handles and bitmaps are opaque tokens: a bitmap is known only by the file it was read from, and disposal is the record `disposed`.
- Random draws are an argument supplied by the caller, so the model does not capture the distribution of `MathUtils.random`.
- Screen.FollowStayAtMostOne: the closeness of the final record to the piece is stated only when at least one check ran, because with none the record is the initial one.

## Findings

| source | as written | input that shows it | evidently intended | confidence | as-written member | corrected member |
|---|---|---|---|---|---|---|
| roomforchange/roomforchange/src/com/sturdyhelmetgames/roomforchange/assets/Assets.java:197-200 | the room-object index is drawn with `MathUtils.random(size)`, over [0, size] | any list with the draw equal to `size`; the empty list that `setupPieceTemplates` leaves (draw 0) | the draw over [0, size - 1], as in `getRandomPieceTemplate` | not executed | AssetCatalog.Assets.GetRandomRoomObjectTemplate (shown by AssetCatalog.RoomObjectPickerOffByOne) | AssetCatalog.Assets.GetRandomRoomObjectTemplateInBounds (proved by AssetCatalog.RoomObjectPickerInBounds) |
