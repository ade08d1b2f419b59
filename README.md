# Tile-map platformer player, modelled in Dafny

This project models the game logic of two revisions of a small pygame platformer.
The map is a 32-pixel tile grid built from a matrix of integers. A player sprite falls
under gravity, slides with friction and collides with grass and water tiles.

- `5_jumping.py` is the later revision. Each frame, `move()` integrates the player's
  kinematics, wraps it horizontally around the screen and re-places its rectangle.
  Then `check_collisions()` lands it on grass, but only when it is not rising, and
  sends it back to its starting point when it touches water. `jump()` gives an upward
  speed of 15 only while the rectangle touches grass.
- `4_adding_gravity.py` is the earlier revision. It has a single `update()`. It does
  not wrap, and it lands on grass whatever the vertical direction. It kills every
  water tile it touches; a killed tile leaves both the water group and the main group.

Both revisions build the map the same way. The nested loop over the matrix turns each
cell into a tile:

| cell value | what the loop does |
|---|---|
| 1 | dirt tile, added to the main group only |
| 2 | grass tile, added to the main and grass groups |
| 3 | water tile, added to the main and water groups |
| 4 | places the player with its bottom-left corner at the cell's bottom-left |
| anything else | nothing |

Files:

- `rects.dfy` (module `Rects`): integer rectangles, `bottomleft` assignment and the
  overlap test.
- `tiles.dfy` (module `Tiles`): cell kinds, the build loop as the class `Groups`, and
  the sprite-collision query as `Collide`. It also holds `kill()` as removal from
  every group, and the lemmas about the built groups.
- `kinematics.dfy` (module `Kinematics`): the integration step both revisions share,
  the wrap-around, and lemmas about repeated steps.
- `jumping.dfy` (module `Jumping`): the later revision's `Player` class.
- `gravity.dfy` (module `Gravity`): the earlier revision's `Player` class.

Each stateful piece of the source is a class whose methods change their fields step by
step, as the Python does: the sprite groups, and the two players. Each method is
proved against a pure function of the old state (`Populate` against `GridTiles`,
`Move` against `Moved`, `Update` against `Stepped`). The properties are proved as
lemmas about those functions.

The model takes these decisions:

- Sprite groups are sequences in insertion order. For the build loop this is the
  map's row-major order, so "the first colliding tile" is the earliest tile created.
- A player's rectangle is moved only where the source assigns `rect.bottomleft`. So
  the collision tests and `jump()` use the rectangle of the integrated position, not
  the position the grass correction sets.
- Assigning a real position to a rectangle converts it to integers in a way the model
  does not fix. Each player carries that conversion as a parameter, `toPixel`.
- The build loop returns every spawn point it meets, in map order. The source binds
  its player to the last one, and it has none when there is no 4 cell.
- The size of a tile image is a parameter, `size`. The dirt, grass and water images are
  taken to share one square size, as the comment at 5_jumping.py:11 says (32 by 32).
  The loop places tiles 32 pixels apart.

What the code does, and so what the model does:

- The build loop validates nothing. Ragged rows are walked as given, and unknown
  values, a missing spawn cell and several spawn cells produce no error.
- Dirt (value 1) is a tile of its own kind. It goes into the main group only.
- Grass and water are the only groups the player tests.
- The earlier revision has no starting point, and touching water does not move the
  player.

## Model

| member | source | states |
|---|---|---|
| Rects.Rect.WithBottomLeft | 5_jumping.py:59 | placing a rectangle by its bottom-left corner puts its left edge at x and its bottom at y, and keeps its size |
| Rects.TouchingIsNotOverlapping | 5_jumping.py:117 | a rectangle whose bottom is another's top does not collide with it, in either order |
| Rects.Overlaps | 5_jumping.py:117 | reference definition of the rectangle collision `spritecollide` applies to each member: the two rectangles' interiors intersect on both axes |
| Tiles.CellKind | 5_jumping.py:168-173 | reference definition of the tile a cell value asks for: dirt for 1, grass for 2, water for 3, none for any other value |
| Tiles.TileAt | 5_jumping.py:48-49 | reference definition of the tile created for cell (i, j): its kind and a `size` by `size` rectangle with top-left corner (32 j, 32 i), the arguments passed at lines 169-173 |
| Tiles.CellTiles | 5_jumping.py:168-173 | reference definition of the tiles one cell contributes: its one tile for 1, 2 or 3, none for any other value |
| Tiles.SpawnAt | 5_jumping.py:175 | reference definition of the spawn point of cell (i, j): (32 j, 32 i + 32), the cell's bottom-left corner |
| Tiles.CellSpawns | 5_jumping.py:174-175 | reference definition of the spawn points one cell contributes: its spawn point for 4, none otherwise |
| Tiles.RowTiles | 5_jumping.py:167-173 | reference definition of the tiles one row contributes, column by column, each at (32 j, 32 i) |
| Tiles.GridTiles | 5_jumping.py:165-173 | reference definition of every tile the build loop creates, row by row |
| Tiles.RowSpawns | 5_jumping.py:174-175 | reference definition of the spawn points one row contributes, column by column |
| Tiles.GridSpawns | 5_jumping.py:165-175 | reference definition of the spawn points of the whole map, row by row |
| Tiles.OfKind | 5_jumping.py:35-45 | a sub-group holds exactly the main group's tiles of its kind, and is no longer than the main group |
| Tiles.Collide | 5_jumping.py:117 | the collision query returns exactly the group's tiles whose rectangle overlaps the player's; it is empty exactly when no tile of the group overlaps |
| Tiles.Remove | 4_adding_gravity.py:105 | after the kill, a group holds exactly its tiles that were not killed |
| Tiles.Groups.constructor | 5_jumping.py:22-24 | the main, grass and water groups start empty |
| Tiles.Groups.AddTile | 5_jumping.py:32-49 | a tile at top-left (x, y) joins the main group, and also the grass or water group when it is of that kind |
| Tiles.Groups.PlaceCell | 5_jumping.py:168-175 | one cell adds the tiles its value asks for to the groups and returns its spawn point, if any |
| Tiles.Groups.PopulateRow | 5_jumping.py:167-175 | the inner loop appends the row's tiles to the groups in column order and returns the row's spawn points |
| Tiles.Groups.Populate | 5_jumping.py:165-176 | the build loop appends every tile of the map to the main group in row-major order, and the grass and water tiles of that sequence to their groups; it returns the map's spawn points |
| Tiles.Build | 5_jumping.py:165-176 | the three groups created empty (as at lines 22-24) and filled by the build loop hold exactly the map's tiles in map order, with consistent sub-groups, all three in row-major order, and the map's spawn points are returned |
| Tiles.Groups.Kill | 4_adding_gravity.py:105 | killing sprites removes them from the main, grass and water groups and keeps every other tile in order |
| Tiles.OfKindAppend | 5_jumping.py:39-45 | selecting a kind distributes over appending tiles to a group |
| Tiles.RemoveAppend | 4_adding_gravity.py:105 | killing sprites distributes over the concatenation of two groups |
| Tiles.RemoveOfKind | 4_adding_gravity.py:105 | killing sprites and then selecting a kind gives the same group as selecting first and killing after |
| Tiles.RemoveNone | 4_adding_gravity.py:105 | killing sprites none of which is in a group leaves the group unchanged |
| Tiles.KillKeepsConsistent | 4_adding_gravity.py:105 | killing tiles of one kind keeps the sub-groups equal to the main group's tiles of their kind, and leaves the sub-group of any other kind unchanged |
| Tiles.FirstHitIsEarliest | 5_jumping.py:117-121 | the first tile the query returns is the earliest tile of the group that overlaps |
| Tiles.FirstHitIsTopmost | 5_jumping.py:117-121 | in a group kept in row-major order, the first tile the query returns is a highest one among the tiles that overlap |
| Tiles.OfKindRowMajor | 5_jumping.py:39-45 | a sub-group of a group in row-major order is itself in row-major order |
| Tiles.RowTilesPlaced | 5_jumping.py:167-173 | the tiles of row i lie on that row, within its columns, in strictly increasing column order |
| Tiles.GridTilesRowMajor | 5_jumping.py:165-173 | the map's tiles lie within its rows, in strictly increasing row-major order |
| Tiles.RowTilesFrom | 5_jumping.py:167-173 | every tile of a row comes from a column holding 1, 2 or 3 |
| Tiles.RowTilesHas | 5_jumping.py:167-173 | every column holding 1, 2 or 3 yields its tile |
| Tiles.RowTilesMembers | 5_jumping.py:167-173 | a row's tiles are exactly the tiles its cells ask for |
| Tiles.GridTilesFrom | 5_jumping.py:165-173 | every tile of the map comes from a cell holding 1, 2 or 3, of that kind, at (32 j, 32 i) |
| Tiles.GridTilesHas | 5_jumping.py:165-173 | every cell holding 1, 2 or 3 yields its tile |
| Tiles.GridTilesMembers | 5_jumping.py:165-173 | the map's tiles are exactly the tiles its cells ask for |
| Tiles.CellYield | 4_adding_gravity.py:136-144 | a cell holding 1, 2 or 3 yields a tile of its kind at top-left (32 j, 32 i); a cell holding any other value yields no tile at that corner; no two tiles share a top-left corner |
| Tiles.RowSpawnsFrom | 5_jumping.py:174-175 | every spawn point of a row comes from a column holding 4 |
| Tiles.RowSpawnsHas | 5_jumping.py:174-175 | every column holding 4 yields its spawn point |
| Tiles.RowSpawnsMembers | 5_jumping.py:174-175 | a row's spawn points are exactly the bottom-left corners of its 4 cells |
| Tiles.GridSpawnsFrom | 4_adding_gravity.py:145-146 | every spawn point of the map comes from a cell holding 4 |
| Tiles.GridSpawnsHas | 4_adding_gravity.py:145-146 | every cell holding 4 yields its spawn point |
| Tiles.GridSpawnsMembers | 5_jumping.py:174-175 | the map's spawn points are exactly the points (32 j, 32 i + 32) of its 4 cells |
| Tiles.SpawnStandsOnCellBelow | 5_jumping.py:175 | a player placed by a 4 cell has its bottom on the top of the cell below, in the same column, and does not collide with a tile there |
| Tiles.BuiltGroups | 4_adding_gravity.py:136-144 | the tiles the build loop creates, and the grass and water tiles among them, are each in strictly increasing row-major order |
| Kinematics.Push | 5_jumping.py:91-99 | reference definition of the horizontal acceleration the keys ask for: 2 for right, -2 for left, right winning, 0 for none |
| Kinematics.Integrate | 5_jumping.py:102-104 | reference definition of one integration step: friction 0.15 of the old velocity off the horizontal acceleration, gravity 0.5, v' = v + a and p' = p + v' + a / 2 |
| Kinematics.Drift | 4_adding_gravity.py:80-93 | reference definition of repeated integration steps, one per frame, while the player touches nothing |
| Kinematics.Wrap | 5_jumping.py:107-110 | the wrapped x always lies in [-64, 960], and equals the old x exactly when the old x was already in that interval; where an x outside comes back is stated by `Jumping.WrapsAround` |
| Kinematics.FromRest | 5_jumping.py:91-104 | from rest with no key held, one step gives velocity (0, 0.5), a fall of 0.75 and acceleration (0, 0.5), whatever the old acceleration |
| Kinematics.KeysOnlyPushSideways | 5_jumping.py:91-99 | gravity is 0.5 and the vertical velocity and position after a step do not depend on the keys; with the right key held the left key makes no difference |
| Kinematics.TowardsTerminal | 5_jumping.py:102-103 | each step shrinks the gap between the horizontal velocity and the held keys' terminal velocity (push / 0.15) by the factor 0.85 |
| Kinematics.DriftVertical | 4_adding_gravity.py:80-93 | after n steps without contact, whatever keys were held, the vertical velocity has grown by 0.5 n and the player has fallen n v + n (n + 2) / 4 |
| Kinematics.DriftHorizontal | 4_adding_gravity.py:91-92 | while the same keys stay held, the gap to the terminal horizontal velocity after n steps is 0.85^n of the initial gap |
| Kinematics.DriftSpeedLimit | 5_jumping.py:96-103 | a horizontal speed of at most 40/3 stays at most 40/3 over any number of steps without contact, whatever keys are held |
| Jumping.Moved | 5_jumping.py:87-110 | reference definition of `move()` on the kinematics: the integration step, then the wrap-around of x |
| Jumping.Resolved | 5_jumping.py:115-128 | reference definition of `check_collisions()`: landing on the first grass tile touched when not rising, then the return to the starting point at rest on water contact |
| Jumping.Jumped | 5_jumping.py:131-134 | reference definition of `jump()`: vertical velocity -15 while touching grass |
| Jumping.Stepped | 5_jumping.py:82-112 | reference definition of one frame: `move()`, the rectangle placed at the new position, then `check_collisions()` against that rectangle |
| Jumping.Player.constructor | 5_jumping.py:55-71 | the rectangle is placed by its bottom-left corner at (x, y), which is also the position and the starting point; velocity and acceleration are zero |
| Jumping.Player.Update | 5_jumping.py:82-84 | a frame is `move()` followed by `check_collisions()` against the rectangle `move()` left |
| Jumping.Player.Move | 5_jumping.py:87-112 | the new kinematics are the integration step followed by the wrap-around, and the rectangle is placed at the new position |
| Jumping.Player.CheckCollisions | 5_jumping.py:115-128 | the new position and velocity are the grass landing (only when not rising) followed by the water respawn, tested against the current rectangle |
| Jumping.Player.Jump | 5_jumping.py:131-134 | the vertical velocity becomes -15 when the rectangle touches grass, and nothing changes otherwise |
| Jumping.LandsOnEarliestGrass | 5_jumping.py:117-122 | falling or still onto grass without water contact: the bottom goes to the top of the earliest grass tile touched, the vertical velocity to 0, and nothing else changes |
| Jumping.LandsOnHighestGrass | 5_jumping.py:117-122 | with a grass group in map order and without water contact, the landing height is at or above every grass tile touched, and the vertical velocity becomes 0 |
| Jumping.RisingPassesThrough | 5_jumping.py:118-122 | rising, or touching no grass, and touching no water: collisions change nothing |
| Jumping.WaterRespawns | 5_jumping.py:125-128 | touching water puts the player back at its starting point at rest, whatever the grass did, and keeps the acceleration |
| Jumping.CollisionsKeepX | 5_jumping.py:115-128 | collisions never change x, except by a return to the starting point |
| Jumping.JumpNeedsGrass | 5_jumping.py:131-134 | a jump sets the vertical velocity to -15 when some grass tile overlaps the rectangle, and leaves the state unchanged when none does |
| Jumping.JumpLiftsOff | 5_jumping.py:131-134 | in the frame after a jump from grass, the player rises by 14.25 with vertical velocity -14.5, so grass does not hold it back, unless it touches water |
| Jumping.WrapsAround | 5_jumping.py:107-110 | a player integrated past x = 960 comes back at x = 0, and one integrated below x = -64 comes back at x = 960, unless it touches water in that frame |
| Jumping.StaysOnScreen | 5_jumping.py:107-128 | after a frame the player's x lies in [-64, 960], or the player's whole position is its starting point |
| Gravity.Landed | 4_adding_gravity.py:99-102 | reference definition of the grass contact: on any contact the bottom goes to the first grass tile's top and the vertical velocity to 0 |
| Gravity.Drowned | 4_adding_gravity.py:105 | reference definition of the water contact: the water tiles touched are killed, which removes them from every group |
| Gravity.Stepped | 4_adding_gravity.py:76-106 | reference definition of one `update()`: integration, the rectangle placed at the new position, then the grass and water contacts against that rectangle |
| Gravity.Run | 4_adding_gravity.py:156-173 | reference definition of the main loop calling `update()` once per frame, with the keys held in each frame |
| Gravity.Player.constructor | 4_adding_gravity.py:55-67 | the rectangle is placed by its bottom-left corner at (x, y), which is also the position; velocity and acceleration are zero |
| Gravity.Player.Update | 4_adding_gravity.py:76-106 | the new kinematics, rectangle and groups are one frame of the earlier revision: integration, rectangle placement, grass landing, and the kill of the water tiles touched |
| Gravity.LandsWhicheverWay | 4_adding_gravity.py:99-102 | on grass contact, rising or not, the bottom goes to the top of the earliest grass tile touched and the vertical velocity to 0, and nothing else changes |
| Gravity.DrownsTouchedWater | 4_adding_gravity.py:105-106 | the water contact removes exactly the water tiles touched from the water and main groups; the grass group is unchanged and the groups stay consistent |
| Gravity.FrameMotion | 4_adding_gravity.py:91-96 | x after a frame is exactly the integrated x with no wrap, the rectangle sits at the integrated position before the grass correction, and water has no effect on the motion |
| Gravity.RunKeepsGrass | 4_adding_gravity.py:99-106 | over any number of frames the grass group never changes, the water and main groups only lose tiles, every dirt and grass tile of the main group stays in it, and the groups stay consistent |
| Gravity.RunSparesUntouched | 4_adding_gravity.py:105 | a water tile that no frame's rectangle overlaps is still in the water group after all the frames |
| Gravity.RunSparesUntouchedInMain | 4_adding_gravity.py:105 | a water tile that no frame's rectangle overlaps is still in the main group after all the frames |
| Gravity.RunWithoutGrassDrifts | 4_adding_gravity.py:99-102 | while no frame's rectangle touches grass, the motion over the frames is the free integration alone |

## Left out

- pygame setup, the display, the caption, clock and FPS pacing, image loading,
  background and group drawing, `display.flip`, `pygame.quit` and the
  `print('YOU CANT SWIM')` output. They are I/O with no effect on the game state.
- Keyboard polling and the event loop. The held arrow keys are a `Keys` argument of
  each frame, and a space-bar press is a call to `Jumping.Player.Jump`.
- The conversion from a real position to the rectangle's integer coordinates. The
  library is not part of this model, so the conversion is the `toPixel` parameter.
  Nothing is claimed about a resting position on grass being a fixed point, because
  that depends on the conversion.
- IEEE floating point. Positions, velocities and accelerations are exact reals.
- pygame's `Rect`, `spritecollide` and `Group` internals. Collision is strict overlap
  of the two rectangles on both axes. Rectangles that only share an edge do not
  collide. Rectangles of zero size are treated by the same formula, which may differ
  from the library. Groups are insertion-ordered sequences, and `kill()` is removal
  from every group.
- The concrete 20 by 30 `tile_map` literal. The build loop is modelled for every
  matrix.
- Which player the source binds when the map has no 4 cell or several. The loop
  returns all spawn points instead.
- The `my_player_group` group. Its `update()` call in the main loop is what runs each
  player's `update()` every frame, and with several 4 cells every player created is in
  it and is updated, not only the last one bound to `my_player`. The model steps one
  player and leaves the group and its other players out.
- `2d_vectors_example.py`. It is a different step from the game's: it reads the keys
  once before its loop, uses a horizontal acceleration of -1, 0 or 1, and computes
  `v += a; p += v` with no friction and no half-acceleration term. It is not modelled.
