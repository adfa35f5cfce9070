# SkalekCraft core in Dafny

SkalekCraft is a browser voxel sandbox. The world is a sparse map from
integer cells to block records. Instanced meshes hold one counter per block
type. Water spreads by a two-phase cellular automaton, and a seeded
linear-congruential generator drives the terrain and the trees. Mobs and the
first-person player collide with the block map, and the page script keeps a
hotbar, a table of remote players and a frame clock.

This project models that core on exact integers and reals and proves what it
promises:

- the placement and removal rules of the block store;
- the water tick's proposals and its first-proposal-wins write phase;
- the generator's range;
- the terrain column rule and the tree shapes and spacing;
- the mob's first-solid-block collision response and its intent rules;
- the player's key flags, collision predicate and per-axis revert;
- the page's slot arithmetic, peer table, block message dispatch and broadcast throttle.

The model has these files:

- `common.dfy`: Option, cells and vectors, `Abs`.
- `voxels.dfy` (module `Voxels`): the store as a value.
  - `Place`, `Remove` and `Rng` as functions.
  - The store invariant `Valid`: the iteration order lists each key once, and the counters stay within capacity.
- `water.dfy` (module `WaterFlow`): the water tick as functions on the store.
- `terrain.dfy` (module `Terrain`): column layers, water fill, tree plans, tree spacing and the generation fold.
- `world.dfy` (module `WorldObject`): the class `World`. Its fields are the block map, the map's iteration order, the mesh counters, the water signal and the seed. Each method's new state is the matching function of its old state.
- `mob.dfy` (module `MobLogic`): the mob's collision scan, collision response and update decisions, and the class `Mob`.
- `player.dfy` (module `PlayerLogic`): key flags, the collision box, the frame update, and the class `Player`.
- `client.dfy` (module `Client`): the page script's hotbar, placement, peer table, block messages and frame clock, and the class `Page`.

Things the model takes as inputs rather than computing:

- **The terrain height field.** `generateSimple` computes it with sin, cos and sqrt. The model takes it as a function parameter `height(x, z)`.
- **Random and timing draws.** `Math.random` and the ulrich's water search (which uses `performance.now`) arrive as a `Draws` value.
- **Camera motion.** The pointer-lock controls' `moveRight` and `moveForward` arrive as function parameters. They must be undone by the opposite move.
- **Move direction.** The controls' normalised move direction is a parameter.
- **Clock readings and network messages.** These are parameters of the page's handlers.

## Model

| member | source | states |
|---|---|---|
| Voxels.KindOf | World.js:36-76 | A type name maps to one of the eight known types exactly when it is one of their names. Any other name is an unknown type. |
| Voxels.Empty | World.js:5-93 | A new world has no blocks, a valid store and seed 123456. |
| Voxels.GetBlock | World.js:101-103 | A cell is occupied exactly when getBlockType reports a type for it. |
| Voxels.GetType | World.js:105-108 | The type of the record at the cell, or nothing exactly when the cell is air. |
| Voxels.Insert | World.js:7 | Map.set replaces the block at the key. An existing key keeps its place in the iteration order and a new key goes last. Counters, seed and signal are unchanged. |
| Voxels.Place | World.js:110-147 | Placement onto an occupied cell changes nothing unless it replaces water with a non-water type. Water into an empty cell stores level 5 and raises the update signal. A type with a mesh and room takes the old counter as its instance id and increments the counter. A type without a mesh, or a full one, stores nothing, except that replaced water keeps the temporary record of the new type. Replaced water raises the signal. Only the placed cell can change. |
| Voxels.PlaceOrderAndSignal | World.js:110-147 | A type rejected on an empty cell leaves the whole store as it was. Only a newly stored key joins the iteration order, and it goes last. The signal is raised exactly by replaced water and by new water. |
| Voxels.Remove | World.js:163-186 | After removal the cell is absent and every other cell is unchanged. Removing an empty cell is a no-op. Removing a record raises the signal. Counters and seed are unchanged either way. |
| Voxels.JsRem | World.js:97 | JavaScript's `%`: the result is in [0, m) for a non-negative dividend and in (-m, 0] for a negative one, and it differs from the dividend by a multiple of m. |
| Voxels.Rng | World.js:96-99 | The seed moves into [0, 233280) and the value returned is seed / 233280 in [0, 1). Nothing else changes. |
| Voxels.RngInRange | World.js:97 | From any non-negative seed the next seed lies in [0, 233280). |
| Voxels.InsertPreservesValid | World.js:7 | Map.set keeps each key once in the iteration order. |
| Voxels.ClearPreservesValid | World.js:114-118 | The temporary record written over water keeps the store invariant. |
| Voxels.FillPreservesValid | World.js:124-143 | Filling a cell keeps the store invariant, including counters within capacity. |
| Voxels.FillWaterPreservesValid | World.js:125-129 | A water source keeps the store invariant. |
| Voxels.FillSlotPreservesValid | World.js:132-143 | Taking an instance slot below capacity keeps the store invariant. |
| Voxels.PlacePreservesValid | World.js:110-147 | placeBlock keeps the store invariant. |
| Voxels.RemovePreservesValid | World.js:163-186 | removeBlockAt keeps the store invariant. |
| Voxels.PlaceIdempotent | World.js:110-147 | Placing the same type twice at the same cell is the same as placing it once. |
| Voxels.RemoveIdempotent | World.js:163-186 | A repeated removal changes nothing more. |
| Voxels.PlaceRemoveRoundTrip | World.js:110-186 | Placing into an empty cell and then removing it restores the blocks and their iteration order. |
| Voxels.InsertRemoveRoundTrip | World.js:7 | Map.set of a new key followed by Map.delete restores the blocks and their iteration order. |
| Voxels.FillRemoveRoundTrip | World.js:122-186 | Filling an empty cell and then removing it restores the blocks and their iteration order. |
| Voxels.WaterHasNoMesh | World.js:64-67 | Water has no instanced mesh. |
| Voxels.PlaceSolidIntoEmpty | World.js:132-143 | A mesh type with room placed into an empty cell is stored with the old counter as its instance id, and that counter grows by one. |
| Voxels.PlaceAddsOnly | World.js:110-147 | The only cell a placement can add is its own. |
| Voxels.PlaceKeepsAndCounts | World.js:110-147 | Placement never removes a cell and keeps the set of counters. No counter drops, and none rises by more than one. |
| Voxels.FillKeepsAndCounts | World.js:124-143 | The fill half of placement never removes a cell and keeps the set of counters. No counter drops, and none rises by more than one. |
| WaterFlow.LevelOf | World.js:401 | A record without a level counts as level 5. |
| WaterFlow.SpreadUpTo | World.js:415-434 | The neighbour loop's first k passes propose each empty neighbour among the first k directions exactly once, at the given level, in the order +x, -x, +z, -z. |
| WaterFlow.CellProposals | World.js:394-437 | A water cell proposes the cell below at level 5 when it is empty. It proposes nothing when water is below, or when its level is 1 or less. Otherwise it proposes each empty neighbour in the order +x, -x, +z, -z at its level minus one. A non-water cell proposes nothing. |
| WaterFlow.ApplyChange | World.js:442-453 | A proposal for a cell that is still empty stores water at the proposed level, appends the cell to the iteration order and raises the signal. Counters and seed are unchanged. A proposal for an occupied cell changes nothing. |
| WaterFlow.PlaceWaterLevelIsApply | World.js:442-453 | placeBlock of water followed by the overwrite of its level does exactly what ApplyChange states. |
| WaterFlow.ProposalsTargetEmpty | World.js:407-433 | Every proposal of the read phase targets a cell that is empty when the tick starts. |
| WaterFlow.ProposalLevelsInRange | World.js:401-432 | When all levels are in 1..5, so is every proposed level. |
| WaterFlow.ProposalsFromCells | World.js:394-438 | A change is proposed exactly when one of the visited cells proposes it. |
| WaterFlow.ApplyKeepsExisting | World.js:440-456 | The write phase never modifies or removes an existing cell, and never touches counters or seed. |
| WaterFlow.ApplyDomain | World.js:440-456 | After the write phase a cell is occupied exactly when it was before or some proposal targeted it. |
| WaterFlow.ApplyFirstWins | World.js:442-453 | A cell that was empty ends with the level of the first proposal that targets it. Later proposals for it are dropped. |
| WaterFlow.ApplyPreservesValid | World.js:440-456 | The write phase keeps the store invariant. |
| WaterFlow.ApplyKeepsLevels | World.js:440-456 | With all levels and all proposals in 1..5, all levels stay in 1..5. |
| WaterFlow.TickInvariants | World.js:389-457 | Over a whole tick the store stays valid and existing cells are unchanged. Every new cell is water. Counters and seed are unchanged, and levels in 1..5 stay in 1..5. |
| WaterFlow.FirstIndex | World.js:442-444 | For every proposal there is an earliest proposal targeting the same cell. |
| Terrain.PlacePrefix | World.js:236 | Placing a prefix of a plan never changes the seed. |
| Terrain.PlaceAll | World.js:236 | Placing a plan of cells never changes the seed. |
| Terrain.PlaceAllAppend | World.js:285-325 | Placing two plans one after the other is placing their concatenation. |
| Terrain.PlaceAllValid | World.js:230-325 | Any sequence of placements keeps the store invariant. |
| Terrain.PlaceAllKeepsAndCounts | World.js:230-325 | A plan never removes a cell and raises each counter by at most its length. |
| Terrain.Material | World.js:231-234 | Every column material is a type with an instanced mesh. |
| Terrain.ColumnPlan | World.js:230-237 | The layer loop's plan has exactly one placement for each layer from -5 up to the loop bound. |
| Terrain.WaterPlan | World.js:240-244 | The water loop's plan has exactly one placement for each of the n layers above the surface. |
| Terrain.AcceptKeepsSpaced | World.js:254-265 | Accepting a root that passes the spacing check keeps all roots pairwise at squared distance at least 25. |
| Terrain.Stack | World.js:285-287 | The trunk loop places cells of one type directly above the root, one per step, and no others. |
| Terrain.StackStep | World.js:285 | One more pass of the trunk loop extends the placed stack by its next cell. |
| Terrain.Trunk | World.js:282-287 | The spine is wood or leaves above the root, and wood only in its first four cells. |
| Terrain.CanopyCell | World.js:292-296 | A canopy cell is leaves within Manhattan distance 3 of the trunk. It is never on the spine below the top. |
| Terrain.CanopyColumn | World.js:292-297 | The cells of one canopy column are leaves at that column, within Manhattan distance 3 of the trunk, from height - 2 up. |
| Terrain.CanopyRow | World.js:290-298 | The same bound holds for a row of canopy columns. |
| Terrain.Canopy | World.js:289-299 | The same bound holds for the whole canopy. |
| Terrain.CanopyCellKept | World.js:293-296 | A cell that passes both skip tests places leaves at its absolute position. |
| Terrain.CanopyCellPlacedAll | World.js:293-296 | Placing one canopy cell is placing that cell's plan. |
| Terrain.CanopyColumnPlacedAll | World.js:292-297 | The innermost loop places exactly the column's plan. |
| Terrain.CanopyRowPlacedAll | World.js:290-298 | The middle loop places exactly the row's plan. |
| Terrain.CanopyPlacedAll | World.js:289-299 | The outer loop places exactly the canopy's plan. |
| Terrain.BroadTreeDone | World.js:281-300 | The trunk, then the canopy loops, place exactly the broad tree's plan. |
| Terrain.LayerRadius | World.js:311-315 | The pointy tree's layer radius is 0..2, and 0 on the top layer. |
| Terrain.KeepsPointyExact | World.js:319 | The integer form of the radius test agrees with the comparison of \|lx\|+\|lz\| against 1.5 radius + 0.5 on reals. |
| Terrain.PointyCell | World.js:319-321 | A pointy-tree cell is leaves within Manhattan distance 3 on its own layer. |
| Terrain.PointyRow | World.js:318-322 | The cells of a pointy row are leaves on the row's layer within Manhattan distance 3. |
| Terrain.PointyLayer | World.js:317-323 | The same bound holds for a whole layer. |
| Terrain.PointyLayers | World.js:312-324 | The tapering layers are leaves at heights y+2 and above, within Manhattan distance 3. |
| Terrain.TaperStep | World.js:313-315 | The loop's radius update gives exactly the layer radius. |
| Terrain.PointyLayersStep | World.js:312-323 | One more pass of the layer loop extends the placed layers by layer i at its radius. |
| Terrain.PointyTreeDone | World.js:302-326 | Trunk, layers and tip together place exactly the pointy tree's plan. |
| Terrain.BroadHeight | World.js:282 | The broad tree is 4 or 5 tall, and 5 exactly when the draw is at least 0.5. |
| Terrain.PointyHeight | World.js:303 | The pointy tree is 6, 7 or 8 tall according to the thirds of the draw. |
| Terrain.BroadTree | World.js:281-300 | generateTree leaves the seed in range. |
| Terrain.PointyTree | World.js:302-326 | generatePointyTree leaves the seed in range. |
| Terrain.ColumnStep | World.js:229-274 | A column adds at most its own root to the accepted roots. It adds it only on land and only when no earlier root is too close. |
| Terrain.TreeStep | World.js:250-273 | The tree decision records at most the column's own root. It records it only on land, and only when no earlier root is within squared distance 25. |
| Terrain.RowUpTo | World.js:204-275 | The seed stays non-negative through a row. |
| Terrain.GridUpTo | World.js:203-276 | The seed stays non-negative through the grid. |
| Terrain.RowStep | World.js:204 | One pass of the inner loop extends the row by its next column. |
| Terrain.GridStep | World.js:203 | One pass of the outer loop extends the grid by its next row. |
| Terrain.RngValid | World.js:96-99 | A draw keeps the store invariant. |
| Terrain.TreeStepValid | World.js:250-273 | The tree decision of a column keeps the store invariant. |
| Terrain.ColumnStepValid | World.js:229-274 | A whole column keeps the store invariant. |
| Terrain.RowUpToValid | World.js:204-275 | A row of columns keeps the store invariant. |
| Terrain.GridUpToValid | World.js:203-276 | The grid keeps the store invariant. |
| Terrain.GenerateValid | World.js:189-279 | generateSimple leaves a valid store when it starts from one: each key once in the iteration order, the counters within capacity, the seed in range. |
| Terrain.Reset | World.js:190-198 | Generation starts from seed 123456, every counter 0, an empty map and a raised signal. |
| Terrain.MaterialRule | World.js:231-234 | Grass exactly at the surface on land. Dirt exactly in the two layers under a land surface, at or above the water level. Sand exactly below the surface at or under the water level, where not dirt. Stone otherwise. |
| Terrain.ColumnLayerMaterial | World.js:230-237 | Each layer of an empty column holds its material once the layer loop has run. |
| Terrain.ColumnLowerLayer | World.js:230-237 | A lower layer keeps its material after later layers are placed. |
| Terrain.ColumnTopLayer | World.js:230-237 | The last placed layer holds its material. |
| Terrain.ColumnGetsMaterial | World.js:230-237 | Every layer -5..h of an empty column with room ends up with the material the rule gives it. |
| Terrain.ColumnCellsOnly | World.js:230-237 | The layer loop adds no cell outside its column segment. |
| Terrain.ColumnPlanStep | World.js:230-236 | One pass of the layer loop extends the column by one layer. |
| Terrain.ColumnAndWaterDone | World.js:229-244 | The layers, then the water below the water level, are everything a column places before its tree. |
| Terrain.WaterPlanStep | World.js:241-242 | The water plan of n cells is the plan of n-1 cells plus the next cell up. |
| Terrain.WaterFillsToLevel | World.js:240-244 | When h < 0, every empty layer h+1..0 becomes water of level 5. |
| Terrain.WaterTopStep | World.js:241-242 | Water placed on top of a water column extends it by one cell. |
| Terrain.WaterOnlyAdds | World.js:240-244 | The water loop adds no cell outside its column. |
| Terrain.RowKeepsSpaced | World.js:250-273 | Across a row, accepted tree roots stay pairwise at squared distance at least 25. |
| Terrain.GridKeepsSpaced | World.js:203-276 | Across the grid, accepted tree roots stay pairwise at squared distance at least 25. |
| Terrain.GeneratedTreesSpaced | World.js:189-279 | Every tree root of a generation pass keeps squared distance at least 25 from every earlier root. |
| Terrain.GenerateDeterministic | World.js:189-198 | Generation ignores the previous world: two stores with the same mesh types produce the same blocks, order, counters and seed. |
| Terrain.BroadPlanShape | World.js:281-300 | Every cell of a broad tree is wood or leaves, within Manhattan distance 3 of the trunk, between the root and the top. |
| Terrain.BroadPlanWood | World.js:284-285 | The only wood of a broad tree is the trunk, at most 4 high. |
| Terrain.PointyPlanShape | World.js:302-326 | Every cell of a pointy tree is wood or leaves within Manhattan distance 3, and the last cell is the leaf tip at the top. |
| WorldObject.WaterCells | World.js:338-344 | The cells collected by updateWaterGeometry are water records. Every water key visited is collected. |
| WorldObject.WaterCellsExact | World.js:338-344 | In a valid store the collected cells are exactly the water records. |
| WorldObject.World.constructor | World.js:5-93 | A new world is the empty, valid store. |
| WorldObject.World.Rng | World.js:96-99 | rng advances the seed as Voxels.Rng does and returns its value. A valid world stays valid. |
| WorldObject.World.GetBlock | World.js:101-103 | getBlock reports whether the cell has a record. |
| WorldObject.World.GetBlockType | World.js:105-108 | getBlockType returns the record's type, or nothing for air. |
| WorldObject.World.Set | World.js:7 | Map.set on the fields: a new key goes last in the iteration order. |
| WorldObject.World.RequestWaterUpdate | World.js:329-334 | requestWaterUpdate raises the signal and changes nothing else. |
| WorldObject.World.PlaceBlock | World.js:110-147 | placeBlock leaves the world in the state Voxels.Place gives, and a valid world stays valid. |
| WorldObject.World.ClearWater | World.js:114-118 | Replaced water becomes a temporary record of the new type, and the signal is raised. |
| WorldObject.World.FillCell | World.js:124-143 | The water or instanced-mesh half of placeBlock, as Voxels.Fill. |
| WorldObject.World.RemoveBlockAt | World.js:163-186 | removeBlockAt leaves the world in the state Voxels.Remove gives, and a valid world stays valid. |
| WorldObject.World.UpdateWaterGeometry | World.js:336-344 | The rebuild lowers the signal and collects the water cells in iteration order. In a valid world, which stays valid, the collected cells are exactly the water records. |
| WorldObject.World.CollectWater | World.js:338-344 | The loop over the map collects exactly WaterCells. |
| WorldObject.World.SpreadChanges | World.js:415-434 | The neighbour loop pushes exactly the empty neighbours, in order, at the given level. |
| WorldObject.World.CellChanges | World.js:395-437 | The body of the read loop pushes exactly the cell's proposals. |
| WorldObject.World.CollectChanges | World.js:391-438 | The read loop collects every key's proposals in iteration order. |
| WorldObject.World.ApplyOne | World.js:442-453 | One pass of the write loop performs ApplyChange. |
| WorldObject.World.SimulateWater | World.js:389-457 | simulateWater leaves the world in the state Tick gives, so TickInvariants hold of it, and a valid world stays valid. |
| WorldObject.World.PlaceNext | World.js:236 | A placeBlock extends a plan already carried out by one placement. |
| WorldObject.World.PlaceOne | World.js:325 | A single placeBlock is a one-element plan. |
| WorldObject.World.PlaceStackStep | World.js:285 | One pass of a trunk loop extends the stack by one cell. |
| WorldObject.World.PlaceStack | World.js:285-287 | A trunk loop places exactly its stack of cells. |
| WorldObject.World.BuildTrunk | World.js:284-287 | The two trunk loops place exactly the spine. |
| WorldObject.World.PlaceCanopyCell | World.js:293-296 | One pass of the innermost canopy loop places its cell or skips it. |
| WorldObject.World.PlaceCanopyColumn | World.js:292-297 | The innermost canopy loop places its column's cells. |
| WorldObject.World.PlaceCanopyRow | World.js:290-298 | The middle canopy loop places its row's columns. |
| WorldObject.World.PlaceCanopy | World.js:289-299 | The canopy loops place the whole canopy. |
| WorldObject.World.GenerateTree | World.js:281-300 | generateTree draws the height and places exactly the broad tree. A valid world stays valid. |
| WorldObject.World.PlacePointyCell | World.js:319-321 | One pass of the innermost pointy loop places its cell or skips it. |
| WorldObject.World.PlacePointyRow | World.js:318-322 | The innermost pointy loop places its row. |
| WorldObject.World.PlacePointyLayer | World.js:317-323 | The two inner pointy loops place one layer at its radius. |
| WorldObject.World.GeneratePointyTree | World.js:302-326 | generatePointyTree draws the height and places exactly the pointy tree. A valid world stays valid. |
| WorldObject.World.PlacePointyStep | World.js:312-323 | One pass of the layer loop updates the radius to LayerRadius and places that layer. |
| WorldObject.World.PlaceNextLayer | World.js:317-323 | Placing layer i at its radius extends the layers placed so far by that layer. |
| WorldObject.World.PlacePointyTip | World.js:325 | The tip completes the pointy plan. |
| WorldObject.World.BuildPointyTree | World.js:305-325 | The loops after the height draw place exactly the pointy plan. |
| WorldObject.World.PlaceLayer | World.js:230-236 | One pass of the layer loop places layer y with its material. |
| WorldObject.World.PlaceLayers | World.js:230-237 | The layer loop places the column's plan. |
| WorldObject.World.PlaceWaterStep | World.js:241-242 | One pass of the water loop places the next water cell. |
| WorldObject.World.PlaceWater | World.js:240-244 | The water loop places the water plan. |
| WorldObject.World.PlaceColumn | World.js:229-244 | The layer and water loops place everything a column places before its tree. |
| WorldObject.World.SpacingCheck | World.js:254-262 | The loop with its break reports exactly whether some earlier root is within squared distance 25. |
| WorldObject.World.MaybeTree | World.js:250-273 | The tree decision of a column, as TreeStep. |
| WorldObject.World.GenerateColumn | World.js:229-274 | The body of the column loop, as ColumnStep. |
| WorldObject.World.GenerateRowStep | World.js:204-275 | One pass of the inner loop extends the row. |
| WorldObject.World.GenerateRow | World.js:204-275 | The inner loop generates the row. |
| WorldObject.World.GenerateGridStep | World.js:203-276 | One pass of the outer loop extends the grid. |
| WorldObject.World.GenerateSimple | World.js:189-279 | generateSimple leaves the world in the state Generate gives, so GeneratedTreesSpaced and GenerateDeterministic hold of it, and a valid world stays valid (GenerateValid). |
| Voxels.TypeAt | World.js:105-108 | getBlockType reports a type exactly for an occupied cell, and it is the type stored there. |
| MobLogic.FirstInColumnIsFirst | Mob.js:381-383 | The innermost scan finds the first blocking cell of its row of z values, and none when there is none. |
| MobLogic.FirstInSliceIsFirst | Mob.js:380-383 | The middle scan finds the first blocking cell of its slice in y-then-z order. |
| MobLogic.FirstInBoxIsFirst | Mob.js:379-383 | The outer scan finds the first blocking cell of the box in x, y, z order. |
| MobLogic.FirstSolidIsFirst | Mob.js:372-383 | Nothing is found exactly when every cell of the box is air, water or an unnamed record. A found cell is in the box and blocking, and every cell scanned before it is not blocking. |
| MobLogic.PhysicsRules | Mob.js:208-277 | The physics step changes only the velocity and the ground flag. Another species floats up at 5 in water with x and z damped by 0.8, and on land gets gravity twice. An ulrich in water never keeps a vertical speed below 0.1, and on the ground with its search due it takes the flop velocity and leaves the ground. |
| MobLogic.DeadIsInert | Mob.js:206 | A dead mob's update changes nothing. |
| MobLogic.AttractedIsOwnBait | Mob.js:287-293 | A mob is attracted exactly when the bait is its own species' name followed by "bait", for the four species. |
| MobLogic.InBandIsDistanceBand | Mob.js:296-300 | The squared-distance band is exactly stopDist < dist < 30. |
| MobLogic.AttractionBand | Mob.js:295-302 | An attracted mob keeps its state, heads for the player inside the band, and gets a zero move outside it. The band's inner edge is 3.5 for kohoutek and 2.5 otherwise. |
| MobLogic.UlrichStaysInWater | Mob.js:318-327 | An ulrich in water and not attracted, whose look-ahead cell is not water, gets a zero move and stops wandering. |
| MobLogic.LandsOnBlock | Mob.js:384-388 | A falling mob that hits row y ends at y + 1.001 with zero vertical velocity and on the ground. |
| MobLogic.HitsHead | Mob.js:389-392 | A rising mob that hits row y ends at y - 0.98 - 0.001 with zero vertical velocity. |
| MobLogic.StepsUp | Mob.js:395-401 | A grounded mob meeting a block at its feet with two clear cells above climbs by exactly 1.1. Its horizontal position and velocity are unchanged. |
| MobLogic.PushedOut | Mob.js:404-418 | Otherwise a horizontal hit sets that coordinate to the block face minus or plus 0.21 + 0.001, by the sign of the velocity. No other coordinate changes. |
| MobLogic.FreeFall | Mob.js:379-425 | With no blocking cell in the box nothing moves, and a falling mob on the y axis leaves the ground. |
| MobLogic.CollideMovesOnAxis | Mob.js:379-425 | A collision response moves the mob only along its own axis, except that an x or z response may instead raise it by the 1.1 step. It never changes the horizontal velocity, the dead flag or the wander state. |
| MobLogic.Mob.constructor | Mob.js:4-20 | A new mob is at rest, in the air, alive and not wandering, at the given position. |
| MobLogic.Mob.ScanColumn | Mob.js:381-383 | The innermost loop with its early exit finds FirstInColumn. |
| MobLogic.Mob.ScanSlice | Mob.js:380-383 | The middle loop finds FirstInSlice. |
| MobLogic.Mob.ScanBox | Mob.js:379-383 | The outer loop finds FirstSolid. |
| MobLogic.Mob.HandleCollisions | Mob.js:367-426 | handleCollisions leaves the mob in the state Collide gives. |
| MobLogic.Mob.ResolveVertical | Mob.js:384-392 | The vertical response, as Vertical. |
| MobLogic.Mob.ResolveHorizontal | Mob.js:393-419 | The step-up or push-out response, as Horizontal. |
| MobLogic.Mob.ApplyPhysics | Mob.js:208-281 | Gravity, water drag and the given flop velocities, as Physics. |
| MobLogic.Mob.IsAttracted | Mob.js:287-293 | The bait test, as Attracted. |
| MobLogic.Mob.Approach | Mob.js:295-302 | An attracted mob's move is toward the player inside the band, zero outside. |
| MobLogic.Mob.WanderMove | Mob.js:304-315 | The two coin flips and the resulting wander move, as Wander. |
| MobLogic.Mob.StayInWater | Mob.js:318-327 | The ulrich look-ahead, as KeepInWater. |
| MobLogic.Mob.ChooseMove | Mob.js:284-327 | The move intent, as Intent. |
| MobLogic.Mob.Update | Mob.js:205-341 | update leaves the mob in the state Step gives, so DeadIsInert, AttractionBand and the collision lemmas hold of it. |
| MobLogic.Mob.MoveAlong | Mob.js:335-340 | One axis move by velocity times delta followed by its collision check, as Advance. |
| PlayerLogic.TouchesIsInBox | Player.js:141-146 | A cell is near the camera exactly when it lies in the scanned box. |
| PlayerLogic.ScanDecidesCollision | Player.js:141-157 | Some cell of the scanned box holds a block exactly when Collides holds. |
| PlayerLogic.KeySetsOwnFlag | Player.js:38-62 | A key of the table sets its flag on keydown and clears it on keyup. It changes no other flag and no other field. |
| PlayerLogic.OtherKeysInert | Player.js:38-62 | Keys outside the table change nothing, except Space on keydown. |
| PlayerLogic.SpaceJumps | Player.js:44-49 | Space adds 10 to the vertical velocity and clears canJump only when canJump holds, and otherwise changes nothing. |
| PlayerLogic.KeyUpCancelsKeyDown | Player.js:38-62 | Releasing a key after pressing it is the same as only releasing it. |
| PlayerLogic.UnlockedIsInert | Player.js:65 | An update while the pointer is not locked changes nothing. |
| PlayerLogic.AxisMoveIsReversible | Player.js:85-97 | A move along a fixed axis is undone by the opposite move. |
| PlayerLogic.SideHitReverts | Player.js:85-90 | A sideways move into a block is undone exactly and zeroes the x velocity. A free move is kept. |
| PlayerLogic.ForwardHitReverts | Player.js:92-97 | A forward move into a block is undone exactly and zeroes the z velocity. A free move is kept. |
| PlayerLogic.VerticalHit | Player.js:100-116 | A vertical step into a block is undone and zeroes the vertical velocity. canJump becomes true only when falling. |
| PlayerLogic.VerticalFree | Player.js:100-103 | A vertical step into no block is kept and leaves canJump alone. |
| PlayerLogic.NeverInTheVoid | Player.js:119-122 | After a locked update the camera is never below -20. A player who fell below it is at (0, 20, 0) with zero velocity. |
| PlayerLogic.Player.constructor | Player.js:5-26 | A new player is at rest with no key held and no jump allowed. |
| PlayerLogic.Player.KeyFlag | Player.js:39-61 | The switch's case labels give FlagOf. |
| PlayerLogic.Player.OnKeyDown | Player.js:38-52 | onKeyDown leaves the player in the state KeyDown gives. |
| PlayerLogic.Player.OnKeyUp | Player.js:54-62 | onKeyUp leaves the player in the state KeyUp gives. |
| PlayerLogic.Player.CheckCollision | Player.js:132-158 | checkCollision returns true exactly when some cell of the box [⌊x-0.3⌋..⌊x+0.3⌋] × [⌊y-1.6⌋..⌊y⌋] × [⌊z-0.3⌋..⌊z+0.3⌋] holds any block, water included. |
| PlayerLogic.Player.ApplyForces | Player.js:67-82 | Damping, gravity and the thrust of the held keys, as Accelerate. |
| PlayerLogic.Player.MoveRight | Player.js:85-90 | The sideways move with its revert, as SlideRight. |
| PlayerLogic.Player.MoveForward | Player.js:92-97 | The forward move with its revert, as SlideForward. |
| PlayerLogic.Player.MoveUp | Player.js:100-116 | The vertical move with its revert, as Fall. |
| PlayerLogic.Player.Update | Player.js:64-122 | update leaves the player in the state Step gives, so UnlockedIsInert and NeverInTheVoid hold of it. |
| Client.SlotKeyShape | main.js:40 | The string test '1' <= key <= '9' passes exactly for keys whose first character is 1..9, except a longer key starting with 9. |
| Client.DigitKeySelectsSlot | main.js:39-44 | A single-character key 1..9 selects the slot one below the digit. Any other single character keeps the slot. |
| Client.KeySlotNonNegative | main.js:40-41 | A key never makes the slot negative. |
| Client.WheelStaysOnBar | main.js:46-50 | From a non-negative slot the wheel lands in 0..8. |
| Client.WheelRoundTrip | main.js:46-50 | One wheel step each way returns to the slot. |
| Client.PlaceTypeOnBar | main.js:104 | Slots 0..8 give their own type from the table, and only other slots fall back to stone. Every result is a known type. |
| Client.RightClickPlacesBeside | main.js:91-110 | A right click changes only the cell beside the first hit. It changes nothing while unlocked, with no hit within 6, or when the target is within 0.8, 1.8, 0.8 of the eye. |
| Client.BesideIsNeighbour | main.js:93-107 | Measured from the centre of the block that was hit, the cell beside a hit is that block's neighbour across the hit face, and never the block itself. |
| Client.RightClickMissesHitBlock | main.js:94 | As written, a click on the top face of the block at (10, 0, 10) in an empty world puts grass at (0, 1, 0) and nothing at (10, 1, 10). The corrected rule does the reverse. |
| Client.AddPeer | main.js:193-210 | Adding a known id is a no-op. A new id gets a mesh at the origin. |
| Client.RemovePeer | main.js:212-217 | The id is gone afterwards and every other entry is unchanged. An unknown id changes nothing. |
| Client.MovePeer | main.js:172-181 | A move creates the entry if it is missing and then sets its pose. Other entries are unchanged. |
| Client.AddIdempotent | main.js:193-194 | A second add is the first add. Adding a known id changes nothing. |
| Client.RemoveIdempotent | main.js:212-216 | A second remove is the first remove. Removing an unknown id changes nothing. |
| Client.JoinLeaveRoundTrip | main.js:193-217 | A peer that joins and leaves leaves the table as it was. |
| Client.CountGrowsForNewPeers | main.js:159-210 | A join or a move raises the player count by one exactly when the id is new. |
| Client.CountShrinksForKnownPeers | main.js:159-217 | A leave lowers the player count by one exactly when the id was known. |
| Client.DispatchTouchesOneCell | main.js:184-190 | A block message changes at most its own cell. A remove message leaves the cell empty, and any other action than place or remove changes nothing. |
| Client.PlaceThenRemoveMessage | main.js:184-190 | A place message into an empty cell followed by a remove message restores the blocks and their order. |
| Client.FrameDelta | main.js:228 | The frame step is at most 0.1 and at most the elapsed time in seconds, equal to one of the two, and never negative when the clock did not go back. |
| Client.Throttle | main.js:234-240 | A send moves the last send time to the frame's time. A frame within 50 ms of the last send does not send and keeps it. Two sending frames are more than 50 ms apart. |
| Client.Page.constructor | main.js:221-223 | Start-up: slot 0, no remote players, the clock read once, and the last send at 0. |
| Client.Page.OnSlotKey | main.js:39-44 | The keydown handler sets the slot to KeySlot and changes nothing else. |
| Client.Page.OnWheel | main.js:46-50 | The wheel handler sets the slot to WheelSlot and changes nothing else. |
| Client.Page.OnPlaceClick | main.js:75-111 | The right click leaves the world in the state RightClick gives, with the placement point corrected as described under Findings. |
| Client.Page.AddRemotePlayer | main.js:193-210 | addRemotePlayer updates the table as AddPeer. |
| Client.Page.RemoveRemotePlayer | main.js:212-217 | removeRemotePlayer updates the table as RemovePeer. |
| Client.Page.OnMove | main.js:172-181 | The move handler updates the table as MovePeer. |
| Client.Page.OnBlock | main.js:184-190 | The block handler leaves the world in the state Dispatch gives. |
| Client.Page.Animate | main.js:225-240 | A frame clamps the step and updates the player with it. It sends the position and the camera's yaw exactly when the throttle allows, and then records the send time. |

The specification functions below carry no contract row of their own. Each one is the
state that a rowed method is proved to reach, and its properties are the rows named
after it:

- `WaterFlow.Tick`, `WaterFlow.Apply`, `WaterFlow.Proposals`, `WaterFlow.AllProposals`: `WaterFlow.TickInvariants`, `WaterFlow.ApplyKeepsExisting`, `WaterFlow.ApplyDomain`, `WaterFlow.ApplyFirstWins`, `WaterFlow.ApplyPreservesValid`, `WaterFlow.ApplyKeepsLevels`, `WaterFlow.ProposalsTargetEmpty`, `WaterFlow.ProposalLevelsInRange`, `WaterFlow.ProposalsFromCells`. They are reached by `WorldObject.World.SimulateWater` and `WorldObject.World.CollectChanges`.
- `WaterFlow.PlaceWaterLevel`: `WaterFlow.PlaceWaterLevelIsApply`.
- `Voxels.Clear` and `Voxels.Fill`: `Voxels.ClearPreservesValid`, `Voxels.FillPreservesValid`, `Voxels.FillKeepsAndCounts`, `Voxels.FillRemoveRoundTrip`. They are reached by `WorldObject.World.ClearWater` and `WorldObject.World.FillCell`.
- `Terrain.Generate`: `Terrain.GenerateValid`, `Terrain.GeneratedTreesSpaced`, `Terrain.GenerateDeterministic`. `Terrain.BroadPlan`: `Terrain.BroadPlanShape`, `Terrain.BroadPlanWood`, `Terrain.BroadTreeDone`. `Terrain.PointyPlan`: `Terrain.PointyPlanShape`, `Terrain.PointyTreeDone`.
- `MobLogic.Collide`: `MobLogic.LandsOnBlock`, `MobLogic.HitsHead`, `MobLogic.StepsUp`, `MobLogic.PushedOut`, `MobLogic.FreeFall`, `MobLogic.CollideMovesOnAxis`. `MobLogic.Physics`: `MobLogic.PhysicsRules`. `MobLogic.Intent`: `MobLogic.AttractionBand`, `MobLogic.UlrichStaysInWater`. `MobLogic.Step`: `MobLogic.DeadIsInert`.
- `PlayerLogic.KeyDown` and `PlayerLogic.KeyUp`: `PlayerLogic.KeySetsOwnFlag`, `PlayerLogic.OtherKeysInert`, `PlayerLogic.SpaceJumps`, `PlayerLogic.KeyUpCancelsKeyDown`. `PlayerLogic.SlideRight`: `PlayerLogic.SideHitReverts`. `PlayerLogic.SlideForward`: `PlayerLogic.ForwardHitReverts`. `PlayerLogic.Fall`: `PlayerLogic.VerticalHit`, `PlayerLogic.VerticalFree`. `PlayerLogic.Accelerate` and `PlayerLogic.Step`: `PlayerLogic.UnlockedIsInert`, `PlayerLogic.NeverInTheVoid`.
- `Client.KeySlot`: `Client.DigitKeySelectsSlot`, `Client.KeySlotNonNegative`. `Client.WheelSlot`: `Client.WheelStaysOnBar`, `Client.WheelRoundTrip`. `Client.PlaceType`: `Client.PlaceTypeOnBar`. `Client.RightClick`: `Client.RightClickPlacesBeside`. `Client.RightClickAsWritten`: `Client.RightClickMissesHitBlock`. `Client.Dispatch`: `Client.DispatchTouchesOneCell`, `Client.PlaceThenRemoveMessage`. `Client.NextBroadcast`: `Client.Throttle`.

## Left out

- All THREE.js presentation: materials, textures, instance matrices, water face geometry, the mob's rotation and leg and tail animation, the field-of-view lerp, the hotbar highlight and icons, and the block and player counters in the page.
- `removeBlock(mesh, instanceId)` (World.js:149-161) recovers the cell from an instance matrix, which is presentation. The left mouse button (main.js:84-90) is not modelled either. It calls `removeBlock` with one argument, and it reads coordinates from mesh user data that holds none.
- The raycast itself is not modelled. `OnPlaceClick` receives the list of hits, each with the centre of the block it hit.
- The height field of `generateSimple` (World.js:207-227) uses sin, cos and sqrt on doubles, so it is a parameter.
- `setInterval`, `requestAnimationFrame` and `performance.now` are not modelled. The water tick, the geometry rebuild and each frame are explicit calls, and the clock reading is a parameter.
- `Math.random` is not modelled. The wander coin flips, the wander angle and the ulrich's land flop arrive in `Draws`.
- The ulrich's water search (Mob.js:232-262) is not modelled. Its outcome arrives in `Draws`.
- `MobLogic.Mob.Approach`: the normalised direction toward the player arrives in `Draws`, because normalisation needs a square root. Distances are compared squared; `InBandIsDistanceBand` shows the comparisons agree.
- `PlayerLogic.Player.ApplyForces`: the normalised move direction (Player.js:75-77) is a parameter and is not derived from the input flags.
- `PlayerLogic.Player.MoveRight` and `PlayerLogic.Player.MoveForward`: `moveRight` and `moveForward` belong to PointerLockControls, which is not part of this model. They are function parameters, and the revert properties assume that a move by -d undoes a move by d.
- Doubles are modelled as exact reals, so round-off is not modelled. For example, 1.4 * 0.7 is exactly 0.98 here.
- The trystero room (main.js:117-169) and `sendMove` are not modelled. `OnMove` and `OnBlock` take the message as a value. `Animate` returns the pose it would send: the camera position and the yaw, which the pointer-lock controls supply as a parameter.
- The `socket.emit` calls (main.js:89, main.js:110) are not modelled. `socket` is never defined, so the call would throw after the placement. The model ends the handler at `placeBlock`.
- `Client.BlockMessage`: coordinates are integers. A message with fractional or non-numeric coordinates builds a key no integer cell has; that case is not modelled.
- `Voxels.KindOf` and `Voxels.Remove`: a type name that is an inherited property of a JavaScript object (such as "constructor") is not modelled. The model treats it as an unknown type without a mesh. In the source, `instancedMeshes[type]` finds the inherited value, so placeBlock throws before storing a record, except over water, where the temporary record (World.js:116) stays. Removing such a record throws at `setMatrixAt` (World.js:180) before the delete at World.js:184, so the source keeps the record, while `Remove` deletes it.
- `Client.Page.OnMove`: the table is a map from ids to poses. A peer id that names an inherited property of a JavaScript object (such as "constructor") is not modelled.
- The rotation of remote players and of the own camera are carried only as a number in `Pose`.
- server.js (the socket.io relay) and MobileControls.js (touch input) are not part of this model.

## Findings

| source | as written | input that shows it | evidently intended | confidence | as-written member | corrected member |
|---|---|---|---|---|---|---|
| main.js:94 | The placement point is `hit.object.position` plus the face normal. `hit.object` is the instanced mesh, and every world mesh stays at the origin, so the point is always the normal itself. | A right click on the top face of the block at (10, 0, 10), eye at (10.5, 5, 10.5), slot 0: grass goes to (0, 1, 0). | The cell next to the hit block across the hit face, here (10, 1, 10). That block's centre can be read from its instance matrix through `hit.instanceId`. | high; not executed | Client.RightClickAsWritten, shown by Client.RightClickMissesHitBlock | Client.RightClick, proved by Client.BesideIsNeighbour and Client.RightClickPlacesBeside |
