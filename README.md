# minicraft world simulation core, in Dafny

This project models the integer world-simulation logic of minicraft, a
tile-based 2D survival game written in Java, and proves properties of that
model. It covers five parts:

- **Movement and actor lifecycle.** An actor moves one axis at a time.
  - Each axis step bumps the tile cells its hitbox newly covers, in
    row-major order, and stops at the first cell that refuses passage.
  - Every actor in the shifted hitbox is then touched.
  - Only actors that newly overlap can block the step.
  - Pixel coordinates map to 16-pixel cells by `>> 4`, which is floor
    division.
  - Attaching an actor to a level, detaching it, and assigning its id are
    modelled with the actor's fields.
- **Tile registry.** A map from short ids to tile singletons.
  - Lookup by id falls back to tile 0, and ids from 32767 up resolve to
    torch variants.
  - Lookup by name normalises the name and has a recursion guard.
  - Torch variants are created lazily at id + 16384.
  - The legacy id table is included.
- **Per-cell tile rules.** Each rule is a state machine over a grid of
  (tile, data) cells:
  - damage that builds up to a threshold and then replaces the tile (holy
    rock, ice spike, golden cloud tree), and that wears off by one per tick;
  - farmland ageing up to 5;
  - neighbour spreading (flower, jungle grass);
  - ice turning holes into water and lava into raw obsidian;
  - tool-gated conversions;
  - the light radius of torches and exploding tiles.
- **Beds.** A map of sleeping players shared by every bed, and an awake
  flag.
- **Spawners.** The spawn countdown in [200, 400], the spawn guards and the
  filter of free positions, tool damage, and cycling the mob level.

The Level class is not part of this model. Its grid is a
`map<(int, int), Cell>`, and its item drops are recorded as a list of
requests. The random draws, the game mode, the difficulty, and the answers
of `payStamina` and `payDurability` are parameters of the operations. Each
one is constrained to the range the source draws from.

Files, one module each:
- `common.dfy`;
- actors: `entity.dfy`, `lifecycle.dfy`, `interaction.dfy`, `movement.dfy`;
- grid and items: `level.dfy`, `items.dfy`;
- registry: `tiles.dfy`, `legacy.dfy`;
- tile rules: `damage.dfy`, `holyrock.dfy`, `icespike.dfy`,
  `goldencloudtree.dfy`, `farm.dfy`, `flower.dfy`, `ice.dfy`, `dig.dfy`,
  `junglegrass.dfy`, `mycelium.dfy`, `torch.dfy`, `exploded.dfy`;
- furniture: `bed.dfy`, `spawner.dfy`.

Three behaviours of the code that are easy to misread:
- `Tiles.get(int)` sends an unregistered id in 16384..32766 to tile 0, not
  to a torch variant.
- `LifecycleManager.remove` does not clear the actor's level.
- A new actor keeps the non-negative random id it was created with when it
  is attached.

## Model

| member | source | states |
|---|---|---|
| Common.Shr4 | src/main/java/minicraft/entity/MovementHandler.java:35-43 | `v >> 4` is the cell index t with 16t <= v < 16t + 16, also for negative pixels |
| Common.Shl4 | src/main/java/minicraft/entity/furniture/Spawner.java:167-168 | `t << 4` is a pixel that maps back to cell t |
| Common.Shr4Monotone | src/main/java/minicraft/entity/MovementHandler.java:35-43 | the cell index never decreases as the pixel grows |
| Common.ToShort | src/main/java/minicraft/level/tile/Tiles.java:153 | the `(short)` cast lands in [-32768, 32768) and agrees with its input modulo 65536 |
| Common.Low16 | src/main/java/minicraft/level/tile/TorchTile.java:27 | `id & 0xFFFF` lands in [0, 65536) and agrees with the id modulo 65536 |
| Common.ToShortInRange | src/main/java/minicraft/level/tile/Tiles.java:303 | a value that already fits a short survives the cast |
| Entities.BoundsAt | src/main/java/minicraft/entity/Entity.java:92-94 | the hitbox is centred on (x, y), with width 2·xr and height 2·yr |
| Entities.Entity.constructor | src/main/java/minicraft/entity/Entity.java:57-66 | a new actor is removed, has no level, has the given radii, and has the drawn id |
| Entities.Entity.Bounds | src/main/java/minicraft/entity/Entity.java:92-94 | getBounds is the centred box of the current position and radii |
| Entities.Entity.GetClosestPlayer | src/main/java/minicraft/entity/Entity.java:187-202 | a player asked with returnSelf answers itself; an actor without a level gets none; otherwise the level's answer |
| Entities.Entity.SetRemoved | src/main/java/minicraft/entity/Entity.java:226-228 | sets removed and changes no other field |
| Entities.Entity.SetLevel | src/main/java/minicraft/entity/Entity.java:230-232 | sets the level and changes no other field |
| Entities.Entity.SetX | src/main/java/minicraft/entity/Entity.java:234-236 | sets x and changes no other field |
| Entities.Entity.SetY | src/main/java/minicraft/entity/Entity.java:238-240 | sets y and changes no other field |
| Entities.Entity.SetEid | src/main/java/minicraft/entity/Entity.java:246-248 | sets the id and changes no other field |
| Entities.BlocksSymmetric | src/main/java/minicraft/entity/Entity.java:105-112 | blocks is symmetric and holds exactly when both actors are solid |
| Entities.EqualsIsIdEquality | src/main/java/minicraft/entity/Entity.java:216-224 | equals holds exactly when the ids agree; it is reflexive, symmetric and transitive, and equal actors have equal hash codes |
| Entities.NotWithinAcrossLevels | src/main/java/minicraft/entity/Entity.java:174-180 | an actor without a level, or on a level of another depth, is within no radius of another actor, in either direction |
| Lifecycle.Remove | src/main/java/minicraft/entity/LifecycleManager.java:14-20 | marks the actor removed and asks its level (if any) to drop it; the level field is kept |
| Lifecycle.Die | src/main/java/minicraft/entity/LifecycleManager.java:10-12 | exactly the effect of remove |
| Lifecycle.RemoveFrom | src/main/java/minicraft/entity/LifecycleManager.java:22-32 | a request naming another level changes nothing; the matching level detaches the actor (removed, no level) |
| Lifecycle.SetLevel | src/main/java/minicraft/entity/LifecycleManager.java:34-48 | a missing level changes nothing; otherwise sets level, removed = false and the position, and replaces the id only when it is negative |
| Lifecycle.ReattachKeepsId | src/main/java/minicraft/entity/LifecycleManager.java:45-47 | re-attaching an actor with a non-negative id keeps the id |
| Lifecycle.AttachThenDetach | src/main/java/minicraft/entity/LifecycleManager.java:22-48 | attaching and then removing from the same level leaves the actor removed, with no level, at the new position |
| Interaction.HandleTouch | src/main/java/minicraft/entity/InteractionHandler.java:16-28 | nobody is notified for an actor and itself or for two players; a player meeting a non-player notifies the non-player; otherwise the other actor is notified; the toucher and the touched are always the two distinct actors |
| Interaction.HandleInteraction | src/main/java/minicraft/entity/InteractionHandler.java:10-14 | exactly one interact call, on the actor, for the player |
| Movement.CoveredRangeIsPixelImage | src/main/java/minicraft/entity/MovementHandler.java:35-43 | a cell is in the covered range exactly when some pixel of the hitbox extent lies in it |
| Movement.ZeroRadiusCoversOneCell | src/main/java/minicraft/entity/MovementHandler.java:35-43 | a zero-radius hitbox covers exactly the cell of its position |
| Movement.CheckRow | src/main/java/minicraft/entity/MovementHandler.java:77-87 | the inner loop computes the row scan: it skips cells of the old box and stops after the first refusing cell |
| Movement.CheckTiles | src/main/java/minicraft/entity/MovementHandler.java:73-90 | the nested loops compute the row-major tile scan of the new box |
| Movement.ScanRowPlaces | src/main/java/minicraft/entity/MovementHandler.java:77-80 | a row scan bumps only cells of its row and range that are outside the old box, left to right |
| Movement.ScanRowPasses | src/main/java/minicraft/entity/MovementHandler.java:77-87 | a row scan that passes bumped every such cell, and each one let the mover pass |
| Movement.ScanRowStops | src/main/java/minicraft/entity/MovementHandler.java:84-86 | a row scan that fails stopped at a refusing cell, every cell it bumped before passes, and every cell of the range left of it and outside the old box was bumped, so it is the first refusing one |
| Movement.ScanRowsPlaces | src/main/java/minicraft/entity/MovementHandler.java:76-88 | a scan of rows bumps only cells of the new box outside the old one, in row-major order |
| Movement.ScanRowsPasses | src/main/java/minicraft/entity/MovementHandler.java:76-89 | a scan of rows that passes bumped every newly covered cell of those rows, and each one let the mover pass |
| Movement.ScanRowsStops | src/main/java/minicraft/entity/MovementHandler.java:76-88 | a scan of rows that fails stopped at a refusing cell, every cell it bumped before passes, and every newly covered cell before it in row-major order was bumped, so it is the first refusing one |
| Movement.TileScanSpec | src/main/java/minicraft/entity/MovementHandler.java:73-90 | the tile phase bumps exactly the newly covered cells, each once, in row-major order, with bumpedInto before mayPass; it passes exactly when all of them let the mover pass, and otherwise it stops at a refusing cell after bumping every newly covered cell before it in row-major order, all of which pass |
| Movement.Bumps | src/main/java/minicraft/entity/MovementHandler.java:82 | one bump notification per scanned cell, in order |
| Movement.ProcessInteractions | src/main/java/minicraft/entity/MovementHandler.java:93-107 | the loop makes one touch per listed actor other than the mover, in list order |
| Movement.Contains | src/main/java/minicraft/entity/MovementHandler.java:58 | `contains` finds an element with the same id (equals), not the same reference |
| Movement.RemoveAll | src/main/java/minicraft/entity/MovementHandler.java:58 | `removeAll` keeps, in order, the actors whose id is not among the old ones |
| Movement.CheckBlockages | src/main/java/minicraft/entity/MovementHandler.java:110-121 | true exactly when no listed actor other than the mover blocks it |
| Movement.Move2 | src/main/java/minicraft/entity/MovementHandler.java:27-70 | an axis step follows the step specification; success shifts the position by exactly (xd, yd), and failure leaves it unchanged |
| Movement.Move | src/main/java/minicraft/entity/MovementHandler.java:11-25 | the x step and then the y step from the resulting position, each step with the actor lists the level answers at that step (the y step queries again after the x step's callbacks); while saving, or with no delta, it reports true and changes nothing |
| Movement.NewcomersSpec | src/main/java/minicraft/entity/MovementHandler.java:58 | after removeAll the list holds exactly the actors whose id was not in the old hitbox, and it never grows |
| Movement.TouchesSpec | src/main/java/minicraft/entity/MovementHandler.java:93-107 | every listed actor other than the mover is touched, and every touch involves the mover and one such actor |
| Movement.MoveTouchVersusHandleTouch | src/main/java/minicraft/entity/MovementHandler.java:100-104 | the touch rule during movement agrees with handleTouch except for two players, where the movement rule still notifies the listed player |
| Movement.StepOkIff | src/main/java/minicraft/entity/MovementHandler.java:27-70 | an axis step succeeds exactly when it is a null step, or when every newly covered cell lets the mover pass and no newly overlapping actor blocks it |
| Movement.StepEvents | src/main/java/minicraft/entity/MovementHandler.java:46-56 | the bumps come first; once the tile phase passes, every listed actor is touched even if the step is then blocked; no touches happen when the tile phase fails |
| Movement.MoveSpecShape | src/main/java/minicraft/entity/MovementHandler.java:11-25 | each coordinate ends unchanged or shifted by its delta; steppedOn is reported exactly when the move reports success, once, last, and on the final cell |
| Movement.MoveWithoutVerticalDeltaAlwaysSucceeds | src/main/java/minicraft/entity/MovementHandler.java:14-16 | as written, a move with yd = 0 reports success whatever the tiles and actors |
| Movement.MoveWithoutHorizontalDeltaAlwaysSucceeds | src/main/java/minicraft/entity/MovementHandler.java:14-16 | as written, a move with xd = 0 reports success whatever the tiles and actors |
| Movement.MoveIntoWallReportsSuccess | src/main/java/minicraft/entity/MovementHandler.java:14-30 | a concrete refused step that stays in place yet reports success and steps on its own cell |
| Movement.GuardedMoveReportsRealMoves | src/main/java/minicraft/entity/MovementHandler.java:11-25 | with the zero-delta guards, success is equivalent to a change of position, and the result agrees with the code when both deltas are non-zero |
| Levels.Level.TileAt | src/main/java/minicraft/level/tile/IceTile.java:45 | getTile answers the connector tile outside the grid |
| Levels.Level.DataAt | src/main/java/minicraft/level/tile/farming/FarmTile.java:52 | getData answers 0 outside the grid |
| Levels.Level.SetTile | src/main/java/minicraft/level/tile/farming/FarmTile.java:41 | setTile replaces one cell's tile and resets its data; outside the grid nothing changes |
| Levels.Level.SetData | src/main/java/minicraft/level/tile/farming/FarmTile.java:54 | setData changes one cell's data only |
| Levels.Level.DropItem | src/main/java/minicraft/level/tile/FlowerTile.java:84-85 | dropItem appends exactly one request |
| Levels.DropOn | src/main/java/minicraft/level/tile/MyceliumTile.java:48 | a drop at `(xt << 4) + 8` lands in the middle of tile xt (likewise for y) |
| Levels.WithTile | src/main/java/minicraft/level/tile/farming/FarmTile.java:41 | the grid after setTile: the one cell holds the new tile with data 0, and every other cell is unchanged |
| Levels.WithData | src/main/java/minicraft/level/tile/farming/FarmTile.java:54 | the grid after setData: the one cell keeps its tile and takes the value, and every other cell is unchanged |
| Levels.Neighbour | src/main/java/minicraft/level/tile/FlowerTile.java:31-38 | the draws pick a cell at distance exactly 1 on one axis |
| Levels.Spread | src/main/java/minicraft/level/tile/FlowerTile.java:40-42 | only the chosen neighbour can change, only from `from` to `to`, and it does change when it holds `from` |
| Levels.NeighbourCoversAll | src/main/java/minicraft/level/tile/FlowerTile.java:31-38 | every orthogonal neighbour can be chosen by some draws |
| Items.Pay | src/main/java/minicraft/level/tile/farming/FarmTile.java:40 | payStamina and then payDurability, short-circuited: success needs both answers, and durability is charged only after the stamina is paid |
| Items.ToolAction | src/main/java/minicraft/level/tile/FlowerTile.java:62-71 | a tool action succeeds exactly for a paid tool of the right type at cost base − level, and charges nothing for any other item |
| Tiles.Upper | src/main/java/minicraft/level/tile/Tiles.java:255 | upper-casing keeps the length and maps each ASCII lower-case letter to its capital, leaving every other character alone |
| Tiles.UpperFacts | src/main/java/minicraft/level/tile/Tiles.java:255 | upper-casing distributes over concatenation and is idempotent |
| Tiles.Tile.constructor | src/main/java/minicraft/level/tile/Tiles.java:31-144 | a tile singleton is named in upper case and stamped with id 0 until registered |
| Tiles.Tile.Torch | src/main/java/minicraft/level/tile/TorchTile.java:44-55 | the variant is named "Torch " + the base name, stands on the base, and copies the base's eight connection flags |
| Tiles.TorchNameAndFlags | src/main/java/minicraft/level/tile/TorchTile.java:44-55 | the variant of an upper-case name is "TORCH " + that name, and on every copied flag it agrees with the base |
| Tiles.TorchKeySpec | src/main/java/minicraft/level/tile/TorchTile.java:27-33 | the variant id is base + 16384 for a base in 0..16383, and is kept for every other short; it is a torch key, and taking it twice changes nothing |
| Tiles.CutAtUnderscore | src/main/java/minicraft/level/tile/Tiles.java:274-276 | the prefix before the first '_', with no '_' left in it |
| Tiles.Normalise | src/main/java/minicraft/level/tile/Tiles.java:255-276 | get(String)'s name: upper-cased, the "TORCH" prefix and one more character cut off (noted as a torch), and the part from the first '_' dropped; no name when the cut would throw |
| Tiles.TorchNameReadsBack | src/main/java/minicraft/level/tile/Tiles.java:269-276 | "torch " followed by a name without '_' normalises to a torch request for that name in upper case |
| Tiles.Registry.constructor | src/main/java/minicraft/level/tile/Tiles.java:146-149 | after the stamping loop every registered tile in 0..255 carries its key as its id |
| Tiles.Registry.ContainsTile | src/main/java/minicraft/level/tile/Tiles.java:315-317 | true exactly when some registered tile carries the id cast to a short |
| Tiles.Registry.Add | src/main/java/minicraft/level/tile/Tiles.java:152-156 | registers the tile under the short id and stamps the tile with that id |
| Tiles.Registry.GetTorchTile | src/main/java/minicraft/level/tile/TorchTile.java:26-42 | lookup-or-insert: an existing variant is returned unchanged; otherwise one fresh variant, built from the base, is registered at the torch key; no entry is lost |
| Tiles.Registry.Lookup | src/main/java/minicraft/level/tile/Tiles.java:303-312 | a registered id returns its tile; an unregistered id from 32767 up returns the torch variant of get(id − 32767); any other id returns tile 0 |
| Tiles.Registry.Get | src/main/java/minicraft/level/tile/Tiles.java:299-313 | a negative id is shifted by 32768 first; the tile returned is registered under the resolved key |
| Tiles.Registry.FindNamed | src/main/java/minicraft/level/tile/Tiles.java:278-284 | the scan returns the first tile with the name in iteration order, or null exactly when no registered tile has it |
| Tiles.Registry.GetByName | src/main/java/minicraft/level/tile/Tiles.java:252-297 | the guard exits once the counter passes 50; a too-short "TORCH" name throws; otherwise the counter is reset and the answer is the first tile with the normalised name in iteration order, or tile 0, or the torch variant of that tile when the prefix was given; the map grows by at most that variant |
| Tiles.Registry.GetName | src/main/java/minicraft/level/tile/Tiles.java:319-326 | a name without '_' is returned as it is; otherwise the data is parseInt of the second part and the tile is what get(String) answers for the first part; a missing part, a bad number, the recursion guard and a too-short torch name are each an outcome, stated exactly when they occur |
| Tiles.Segments | src/main/java/minicraft/level/tile/Tiles.java:322 | the pieces between the '_' characters, none holding '_', the first being the prefix |
| Tiles.JoinSegments | src/main/java/minicraft/level/tile/Tiles.java:322 | joining the pieces back with '_' gives the string again |
| Tiles.JavaSplit | src/main/java/minicraft/level/tile/Tiles.java:322 | `split("_")` is the list of pieces with the trailing empty ones removed |
| Tiles.ParseInt | src/main/java/minicraft/level/tile/Tiles.java:324 | parseInt answers only values that fit an int |
| Tiles.ParseDigits | src/main/java/minicraft/level/tile/Tiles.java:324 | parseInt reads back every non-negative int from its decimal digits, and its negation with a '-' in front |
| Tiles.NoUnderscoreCut | src/main/java/minicraft/level/tile/Tiles.java:274-276 | a name without '_' is not cut |
| LegacyIds.OldId | src/main/java/minicraft/level/tile/Tiles.java:158-249 | the legacy table: only ids in 0..32767 can have a name |
| Damage.HitDamage | src/main/java/minicraft/level/tile/IceSpikeTile.java:37-42 | the damage is the data so far plus the hit, or the tile's health in Creative mode |
| Damage.HitCells | src/main/java/minicraft/level/tile/IceSpikeTile.java:47-53 | at the health the cell becomes the broken tile with data 0; below it the cell keeps its tile and records the damage; no other cell changes |
| Damage.HitsAddUp | src/main/java/minicraft/level/tile/HolyRockTile.java:64-92 | two hits that do not break the tile leave the same grid as one hit of their sum |
| Damage.DecayWearsOff | src/main/java/minicraft/level/tile/HolyRockTile.java:95-102 | n ticks lower positive damage by n, but not below 0, and change neither the tile nor any other cell |
| HolyRockRules.BrokenDrops | src/main/java/minicraft/level/tile/HolyRockTile.java:76-88 | holy stone 1..4 at coal level 0; at coal level 1, holy stone 1..2 and coal 0..1 on Hard or 1..2 otherwise; all dropped on the broken tile |
| HolyRockRules.HolyRock.constructor | src/main/java/minicraft/level/tile/HolyRockTile.java:27 | the coal level starts at 0 |
| HolyRockRules.HolyRock.MayPass | src/main/java/minicraft/level/tile/HolyRockTile.java:42-44 | nothing passes |
| HolyRockRules.HolyRock.Hurt | src/main/java/minicraft/level/tile/HolyRockTile.java:64-93 | the hit at health 50 into Sky High grass, with the drops of the coal level; Creative mode forces 50 and raises the coal level; the coal level never falls |
| HolyRockRules.HolyRock.HurtBy | src/main/java/minicraft/level/tile/HolyRockTile.java:46-49 | the same hit, always answering true |
| HolyRockRules.HolyRock.Interact | src/main/java/minicraft/level/tile/HolyRockTile.java:51-62 | true only for a paid pickaxe at cost 4 − level, which sets the coal level to 1 for good and hits for draw + 5·level + 10; otherwise nothing changes |
| HolyRockRules.HolyRock.Tick | src/main/java/minicraft/level/tile/HolyRockTile.java:95-102 | the damage falls by one; the answer says whether it was positive |
| IceSpikeRules.BumpDamage | src/main/java/minicraft/level/tile/IceSpikeTile.java:26-34 | a mob is hurt for 1 + the difficulty index, unless the game is on Peaceful; a non-mob is never hurt |
| IceSpikeRules.MayPass | src/main/java/minicraft/level/tile/IceSpikeTile.java:57-59 | nothing passes |
| IceSpikeRules.MeltDrops | src/main/java/minicraft/level/tile/IceSpikeTile.java:50 | 2..4 icicles on the broken tile |
| IceSpikeRules.Hurt | src/main/java/minicraft/level/tile/IceSpikeTile.java:36-55 | the hit at health 10 into Snow, with icicles; always true |
| IceSpikeRules.Tick | src/main/java/minicraft/level/tile/IceSpikeTile.java:75-82 | the damage falls by one; the answer says whether it was positive |
| IceSpikeRules.CreativeBreaksAtOnce | src/main/java/minicraft/level/tile/IceSpikeTile.java:40-42 | in Creative mode one hit turns the spike into Snow |
| GoldenCloudTreeRules.DrawnLight | src/main/java/minicraft/level/tile/GoldenCloudTreeTile.java:80-84 | as written, the redrawn radius is 5 for every draw |
| GoldenCloudTreeRules.IntendedLight | src/main/java/minicraft/level/tile/GoldenCloudTreeTile.java:80-84 | the intended draw: radius 6 exactly for the one draw in five that is 0, and 5 otherwise |
| GoldenCloudTreeRules.LightDrawsCompared | src/main/java/minicraft/level/tile/GoldenCloudTreeTile.java:80-84 | one of the five draws gives radius 6 as intended, and none does as written |
| GoldenCloudTreeRules.MayPass | src/main/java/minicraft/level/tile/GoldenCloudTreeTile.java:91-93 | only the air wizard passes |
| GoldenCloudTreeRules.HitDrops | src/main/java/minicraft/level/tile/GoldenCloudTreeTile.java:119-141 | an apple exactly when the one-in-a-hundred draw is 0, and oak wood 1..2 exactly when the tree falls |
| GoldenCloudTreeRules.GoldenCloudTree.constructor | src/main/java/minicraft/level/tile/GoldenCloudTreeTile.java:30-31 | radius 5, counter 0 |
| GoldenCloudTreeRules.GoldenCloudTree.LightRadius | src/main/java/minicraft/level/tile/GoldenCloudTreeTile.java:144-146 | the radius is always 5 |
| GoldenCloudTreeRules.GoldenCloudTree.Tick | src/main/java/minicraft/level/tile/GoldenCloudTreeTile.java:69-88 | while damaged: the damage falls, true, counter untouched; otherwise the counter moves on modulo 16, the radius is redrawn when it wraps, and the answer is false; the counter stays in 0..15 |
| GoldenCloudTreeRules.GoldenCloudTree.Hurt | src/main/java/minicraft/level/tile/GoldenCloudTreeTile.java:119-141 | the hit at health 20 into Sky High Grass, with the apple and oak wood drops |
| GoldenCloudTreeRules.GoldenCloudTree.HurtBy | src/main/java/minicraft/level/tile/GoldenCloudTreeTile.java:96-99 | the same hit, always answering true |
| GoldenCloudTreeRules.GoldenCloudTree.Interact | src/main/java/minicraft/level/tile/GoldenCloudTreeTile.java:102-116 | false with no change in Creative mode; otherwise true only for a paid axe, which hits for the tool's damage |
| FarmRules.AgeAfterTicks | src/main/java/minicraft/level/tile/farming/FarmTile.java:51-57 | n ticks raise the age by n, up to 5, and change nothing else; an age above 5 is kept |
| FarmRules.TrampledOnceRipe | src/main/java/minicraft/level/tile/farming/FarmTile.java:60-73 | fresh farmland can be trampled exactly once it has aged 5 ticks, and never by items or villagers |
| FarmRules.Tick | src/main/java/minicraft/level/tile/farming/FarmTile.java:51-57 | one ageing step; always true |
| FarmRules.SteppedOn | src/main/java/minicraft/level/tile/farming/FarmTile.java:60-82 | becomes Dirt exactly when the walker is not an item or a villager, the one-in-sixty draw is 0, and the age is at least 5 |
| FarmRules.Interact | src/main/java/minicraft/level/tile/farming/FarmTile.java:36-48 | true and Dirt exactly for a paid shovel at cost 4 − level; otherwise nothing changes |
| FlowerRules.Tick | src/main/java/minicraft/level/tile/FlowerTile.java:26-44 | on the one-in-thirty draw, the Dirt-to-Grass spread to the chosen neighbour; always false |
| FlowerRules.TickSpreadsGrassOnly | src/main/java/minicraft/level/tile/FlowerTile.java:31-42 | a tick changes at most one cell, an orthogonal neighbour, and only from Dirt to Grass |
| FlowerRules.FlowerDrops | src/main/java/minicraft/level/tile/FlowerTile.java:74-75 | one flower and one rose on the tile |
| FlowerRules.Interact | src/main/java/minicraft/level/tile/FlowerTile.java:61-80 | a paid shovel at cost 2 − level gives Grass, a flower and a rose, and answers true; otherwise nothing changes |
| FlowerRules.Hurt | src/main/java/minicraft/level/tile/FlowerTile.java:83-88 | always Grass, with up to one flower and one rose; always true |
| IceRules.QuenchedCells | src/main/java/minicraft/level/tile/IceTile.java:51-61 | after the visits, exactly the visited Lava cells are Raw Obsidian and every other cell is unchanged |
| IceRules.QuenchAt | src/main/java/minicraft/level/tile/IceTile.java:52-54 | one loop visit turns Lava into Raw Obsidian |
| IceRules.TickLeavesNoLava | src/main/java/minicraft/level/tile/IceTile.java:35-64 | after a tick no Lava is left in the row or the column through the ice; every changed cell was such Lava or the Hole at the chosen neighbour, which is now Water |
| IceRules.Tick | src/main/java/minicraft/level/tile/IceTile.java:35-64 | the neighbour step, then the two loops of lava visits; always false |
| IceRules.Interact | src/main/java/minicraft/level/tile/IceTile.java:73-86 | true and Water exactly for a paid pickaxe at cost 4 − level; otherwise nothing changes |
| Digging.Dig | src/main/java/minicraft/level/tile/MyceliumTile.java:34-81 | only the dug cell changes; a paid shovel or hoe leaves Dirt and a paid pickaxe leaves Path; without payment nothing changes and the answer is false; the drops are seeds or dirt on the tile |
| Digging.PickaxeDigGoesUnreported | src/main/java/minicraft/level/tile/JungleGrassTile.java:62-72 | as written for jungle grass, a paid pickaxe changes the cell to Path and charges the player, yet answers false |
| Digging.DigReportsEveryChange | src/main/java/minicraft/level/tile/MyceliumTile.java:69-79 | with a true answer after a pickaxe, the answer is true exactly when the player paid, so whenever the grid changed or something dropped |
| JungleGrassRules.Interact | src/main/java/minicraft/level/tile/JungleGrassTile.java:36-73 | the digging rule with a false answer after a paid pickaxe |
| JungleGrassRules.Tick | src/main/java/minicraft/level/tile/JungleGrassTile.java:82-101 | nothing on 39 draws in 40; otherwise the Dirt-to-jungle-grass spread to the chosen neighbour; always false |
| JungleGrassRules.SpreadReachesEveryNeighbour | src/main/java/minicraft/level/tile/JungleGrassTile.java:88-99 | every Dirt neighbour can be overgrown by one tick, and then no other cell changes |
| MyceliumRules.Interact | src/main/java/minicraft/level/tile/MyceliumTile.java:34-81 | the digging rule with a true answer after every paid dig |
| MyceliumRules.Tick | src/main/java/minicraft/level/tile/MyceliumTile.java:90-95 | always false; the level is untouched |
| TorchRules.Tick | src/main/java/minicraft/level/tile/TorchTile.java:69-76 | counts the tick and moves the spark point, which stays inside the torch's own tile; always false |
| TorchRules.LightRadius | src/main/java/minicraft/level/tile/TorchTile.java:78-81 | every torch lights radius 5 (LIGHT), whatever it stands on |
| TorchRules.Interact | src/main/java/minicraft/level/tile/TorchTile.java:83-93 | a power glove puts the base tile back, drops a torch and answers true; any other item changes nothing and answers false |
| TorchRules.GloveUndoesPlacement | src/main/java/minicraft/level/tile/TorchTile.java:83-93 | placing a torch on an undamaged base cell and then removing it with the glove leaves the grid as it was |
| ExplodedRules.Exploded.constructor | src/main/java/minicraft/level/tile/ExplodedTile.java:17-18 | lit, radius 0 |
| ExplodedRules.Exploded.Tick | src/main/java/minicraft/level/tile/ExplodedTile.java:26-32 | always true, with radius 3 afterwards, because the flag is never cleared; no level access |
| ExplodedRules.Exploded.LightRadius | src/main/java/minicraft/level/tile/ExplodedTile.java:39-42 | 0 before the first tick and 3 after |
| ExplodedRules.Exploded.MayPass | src/main/java/minicraft/level/tile/ExplodedTile.java:34-37 | everything passes |
| Beds.Player.constructor | src/main/java/minicraft/entity/furniture/Bed.java:29-30 | a player with its actor record and a spawn point |
| Beds.BedState.constructor | src/main/java/minicraft/entity/furniture/Bed.java:13-14 | nobody sleeping, awake flag 1 |
| Beds.NightTime | src/main/java/minicraft/entity/furniture/Bed.java:44 | night from the start time on; while the first day lasts only then; afterwards also before the end time |
| Beds.BedState.Sleeping | src/main/java/minicraft/entity/furniture/Bed.java:56-58 | nobody is awake |
| Beds.BedState.InBed | src/main/java/minicraft/entity/furniture/Bed.java:60-62 | the player's id is a key of the map |
| Beds.BedState.CheckCanSleep | src/main/java/minicraft/entity/furniture/Bed.java:41-54 | a player in bed cannot sleep, and sleeping needs night time |
| Beds.BedState.Use | src/main/java/minicraft/entity/furniture/Bed.java:24-38 | always true; a player who may sleep gets the spawn point (x >> 4, y >> 4), enters the map, is removed, and nobody is awake any more; otherwise nothing changes |
| Beds.BedState.RemovePlayer | src/main/java/minicraft/entity/furniture/Bed.java:71-73 | drops the entry and leaves the awake flag alone |
| Beds.BedState.RemovePlayers | src/main/java/minicraft/entity/furniture/Bed.java:75-77 | empties the map |
| Beds.BedState.RestorePlayer | src/main/java/minicraft/entity/furniture/Bed.java:80-91 | a player not in the map (by id) changes nothing; a player in it leaves the map, the player object passed in is re-added to the bed's level (the current level when the bed has none), and everyone is awake |
| Beds.BedState.RestorePlayers | src/main/java/minicraft/entity/furniture/Bed.java:94-102 | every sleeper is re-added to its bed's level, in iteration order, then the map is emptied and everyone is awake; it fails exactly when some bed has no level, and then it leaves the map and the flag alone |
| Beds.BedState.SleepThenWake | src/main/java/minicraft/entity/furniture/Bed.java:24-91 | going to sleep and then being restored leaves the map as before, the player out of bed and awake, back at the bed's level |
| Spawners.MobLevels | src/main/java/minicraft/entity/furniture/Spawner.java:45-60 | the level never exceeds the maximum; an enemy's own level is cut down to its maximum; any other mob gets 1 and 1 |
| Spawners.NextLvl | src/main/java/minicraft/entity/furniture/Spawner.java:246-249 | one level up, or back to 1; it stays in 1..max |
| Spawners.LevelsCycle | src/main/java/minicraft/entity/furniture/Spawner.java:244-261 | max Creative uses bring any level in 1..max back to itself |
| Spawners.CandidatesAreFree | src/main/java/minicraft/entity/furniture/Spawner.java:153-159 | the candidates are exactly the area positions the mob may stand on that, for an enemy, have no light; there are never more than the area has |
| Spawners.ToolDamage | src/main/java/minicraft/entity/furniture/Spawner.java:190-203 | the whole health in Creative mode; otherwise level + 0..1, plus 2..6 for a pickaxe, doubled under haste |
| Spawners.CreativeHitDestroys | src/main/java/minicraft/entity/furniture/Spawner.java:191-192 | in Creative mode one tool hit brings the health to 0 |
| Spawners.SpawnOutcome | src/main/java/minicraft/entity/furniture/Spawner.java:123-181 | no spawn exactly when there is no level, the level is full, there is no player or it is farther than 128 pixels, the mob cannot be built, or no area position is free; a spawn lands on the spawner's level, on an area position that is free |
| Spawners.UseOutcome | src/main/java/minicraft/entity/furniture/Spawner.java:243-261 | true exactly in Creative mode on an enemy spawner, and otherwise nothing changes; the level moves to the next one (1 past the maximum); a failed construction keeps the old mob and maximum; a built mob is initialised, and a level in 1..max stays in 1..max |
| Spawners.Spawner.constructor | src/main/java/minicraft/entity/furniture/Spawner.java:67-72 | health 100, the mob's levels, and a first countdown in 200..400 |
| Spawners.Spawner.InitMob | src/main/java/minicraft/entity/furniture/Spawner.java:45-60 | the fields take the mob and its levels, so that lvl <= maxMobLevel |
| Spawners.Spawner.ResetSpawnInterval | src/main/java/minicraft/entity/furniture/Spawner.java:116-118 | the countdown is 200 + the draw, within [200, 400] |
| Spawners.Spawner.TrySpawn | src/main/java/minicraft/entity/furniture/Spawner.java:123-181 | the loop builds exactly the free candidates; the answer is SpawnOutcome of the spawner's level, position and mob: a spawn exactly when there is a level, room for mobs, a closest player within 128 pixels, a constructed mob, and a free candidate; it lands on a drawn candidate, which is in the area and free |
| Spawners.Spawner.Tick | src/main/java/minicraft/entity/furniture/Spawner.java:86-111 | tickTime + 1 and the countdown − 1; at zero on no level the tick throws (`ok` false) with the countdown left at 0 and nothing spawned; otherwise at zero a reset and, exactly when the attempt is drawn, the outcome of trySpawn; no spawn otherwise; a reset on every Peaceful tick; the countdown stays in 1..400 |
| Spawners.Spawner.Use | src/main/java/minicraft/entity/furniture/Spawner.java:243-261 | answer, mob, level and maximum are UseOutcome of the old state: the Creative enemy level cycle, with the old mob kept when the new one cannot be built |
| Spawners.Spawner.Interact | src/main/java/minicraft/entity/furniture/Spawner.java:183-241 | a tool lowers the health by the tool damage and answers true, and the level removes the spawner (+500 score) at health 0 or below; a glove in Creative mode picks it up; an empty hand uses it (UseOutcome); any other item answers false; each branch states health, mob, level and maximum |

## Left out

- Integer width:
  - Java `int` arithmetic is modelled on unbounded integers, so 32-bit overflow of positions, damage and scores is not modelled;
  - the `(short)`, `& 0xFFFF` and `>> 4` conversions are modelled exactly.
- Floating point:
  - the spawn-chance formula (`Math.pow`) is a boolean parameter `attempt` of Spawners.Spawner.Tick;
  - the distance of `isWithin` (`Math.hypot`) is exact integer arithmetic;
  - the bed's "seconds left" message (`Math.ceil`) is not modelled.
- Sounds, particles, text particles, rendering and sprite connection rules have no effect in the model.
- Randomness: every draw of `java.util.Random` is a parameter restricted to its range.
- The Level class is not part of this model:
  - setTile is taken to reset the cell's data to 0;
  - `getTile` outside the grid is taken to answer the connector tile, and `getData` to answer 0;
  - `dropItem(x, y, item)` is taken to be a request for 1..1 copies, and `dropItem(x, y, n, item)` for n..n copies;
  - `level.add` and `level.remove` are reported as outputs instead.
- The Tile base class is not part of this model. Its constructor is taken to store the name upper-cased, and `getName(data)` is left as the `Described` result of Tiles.Registry.GetName.
- `toUpperCase` is modelled for ASCII letters only, and parseInt for ASCII digits only.
- The iteration order of the `HashMap`s in Tiles and Bed is a parameter `order` listing the keys.
- Tiles.Registry.constructor receives the tiles that initTileList creates as a map. Building the 256 singletons one by one is not modelled.
- Each tile rule uses the numeric id of the tile that `Tiles.get(name)` returns, so that lookup's effect on the recursion counter is not repeated there.
- Mob.hurt, which bumpedInto calls, is not part of this model. IceSpikeRules.BumpDamage returns the damage requested.
- The score and the achievement a player earns are outputs or not modelled; Player.addScore is not part of this model.
- The inventory change when a power glove picks a spawner up is not modelled.
- The spawner's reflective mob construction is a boolean `built`. The static sprite `frame` is not modelled.
- Entity.getClosestPlayer's search over the level is the parameter `levelAnswer`.
- Tiles.Registry.GetTorchTile asks that the base id fits a short, which every registered id does.
- LegacyIds.OldId: only the table is modelled. The name lookups the torch entries lead to are covered by Tiles.TorchNameReadsBack for every name, not entry by entry.
- Spawners.Spawner.Use: the new mob built by reflection is taken to keep the maximum level of the old one; whether it can be built at all is the parameter `built`.
- Movement.Move2 and Movement.Move require the mover to be on a level for a real step: MovementHandler.java:21, 46 and 50 dereference the level, so a mover with no level throws a NullPointerException, which is not modelled.
- Furniture.tick, which Spawner.tick calls first (Spawner.java:88), is not part of this model; neither are the fire particles and the sprite frame that tick updates.
- Spawners.Spawner.Tick models the throw of a spawner on no level at the spawn countdown (Spawner.java:94). The fire particles are left out, so the throw of `level.add` on no level when particles are on (Spawner.java:100-101) is not modelled.
- GoldenCloudTreeRules.GoldenCloudTree.LightRadius: the radius is stated as 5 only under the class invariant, which every operation keeps.

## Findings

| source | as written | input that shows it | evidently intended | confidence | as-written member | corrected member |
|---|---|---|---|---|---|---|
| src/main/java/minicraft/entity/MovementHandler.java:14-16 | `move(xd, 0)` calls `move2(entity, 0, 0)`, which returns true and clears `stopped`, so the move reports success even when the x step was refused | an actor at (88, 88) with radii (4, 3) moving 16 pixels right into an impassable cell: it stays at (88, 88), reports true and fires steppedOn | an axis with no delta is not tried, so the result says whether the actor moved | high (not executed) | Movement.MoveIntoWallReportsSuccess | Movement.GuardedMoveReportsRealMoves |
| src/main/java/minicraft/level/tile/GoldenCloudTreeTile.java:80-84 | `random.nextInt(5) == 5` is never true, so the light radius is always 5 | any draw 0..4 gives radius 5 | one draw in five gives radius 6 | high (not executed) | GoldenCloudTreeRules.LightDrawsCompared | GoldenCloudTreeRules.IntendedLight |
| src/main/java/minicraft/level/tile/JungleGrassTile.java:62-72 | the pickaxe branch turns the cell into path and charges stamina and durability, but falls through to `return false` | a level-0 pickaxe with stamina and durability available, on jungle grass | answer true, as the shovel and hoe branches and MyceliumTile's pickaxe branch do | medium (not executed) | Digging.PickaxeDigGoesUnreported | Digging.DigReportsEveryChange |
