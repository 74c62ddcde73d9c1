# A verified model of the SFML mini-game's entity core

This project models, in Dafny, the bookkeeping core of a small 2D action game written in C++ on SFML: a dwarf (the Player) walks a tile board read from a level file, picks up Potions, chops Logs for wood, shouts Fires at Mushrooms, and earns achievements. The model covers:

- entities as component tables with a capability bitmask, and the component rules (health clamping, TTL countdown, position, velocity and collider rectangles);
- the systems (TTL, Movement, Collider, Gameplay, Input, PrintDebug, Graphics) with their mask test, and how the game dispatches them under its three store strategies: the big array, archetype buckets filled at insertion time, and a packed sparse set;
- entity ids with the 32-bit counter's wrap-around;
- one frame of `Game::update`: the passes, the entities' own updates with the Fires a Player spawns, the collision-callback pass and the erase-remove of deleted entities;
- the input pipeline: key state, then Enter debounce, then an ordered command queue, then commands that overwrite velocity and flags;
- the Player's animation choice, fire spawning and wood and potion rules, and the achievement observer;
- the sprite sheet's animation selection and its `loadSheet` line reader, including the C++ stream-extraction rules for `Size` and `Scale`;
- the rectangle overlap test, the tile board with its texture cache, and `Game::init`, which reads a level into tiles and entities.

Objects whose fields the source updates in place are classes: `Game`, `Entity`, the components, `Board`, `Tile`, `SpriteSheet`, `PackedArray`, the input handler and the observer. Their methods are proved against pure specification functions and the rules those functions follow: `PlayerRules.PlayerStep`, `SpriteSheets.Apply`, `Inputs.CommandsFor`, `Frames.SystemMajor`, `Updates.Survivors`, `Levels.Performed` and others.

The modules, in dependency order, are: `Wrappers`, `Geometry`, `Components`, `Boards`, `Observers`, `PackedArrays`, `Systems`, `SpriteSheets`, `Inputs`, `Entities`, `PlayerRules`, `Games`, `Commands`, `SystemUpdates`, `Frames`, `Updates`, `GameUpdate`, `Levels`.

Things outside the program's own logic become parameters:
- the keyboard is a `KeyState` set of held keys;
- the frame time is a `real` argument;
- the image files that load are a map from file name to image size;
- sprite-sheet files are a map from file name to their lines;
- an animation's own time step (`AnimBase::update`) is an `Animator` function argument;
- Mushroom's vector normalisation is a `normalise` function argument.

## Model

| member | source | states |
|---|---|---|
| Geometry.IntersectsIffNotSeparated | SFML/source/utils/Rectangle.cpp:13-19 | two rectangles intersect exactly when neither lies strictly left of, right of, above or below the other |
| Geometry.IntersectsSymmetric | SFML/source/utils/Rectangle.cpp:13-19 | the overlap test gives the same answer with its two rectangles swapped |
| Geometry.TouchingCounts | SFML/source/utils/Rectangle.cpp:13-19 | rectangles that share only an edge still intersect, since the comparisons are strict |
| Geometry.CornerTouchCounts | SFML/source/utils/Rectangle.cpp:13-19 | rectangles that share only a corner still intersect |
| Geometry.SelfIntersects | SFML/source/utils/Rectangle.cpp:13-19 | a well-formed rectangle intersects itself |
| Geometry.CommonPointIntersects | SFML/source/utils/Rectangle.cpp:4-19 | two rectangles that both contain a point, boundary included, intersect |
| Geometry.IntersectsIffCommonPoint | SFML/source/utils/Rectangle.cpp:4-19 | well-formed rectangles intersect exactly when some point lies inside both |
| Components.Ordinal | SFML/include/components/Components.h:2-14 | each component kind's value is below COUNT (8) |
| Components.FromOrdinal | SFML/include/components/Components.h:2-14 | a value names a component kind exactly when it is below COUNT, and then that kind's value is it |
| Components.OrdinalRoundTrip | SFML/include/components/Components.h:2-14 | reading back a kind's value gives the kind |
| Components.OrdinalInjective | SFML/include/components/Components.h:2-14 | different kinds have different values, so each has its own bit in a component mask |
| Components.ContainsMonotone | SFML/include/entities/Entity.h:59-75 | turning more bits on never makes an entity stop matching a mask |
| Components.PositionComponent.constructor | SFML/include/components/PositionComponent.h:11 | a new position is (0, 0) |
| Components.PositionComponent.At | SFML/include/components/PositionComponent.h:12 | a position built from (x, y) is (x, y) |
| Components.PositionComponent.SetPosition | SFML/include/components/PositionComponent.h:15 | the position becomes (x, y) |
| Components.PositionComponent.SetPositionTo | SFML/include/components/PositionComponent.h:16 | the position becomes the given vector |
| Components.Integrate | SFML/source/Components/VelocityComponent.cpp:17-22 | each coordinate advances by velocity times speed times elapsed time |
| Components.IntegrateStill | SFML/source/Components/VelocityComponent.cpp:17-22 | with zero velocity, zero speed or zero elapsed time the position does not move |
| Components.IntegrateAdditive | SFML/source/Components/VelocityComponent.cpp:17-22 | two steps at one velocity equal one step over the summed time |
| Components.VelocityComponent.constructor | SFML/source/Components/VelocityComponent.cpp:4-7 | a new velocity is (0, 0) with the given speed |
| Components.VelocityComponent.SetVelocity | SFML/source/Components/VelocityComponent.cpp:9-11 | the velocity becomes (x, y) |
| Components.VelocityComponent.Update | SFML/source/Components/VelocityComponent.cpp:17-22 | the position moves by one integration step and the velocity is left as it was |
| Components.Clamp | SFML/include/components/HealthComponent.h:30-33 | `max(0, min(v, hi))` lies in [0, hi], is v inside that range, 0 below it and hi above it |
| Components.ApplyDeltasInRange | SFML/include/components/HealthComponent.h:30-33 | after any non-empty sequence of health changes, from any health, the health lies in [0, max] |
| Components.ClampSaturates | SFML/include/components/HealthComponent.h:30-33 | damage past zero leaves exactly 0, healing past the maximum leaves exactly the maximum, and a zero change keeps an in-range health |
| Components.HealthComponent.constructor | SFML/include/components/HealthComponent.h:15-21 | a valid start gives that current and maximum health |
| Components.HealthComponent.ChangeHealth | SFML/include/components/HealthComponent.h:30-33 | the health becomes old health plus delta clamped to [0, max], and stays valid |
| Components.NewHealth | SFML/include/components/HealthComponent.h:15-21 | throws invalid_argument exactly when the start is negative or above the maximum; otherwise a new valid component with that current and maximum health |
| Components.TtlStep | SFML/include/components/TTLComponent.h:14-18 | a positive TTL drops by one; zero or below it stays |
| Components.TtlAfterClosedForm | SFML/include/components/TTLComponent.h:14-18 | after n ticks from t >= 0 the TTL is max(t - n, 0) |
| Components.TTLComponent.constructor | SFML/include/components/TTLComponent.h:11 | a new TTL holds the initial value |
| Components.TTLComponent.Update | SFML/include/components/TTLComponent.h:14-18 | the TTL takes one tick |
| Components.TTLComponent.DecrementTTL | SFML/include/components/TTLComponent.h:24 | the TTL takes one tick, the same effect as `update` |
| Components.ColliderComponent.constructor | SFML/include/components/ColliderComponent.h:16 | the box is the given rectangle |
| Components.ColliderComponent.Update | SFML/include/components/ColliderComponent.h:20-23 | the box spans from pos to pos + size |
| Components.ColliderIntersectsSymmetric | SFML/include/components/ColliderComponent.h:32-34 | collider overlap is symmetric |
| Components.TtlAfterAdd | SFML/include/components/TTLComponent.h:14-18 | n ticks after m ticks are m + n ticks |
| Boards.Tile.constructor | SFML/source/core/Tile.cpp:5 | a new tile has the given type and no texture yet |
| Boards.Tile.LoadTile | SFML/source/core/Tile.cpp:7-21 | the cell and texture are recorded first; it throws exactly when no texture is given, keeping the old sprite; otherwise the sprite is scaled by the scale and placed at the cell times the texture size times the scale |
| Boards.SolidIffWall | SFML/include/core/Tile.h:17-20 | a tile is solid exactly when it is a WALL |
| Boards.CellIndexInRange | SFML/source/core/Board.cpp:13-20 | an in-bounds cell's row-major index lies inside the w * h grid |
| Boards.CellIndexInjective | SFML/source/core/Board.cpp:20 | two in-bounds cells with the same index are the same cell, so writing a cell touches no other |
| Boards.Board.constructor | SFML/source/core/Board.cpp:5-7 | a board of the given size has w * h empty cells and no cached texture |
| Boards.Board.AddTile | SFML/source/core/Board.cpp:17-44 | throws exactly when the cell is out of bounds or its texture is neither cached nor loadable; out of bounds nothing changes; a cached texture is reused and a new one cached once; on failure the cell is left empty; on success the cell holds a new tile of the type, loaded at that cell with the cached texture, and no other cell changes |
| Boards.Board.Draw | SFML/source/core/Board.cpp:46-53 | the tiles drawn are exactly the non-empty cells, in row-major order |
| Boards.TileSpritePosition | SFML/source/core/Tile.cpp:17-20 | a tile's sprite sits at its cell scaled by the texture size times the tile scale, coordinate by coordinate |
| Boards.Occupied | SFML/source/core/Board.cpp:46-53 | the tiles drawn are drawn from the cells, and every non-empty cell is among them |
| Observers.AchievementObserver.constructor | SFML/include/utils/Observer.h:10-15 | a new observer has counted no potion and no shout |
| Observers.AchievementObserver.OnPotionCollected | SFML/include/utils/Observer.h:18-23 | the potion count grows by one and the achievement is reported exactly when the count reaches 6 |
| Observers.AchievementObserver.OnShoutPerformed | SFML/include/utils/Observer.h:25-30 | the shout count grows by one and the achievement is reported exactly when the count reaches 5 |
| Observers.UnlocksEntry | SFML/include/utils/Observer.h:18-30 | in a run of notifications from a count, call i reports the achievement exactly when the count after it equals the requirement |
| Observers.UnlocksExactlyOnce | SFML/include/utils/Observer.h:18-30 | from a new observer the achievement is reported on exactly one call, the one whose number is the requirement, and never with fewer calls |
| Observers.PotionAchievementOnSixthCall | SFML/include/utils/Observer.h:14-23 | the potion achievement is reported on the sixth potion and on no other |
| Observers.ShoutAchievementOnFifthCall | SFML/include/utils/Observer.h:15-30 | the shout achievement is reported on the fifth shout and on no other |
| Observers.Unlocks | SFML/include/utils/Observer.h:18-30 | a run of n notifications gives n unlock reports |
| Observers.UnlocksSplit | SFML/include/utils/Observer.h:18-30 | the reports of a + b calls are those of the first a followed by those of the next b, from the count the first a left |
| PackedArrays.SwapPop | SFML/include/utils/PackedArray.h:17-22 | after the swap and pop the sequence is one shorter, slot `index` holds the old last element, and every other slot is kept |
| PackedArrays.Unmapped | SFML/include/utils/PackedArray.h:17-22 | after the re-map and erase, the removed id has no entry, the moved id maps to the vacated slot, and every other entry is kept |
| PackedArrays.InsertKeepsPacked | SFML/include/utils/PackedArray.h:12-15 | inserting a new id keeps the sparse map a bijection between the ids and the dense slots |
| PackedArrays.RemoveKeepsPacked | SFML/include/utils/PackedArray.h:17-22 | removing a present id keeps the sparse map a bijection between the ids and the dense slots |
| PackedArrays.RemoveDropsOnlyThatId | SFML/include/utils/PackedArray.h:17-22 | removing a present id drops exactly that id from the map and one slot from the dense sequence |
| PackedArrays.RemoveLastSlot | SFML/include/utils/PackedArray.h:17-22 | removing the id in the last slot just pops that slot and erases that entry |
| PackedArrays.RemoveAbsentDropsSlotZero | SFML/include/utils/PackedArray.h:17-22 | removing an absent id reads slot 0 through the map's default, so the entity in slot 0 is dropped while its id keeps an entry |
| PackedArrays.PackedArray.constructor | SFML/include/utils/PackedArray.h:7-9 | a new store is empty and satisfies the invariant |
| PackedArrays.PackedArray.Ids | SFML/include/utils/PackedArray.h:20 | the ids read slot by slot from the dense entities |
| PackedArrays.PackedArray.Insert | SFML/include/utils/PackedArray.h:12-15 | the entity is appended, its id maps to the new slot, and the invariant holds when the id was absent and is the entity's |
| PackedArrays.PackedArray.Remove | SFML/include/utils/PackedArray.h:17-22 | the dense sequence and map become SwapPop and Unmapped of the looked-up slot, the id is no longer contained, and the invariant is kept for a present id |
| Systems.MaskOf | SFML/source/systems/GameplaySystem.cpp:12 | only the Gameplay constructor turns on no bit |
| Systems.NewSystem | SFML/source/systems/MovementSystem.cpp:7-9 | a new system has its class and the bits its constructor turns on |
| Systems.EmptyMaskValidatesNothing | SFML/include/systems/Systems.h:18-21 | a system with an empty mask accepts no entity |
| Systems.ValidateIsContainment | SFML/include/systems/Systems.h:18-21 | with a non-empty mask, an entity is accepted exactly when its bits contain the mask |
| Systems.ValidateMonotone | SFML/include/systems/Systems.h:18-21 | an entity with more bits on is still accepted |
| Systems.GameplayNeverValidates | SFML/source/systems/GameplaySystem.cpp:12 | the Gameplay system as constructed accepts no entity, so its per-entity update never runs |
| Systems.ConstructedMasks | SFML/source/systems/TTLSystem.cpp:6-7 | TTL accepts entities with a TTL bit, Movement with velocity and position, Collider and PrintDebug with a collider, Input with an input bit |
| Entities.TypeValue | SFML/include/entities/Entity.h:16-24 | the enumerator values lie in [-1, 5], and -1 is exactly UNDEFINED |
| Entities.TypeValueInjective | SFML/include/entities/Entity.h:16-24 | distinct entity types have distinct enumerator values |
| Entities.Entity.constructor | SFML/source/entities/Entity.cpp:17-24 | a new entity is UNDEFINED, has id 0, is not deleted, not on a sprite sheet, and holds exactly its position component |
| Entities.Entity.Typed | SFML/source/entities/Entity.cpp:26-32 | the same, with the given kind |
| Entities.Entity.Potion | SFML/include/entities/StaticEntities.h:13 | a Potion has kind POTION and only its position component |
| Entities.Entity.Log | SFML/include/entities/StaticEntities.h:32 | a Log has kind LOG and only its position component |
| Entities.Entity.Fire | SFML/source/entities/Fire.cpp:7-16 | a Fire has kind FIRE and components {POSITION, TTL, VELOCITY}, TTL 150, velocity (0,0) at speed 200 |
| Entities.Entity.Mushroom | SFML/source/entities/Mushroom.cpp:5-15 | a Mushroom has kind MUSHROOM and components {POSITION, HEALTH, VELOCITY, COLLIDER}, health 30 of 30, speed 50 and an empty collider |
| Entities.Entity.Player | SFML/source/entities/Player.cpp:17-34 | a Player has kind PLAYER and components {POSITION, VELOCITY, INPUT, HEALTH}, speed 1, health 80 of 100, input mode WASD, and is neither attacking nor shouting, with no wood |
| Entities.Entity.AddComponent | SFML/include/entities/Entity.h:59-63 | the component's bit is turned on and the component is stored under its kind, replacing any earlier one: afterwards `GetComponent` of that kind returns it, and every other kind's lookup returns what it did before; the table invariant is kept |
| Entities.Entity.GetComponent | SFML/include/entities/Entity.h:65-71 | a lookup succeeds exactly when the kind is in the table, and returns a component that the table stores |
| Entities.GetComponentMatchesBits | SFML/include/entities/Entity.h:57-75 | a component is found exactly when its bit is on, and it carries the kind it was looked up by |
| Entities.AddingKeepsMask | SFML/include/entities/Entity.h:59-63 | adding a component never makes `hasComponent` false for a mask it held |
| Entities.Entity.GetTTLComponent | SFML/include/entities/Entity.h:77 | only a Fire returns a TTL component, its own; every other class returns null |
| Entities.Entity.SetID | SFML/include/entities/Entity.h:37-38 | `getID` returns the id just set |
| Entities.Entity.DeleteEntity | SFML/include/entities/Entity.h:51-52 | the entity is deleted afterwards, whatever it was before |
| Entities.Entity.SetPosition | SFML/source/entities/Entity.cpp:81-88 | `getPosition` returns the position just set |
| Entities.Entity.RefreshBounds | SFML/source/entities/Entity.cpp:53-69 | the bounding box spans from the current position by the bounding-box size; the position is not changed |
| Entities.Entity.Init | SFML/source/entities/Entity.cpp:36-43 | the texture loads when it can, the sprite scale is (s, s) and the bounding-box size is the texture size times s; Potion and Log also place their box at the position; without a sheet, `getTextureSize` and `getSpriteScale` (Entity.cpp:94-104) then report the texture's size and (s, s), and with one they report what they did before |
| Entities.Entity.InitSpriteSheet | SFML/source/entities/Entity.cpp:45-51 | a sheet that cannot be opened or that throws leaves the entity's flags and sizes; otherwise the entity uses the sheet, Idle is selected and the box size is the frame size times the sheet's scale, and `getTextureSize` and `getSpriteScale` (Entity.cpp:94-104) then report the sheet's frame size and scale |
| Entities.Entity.FireUpdate | SFML/source/entities/Fire.cpp:25-31 | the fire moves by its own velocity times speed times elapsed, then its bounding box follows |
| Entities.Entity.MushroomUpdate | SFML/source/entities/Mushroom.cpp:21-39 | with a player the velocity becomes the chase velocity, without one it is kept; the bounding box follows the position |
| Entities.Entity.SetAttacking | SFML/include/entities/Player.h:38 | the attack flag is the one given |
| Entities.Entity.SetShouting | SFML/include/entities/Player.h:40 | the shout flag is the one given |
| Entities.Entity.SetObserver | SFML/source/entities/Player.cpp:46-48 | the observer is the one given |
| Entities.Entity.AddWood | SFML/source/entities/Player.cpp:136-140 | wood becomes the old wood plus w, clamped to [0, 999] |
| Entities.Entity.HandlePotionCollision | SFML/source/entities/Player.cpp:174-185 | for a Potion, health rises by 10 (clamped), the observer counts one potion and the potion is deleted, reporting the achievement exactly on the sixth; for anything else nothing changes |
| Entities.Entity.HandleLogCollision | SFML/source/entities/Player.cpp:187-199 | while attacking with the animation in action, a Log adds 15 wood (clamped) and is deleted; otherwise wood and the log are unchanged |
| Entities.Entity.CreateFire | SFML/source/entities/Player.cpp:142-158 | a new Fire, id 0 and not deleted, sits half a texture size right of and below the player and flies in the direction the sprite faces |
| Entities.Entity.PositionSprite | SFML/source/entities/Player.cpp:160-172 | the player stands at SpritePlacement of its cell and its velocity is (0,0) |
| Entities.Entity.SelectPlayerAnimation | SFML/source/entities/Player.cpp:57-85 | the player state becomes AnimStep of the old state and the velocity |
| Entities.Entity.Shoot | SFML/source/entities/Player.cpp:87-108 | the player state becomes ShootStep of the old state; the observer counts one shout exactly when a fire is due, and the achievement is reported exactly on the fifth |
| Entities.Entity.TickCooldown | SFML/source/entities/Player.cpp:88-90 | a positive cooldown drops by the frame time; otherwise it is kept |
| Entities.Entity.PayForShot | SFML/source/entities/Player.cpp:100-107 | one wood is paid, the cooldown restarts at 0.5, shouting is cleared and the observer counts one shout |
| Entities.Entity.ClearFinishedActions | SFML/source/entities/Player.cpp:110-114 | the player state becomes FinishStep of the old one |
| Entities.Entity.FinishUpdate | SFML/source/entities/Player.cpp:110-123 | the flags are reset as FinishStep says and the bounding box follows the position |
| Entities.Entity.PlayerUpdate | SFML/source/entities/Player.cpp:54-124 | the player state becomes PlayerStep of the old state and velocity; a new fire is returned exactly when the step spawns, placed and aimed as createFire does; the observer counts that shout |
| Entities.Entity.Update | SFML/source/entities/Entity.cpp:53-69 | per class: the base refreshes its box, Potion and Log change nothing, a Fire moves then refreshes, a Mushroom chases then refreshes, a Player follows PlayerStep; only the Player can return a fire |
| Entities.NewFireParts | SFML/source/entities/Fire.cpp:7-14 | the fire's fresh components start at the origin, with TTL 150 and speed 200 |
| Entities.NewMushroomParts | SFML/source/entities/Mushroom.cpp:5-10 | the mushroom's fresh components start with health 30 of 30, speed 50 and an empty collider |
| Entities.NewPlayerParts | SFML/source/entities/Player.cpp:24-33 | the player's fresh components start with speed 1, WASD input and health 80 of 100 |
| Entities.Entity.BaseUpdate | SFML/source/entities/Entity.cpp:53-69 | an entity on a sprite sheet advances its sheet; then the bounding box spans from the position by the box size |
| SpriteSheets.FreshAnim | SFML/source/graphics/SpriteSheet.cpp:93-96 | an animation as created by the loader is stopped, not looping, not in action, and keeps the parameters of its line |
| SpriteSheets.SelectAnimation | SFML/source/graphics/SpriteSheet.cpp:108-120 | the selection changes something exactly when the name is loaded and not already current; otherwise the state is unchanged; on a change the named animation becomes current with the requested looping flag, plays when asked, the previous one is stopped, the set of names is kept, and texture, size, scale and type are untouched |
| SpriteSheets.SelectAnimationConsistent | SFML/source/graphics/SpriteSheet.cpp:108-120 | selecting keeps "only the current animation can be playing", and after a change the new current one plays exactly when `play` was asked |
| SpriteSheets.SelectAnimationIdempotent | SFML/source/graphics/SpriteSheet.cpp:111 | selecting the animation just selected reports no change and leaves the state as it is, so it is not restarted |
| SpriteSheets.SelectedIsCurrent | SFML/source/graphics/SpriteSheet.cpp:104-119 | after selecting a loaded name, `getCurrentAnim` returns that animation, with the requested looping and playing flags when it was not already current |
| SpriteSheets.CurrentOf | SFML/source/graphics/SpriteSheet.cpp:104-106 | the current animation exists exactly when a current name is set and loaded, and is the one stored under that name |
| SpriteSheets.Words | SFML/source/graphics/SpriteSheet.cpp:61-63 | a line splits into non-empty words free of whitespace, as successive `>>` extractions read them |
| SpriteSheets.WordsOfWordThenRest | SFML/source/graphics/SpriteSheet.cpp:61-66 | a word followed by whitespace reads as that word and then the words of the rest |
| SpriteSheets.ParseInt | SFML/source/graphics/SpriteSheet.cpp:72 | an integer token read for the frame size is non-empty, and a digit string reads as its decimal value |
| SpriteSheets.ParseUnsignedDecimal | SFML/source/graphics/SpriteSheet.cpp:76 | an unsigned decimal read for the scale is non-negative, and a digit string reads as its decimal value |
| SpriteSheets.Classify | SFML/source/graphics/SpriteSheet.cpp:59-98 | an empty line or one starting with '#' is skipped, and a line of only whitespace has an empty, unrecognised key |
| SpriteSheets.Apply | SFML/source/graphics/SpriteSheet.cpp:64-98 | one line throws exactly for a texture that does not load, a duplicate animation name, or an animation under a type other than "Directional"; a throwing line leaves the state; an accepted Animation line adds that name with a fresh animation; no other line touches the animations, and none sets the current one |
| SpriteSheets.Released | SFML/source/graphics/SpriteSheet.cpp:18-24 | releasing drops all animations and the current one and keeps texture, size, scale and type |
| SpriteSheets.SkippedLineIsNoOp | SFML/source/graphics/SpriteSheet.cpp:59-60 | comment and empty lines have no effect anywhere in a sheet file |
| SpriteSheets.RunKeepsCurrent | SFML/source/graphics/SpriteSheet.cpp:56-99 | running the lines never changes the current animation and keeps the sheet consistent |
| SpriteSheets.RunDeclaresAnimations | SFML/source/graphics/SpriteSheet.cpp:82-97 | a load that completes adds exactly the names of its Animation lines, none of which was present before |
| SpriteSheets.DuplicateAnimationThrows | SFML/source/graphics/SpriteSheet.cpp:85-86 | two Animation lines with the same name make the load throw |
| SpriteSheets.UnknownAnimationTypeThrows | SFML/source/graphics/SpriteSheet.cpp:88-91 | without the "Directional" type and no AnimationType line, a file with an Animation line throws |
| SpriteSheets.SpriteSheet.constructor | SFML/source/graphics/SpriteSheet.cpp:7-12 | a new sheet has no animations, no current one, scale (1,1) and faces Right |
| SpriteSheets.SpriteSheet.ReleaseSheet | SFML/source/graphics/SpriteSheet.cpp:18-24 | the new state is the released old state; the direction is kept |
| SpriteSheets.SpriteSheet.SetSpriteDirection | SFML/source/graphics/SpriteSheet.cpp:39-45 | the sheet faces the given direction, and nothing else changes |
| SpriteSheets.SpriteSheet.LoadSheet | SFML/source/graphics/SpriteSheet.cpp:51-102 | a file that cannot be opened throws and changes nothing; otherwise the new state is the run of the file's lines from the released state, and the call succeeds exactly when no line threw |
| SpriteSheets.SpriteSheet.ApplyLines | SFML/source/graphics/SpriteSheet.cpp:58-99 | the line loop ends in the state of running the classified lines in order, stopping at the first line that throws, and succeeds exactly when none did |
| SpriteSheets.SpriteSheet.ApplyLine | SFML/source/graphics/SpriteSheet.cpp:59-98 | one line leaves the state Apply gives and reports whether it threw |
| SpriteSheets.SpriteSheet.SetAnimation | SFML/source/graphics/SpriteSheet.cpp:108-120 | the new state and result are those of SelectAnimation on the old state; the direction is kept |
| SpriteSheets.SpriteSheet.CurrentAnim | SFML/source/graphics/SpriteSheet.cpp:104-106 | returns the animation stored under the current name, or none |
| SpriteSheets.SpriteSheet.Update | SFML/source/graphics/SpriteSheet.cpp:122-125 | the sheet's new state is Advanced of the old one |
| SpriteSheets.Advanced | SFML/source/graphics/SpriteSheet.cpp:122-125 | only the current animation, when there is one, takes its time step; every other animation, the texture, size, scale and type are kept |
| SpriteSheets.AdvancedConsistent | SFML/source/graphics/SpriteSheet.cpp:122-125 | a time step keeps the animation table consistent |
| SpriteSheets.ClassifyAll | SFML/source/graphics/SpriteSheet.cpp:58-63 | every line of the file is classified on its own |
| SpriteSheets.ClassifyByKey | SFML/source/graphics/SpriteSheet.cpp:61-77 | a non-comment line is classified by its first word: "Size" and "Scale" hand the rest of the line to their two reads |
| SpriteSheets.ClassifySizeAndScale | SFML/source/graphics/SpriteSheet.cpp:71-77 | the key "Size" or "Scale" followed by whitespace or nothing selects the Size or Scale reads of the rest |
| SpriteSheets.ReadInt | SFML/source/graphics/SpriteSheet.cpp:72 | `>>` into an int: a failed stream or one with only whitespace left keeps the value and fails; any value stored lies in the int range; a read that succeeds consumes input |
| SpriteSheets.ReadReal | SFML/source/graphics/SpriteSheet.cpp:76 | `>>` into a float: a failed stream or one with only whitespace left keeps the value and fails; a read that succeeds consumes input |
| SpriteSheets.ReadIntOfWord | SFML/source/graphics/SpriteSheet.cpp:72 | an in-range integer followed by a non-digit is read whole and the stream goes on after it (`32px` reads 32) |
| SpriteSheets.ReadRealOfWord | SFML/source/graphics/SpriteSheet.cpp:76 | a plain decimal word is read whole and the stream goes on after it |
| SpriteSheets.ReadIntNoNumber | SFML/source/graphics/SpriteSheet.cpp:72 | input that does not start with a number stores 0 and fails the stream |
| SpriteSheets.ReadRealNoNumber | SFML/source/graphics/SpriteSheet.cpp:76 | the same for a float, for which a point may also start a number |
| SpriteSheets.SizeLineReadsWidth | SFML/source/graphics/SpriteSheet.cpp:71-74 | a Size line whose first number reads whole sets the width to it and reads the height from what follows |
| SpriteSheets.SizeLineWithoutNumber | SFML/source/graphics/SpriteSheet.cpp:71-74 | a Size line with nothing after the key keeps the size; one starting with a non-number sets only the width, to 0 |
| SpriteSheets.ScaleLineReadsX | SFML/source/graphics/SpriteSheet.cpp:75-78 | a Scale line whose first word is a decimal sets the x scale to it and reads the y scale from what follows |
| PlayerRules.ChooseAnimation | SFML/source/entities/Player.cpp:58-85 | Attack wins over Shout, Shout over movement, both play once; otherwise the looping Walk plays exactly when the velocity is non-zero and Idle exactly when it is zero, and the sprite turns only on horizontal movement, to the Left exactly when vx < 0 |
| PlayerRules.AnimStep | SFML/source/entities/Player.cpp:58-85 | the selection changes only the sheet and the facing, as SetAnimation and SetSpriteDirection do for the chosen animation |
| PlayerRules.ShootStep | SFML/source/entities/Player.cpp:87-108 | a fire is spawned only when shouting with wood to pay; it costs one wood, restarts the 0.5 cooldown and clears shouting; without a spawn, wood and shouting are kept; the sheet, facing and attack flag never change here |
| PlayerRules.FinishStep | SFML/source/entities/Player.cpp:110-114 | each action flag survives exactly when the current animation has not stopped playing; nothing else changes |
| PlayerRules.PlayerStep | SFML/source/entities/Player.cpp:54-124 | over a whole update, a spawn needs shouting and wood and pays one wood with the cooldown restarted and shouting cleared; without one, wood is kept; neither action flag is ever turned on |
| PlayerRules.SpawnGate | SFML/source/entities/Player.cpp:87-95 | a fire is spawned exactly when the player shouts, the just-selected animation is in action, there is at least one wood, and the cooldown after the tick is over |
| PlayerRules.AttackShowsAttack | SFML/source/entities/Player.cpp:59-62 | while attacking, the Attack animation is current after the update, when the sheet has one |
| PlayerRules.SpawnOncePerShout | SFML/source/entities/Player.cpp:100-103 | after a spawning update, the next update cannot spawn again without a new shout |
| PlayerRules.CooldownBlocksSpawn | SFML/source/entities/Player.cpp:88-95 | a cooldown longer than the frame blocks the spawn |
| PlayerRules.WoodStaysInRange | SFML/source/entities/Player.cpp:95-100 | the spawn cost never takes wood out of [0, 999] |
| PlayerRules.FinishedAnimationClearsFlags | SFML/source/entities/Player.cpp:110-114 | when the selected animation has stopped playing, the update clears both attacking and shouting |
| PlayerRules.FireVelocity | SFML/source/entities/Player.cpp:150-156 | the fire flies horizontally at the fire speed, to the left exactly when the player faces Left |
| PlayerRules.FireOrigin | SFML/source/entities/Player.cpp:144-148 | the fire starts half a texture size right of and below the player's position |
| PlayerRules.SpritePlacement | SFML/source/entities/Player.cpp:160-168 | the sprite sits below the cell corner by the cell height less the sprite height, and right of it by half that |
| PlayerRules.FullHeightSpriteAtCorner | SFML/source/entities/Player.cpp:163-168 | a sprite exactly one cell tall is placed on the cell's corner |
| PlayerRules.ChaseNearAndFar | SFML/source/entities/Mushroom.cpp:25-34 | within 0.0005 of the player on both axes the mushroom stops; more than 0.001 away horizontally it takes the normalised offset as velocity |
| PlayerRules.PlayerFrame | SFML/source/entities/Player.cpp:54-124 | a whole `Player::update` is PlayerStep and then the sheet's time step when the player draws from one; only the current animation advances |
| PlayerRules.ShoutSpawnsInAction | SFML/source/entities/Player.cpp:64-108 | a new shout with wood and no cooldown whose animation is in action after its first step spawns a fire on that frame or the next |
| PlayerRules.AttackEndsWithAnimation | SFML/source/entities/Player.cpp:58-62 | once the Attack animation stops playing, both action flags are down after the next frame |
| Inputs.GlobalCommand | SFML/source/core/InputHandler.cpp:11-19 | a command is returned exactly when Escape is held, and then it is Pause |
| Inputs.ToggleTwice | SFML/source/core/InputHandler.cpp:70-79 | toggling the input mode twice restores it |
| Inputs.CommandsForMembership | SFML/source/core/InputHandler.cpp:48-63 | a command is queued exactly when it is one of the six player commands and its key in the current mode is held |
| Inputs.CommandsForOrder | SFML/source/core/InputHandler.cpp:48-63 | with Space and LShift held, Attack and Shout are the last two commands, after every movement command |
| Inputs.NoKeysNoCommands | SFML/source/core/InputHandler.cpp:48-63 | with no key held nothing is queued, in either mode |
| Inputs.HoldingEnterTogglesOnce | SFML/source/core/InputHandler.cpp:37-46 | holding Enter for any number n >= 1 of polls toggles the mode exactly once; the debounce flag stays set |
| Inputs.QueueMoves | SFML/source/core/InputHandler.cpp:48-59 | the movement commands queued are Up, Left, Down, Right in that order, each only when its key in the mode is held |
| Inputs.QueueCommands | SFML/source/core/InputHandler.cpp:48-63 | the queue is the movement commands of the mode, then Attack, then Shout, as the reference queue `CommandsFor` states |
| Inputs.PlayerInputHandler.constructor | SFML/source/core/InputHandler.cpp:21-31 | a new handler starts in WASD mode, not debouncing, with an empty queue |
| Inputs.PlayerInputHandler.ToggleInputMode | SFML/source/core/InputHandler.cpp:70-79 | the mode flips between WASD and ARROWS; the debounce flag and queue are unchanged |
| Inputs.PlayerInputHandler.HandleInput | SFML/source/core/InputHandler.cpp:33-67 | the queue is cleared, the mode toggles exactly on a fresh press of Enter and the debounce flag follows Enter, then the returned queue is the commands of the new mode whose keys are held |
| Inputs.PlayerInputComponent.constructor | SFML/source/Components/InputComponent.cpp:7-10 | the component owns a new handler in its initial state |
| Inputs.Debounce | SFML/source/core/InputHandler.cpp:37-46 | the debounce flag follows Enter, and the mode changes exactly on a press of Enter that was not already held |
| Inputs.Toggled | SFML/source/core/InputHandler.cpp:70-79 | toggling always changes the input mode |
| Inputs.Triggered | SFML/source/core/InputHandler.cpp:48-63 | the queue is never longer than the list of commands |
| Inputs.TriggeredMembership | SFML/source/core/InputHandler.cpp:48-63 | a command is queued exactly when it is listed and its key in the current mode is held |
| Inputs.TriggeredConcat | SFML/source/core/InputHandler.cpp:48-63 | queuing works piecewise over the command list, keeping its order |
| Commands.VelocityOf | SFML/source/core/GameCommand.cpp:15-20 | the velocity component a movement command writes exists exactly when there is a player with one, and is the player's |
| Commands.SteerIdempotent | SFML/source/core/GameCommand.cpp:13-64 | running the same command twice changes the velocity no more than once |
| Commands.SteerAxesCommute | SFML/source/core/GameCommand.cpp:13-64 | a horizontal and a vertical movement command give the same velocity in either order: each axis takes its command's speed |
| Commands.LastCommandWins | SFML/source/core/GameCommand.cpp:13-64 | after a queue of commands each axis holds what the last command on that axis wrote, or its old value when none touched it |
| Commands.LeftAndRightGoesRight | SFML/source/core/InputHandler.cpp:49-52 | with A and D both held in WASD mode, Left is queued before Right, so the player ends moving right at +150 |
| Commands.UpAndDownGoesDown | SFML/source/core/InputHandler.cpp:49-51 | with W and S both held in WASD mode, Up is queued before Down, so the player ends moving down at +150 |
| Commands.NoKeysStandStill | SFML/source/Components/InputComponent.cpp:17-27 | with no key held the velocity stays the reset (0, 0), in either mode |
| Commands.Execute | SFML/source/core/GameCommand.cpp:7-87 | Pause flips the pause flag and ToggleDebugBounds the window's debug flag; a movement command overwrites one axis of the player's velocity at 150 and keeps the other, and does nothing without a player or velocity component; Attack and Shout only ever set the player's flag; nothing else changes |
| Commands.InputComponentUpdate | SFML/source/Components/InputComponent.cpp:12-28 | without a player nothing changes; otherwise the handler queues the held commands of its mode, the player's velocity is the reset (0, 0) steered by that queue in order, and Attack/Shout set their flags exactly when queued; the pause and debug flags never change |
| Games.InitialArchetypes | SFML/source/core/Game.cpp:34-46 | in ARCHETYPES mode there are two empty buckets, {VELOCITY, POSITION} then {GRAPHICS}; in the other modes none |
| Games.NextId | SFML/source/core/Game.cpp:149 | the unsigned pre-increment: one more, or 0 when the counter wraps at 2^32 |
| Games.IdsFromConsecutive | SFML/source/core/Game.cpp:147-150 | before the counter wraps, k successive `addEntity` calls from counter c hand out c + 1, ..., c + k |
| Games.GameIds | SFML/source/core/Game.cpp:147-150 | from the constructor's counter 1, ids run 2, 3, 4, ...: strictly increasing, so never reused, and never 0, for fewer than 2^32 - 1 entities |
| Games.CounterWraps | SFML/source/core/Game.cpp:149-150 | the (2^32 - 1)-th entity added gets id 0, the id of a constructed entity |
| Games.IdsFromPrefix | SFML/source/core/Game.cpp:147-150 | later calls never change the ids already handed out |
| Games.IdsFromLast | SFML/source/core/Game.cpp:149-150 | each id handed out is the successor of the previous one |
| Games.BucketedEntries | SFML/source/core/Game.cpp:154-160 | every bucket is treated on its own by the same rule |
| Games.BucketedMembership | SFML/source/core/Game.cpp:154-160 | after `addEntity(e)` a bucket keeps its mask, and holds x exactly when it held x before or x is e and e's bits contain the mask |
| Games.BucketMembersEmpty | SFML/source/core/Game.cpp:34-46 | the constructor's buckets hold no entity |
| Games.BucketMembersAdd | SFML/source/core/Game.cpp:154-160 | `addEntity(e)` adds at most e to the buckets and removes nothing from them |
| Games.ItemPlacement | SFML/include/core/Game.h:71-78 | an item of cell (col, row) is placed at (100 col + 25, 100 row + 25) |
| Games.Game.constructor | SFML/source/core/Game.cpp:20-53 | a new game is unpaused with counter 1, in the menu, with no entities, board, player or callbacks, the systems Input, Movement, Collider, Gameplay, PrintDebug, TTL in that order, the Graphics system apart, and the buckets of its strategy |
| Games.Game.TogglePause | SFML/include/core/Game.h:56-57 | the paused flag flips |
| Games.Game.StartGame | SFML/include/core/Game.h:65-66 | the game is Playing and no longer in the menu |
| Games.Game.GetEntity | SFML/source/core/Game.cpp:280-285 | for 1 <= idx <= size the idx-th entity counting from 1, otherwise null |
| Games.Game.SetPlayer | SFML/source/core/Game.cpp:124 | the new Player becomes the game's player and the invariant is kept |
| Games.Game.RegisterCollisionCallback | SFML/source/core/Game.cpp:14-16 | the kind's callback is stored, replacing any earlier one, and every other kind keeps its own |
| Games.Game.BuildBoard | SFML/source/core/Game.cpp:262-265 | the game has a new empty board of the given size with no texture cached |
| Games.Game.AddToBuckets | SFML/source/core/Game.cpp:155-159 | the bucket loop leaves the buckets Bucketed over the entity's bits |
| Games.Game.StoreEntity | SFML/source/core/Game.cpp:153-163 | in ARCHETYPES mode the matching buckets receive the entity and the packed store is unchanged; in PACKED_ARRAY mode the packed store inserts it under its id and the buckets are unchanged; otherwise both are unchanged |
| Games.Game.AddEntity | SFML/source/core/Game.cpp:147-164 | the counter is pre-incremented and becomes the entity's id, the entity is appended to the list, then stored as its strategy says; the invariant is kept |
| Games.Game.Enlist | SFML/source/core/Game.cpp:151 | the entity is appended to the list and the invariant is kept |
| Games.IdsFrom | SFML/source/core/Game.cpp:147-150 | k successive `addEntity` calls hand out k ids |
| SystemUpdates.AsReals | SFML/source/systems/ColliderSystem.cpp:26-27 | the integer texture size converted to reals, coordinate by coordinate |
| SystemUpdates.TTLUpdate | SFML/source/systems/TTLSystem.cpp:10-21 | throws exactly when `getTTLComponent` is null, changing nothing; otherwise the TTL takes one countdown step and the entity is deleted exactly when it was already deleted or the new TTL is at most 0 |
| SystemUpdates.FireLifetime | SFML/source/systems/TTLSystem.cpp:16-20 | a fire's TTL after n updates is 150 - n while n < 150, and is at most 0 exactly from the 150th update on, so it is deleted on the 150th |
| SystemUpdates.MovementUpdate | SFML/source/systems/MovementSystem.cpp:12-21 | throws exactly when the velocity or position component is missing, leaving the position; otherwise the position advances by velocity times speed times elapsed and the velocity is untouched |
| SystemUpdates.ColliderUpdate | SFML/source/systems/ColliderSystem.cpp:12-31 | throws exactly when the collider is missing, leaving it; otherwise the collider box spans from the entity's position over its unscaled texture size |
| SystemUpdates.ColliderIgnoresScale | SFML/source/systems/ColliderSystem.cpp:26-30 | with a sprite scale above 1 the collider box differs from the scaled bounding box `Entity::update` computes |
| SystemUpdates.PrintDebugUpdate | SFML/source/systems/PrintDebugSystem.cpp:12-31 | throws exactly when the collider is missing |
| SystemUpdates.GraphicsUpdate | SFML/source/systems/GraphicsSystem.cpp:13-27 | throws exactly when the graphics component is missing |
| SystemUpdates.NoGraphicsBit | SFML/source/systems/GraphicsSystem.cpp:8-11 | no entity of the model has the GRAPHICS bit, so the Graphics system and the drawable bucket never see one |
| SystemUpdates.InputUpdate | SFML/source/systems/InputSystem.cpp:12-24 | without an input component or without a player nothing changes; otherwise the handler debounces Enter, queues the commands of the current keys, and the player's velocity and flags become what those commands make of a stopped player; pause and debug flags are kept |
| SystemUpdates.FirstFireHit | SFML/source/systems/GameplaySystem.cpp:71-81 | the index found is a FIRE whose box meets the mushroom's, and no earlier entity is one; none is found exactly when no entity is one |
| SystemUpdates.FireHit | SFML/source/systems/GameplaySystem.cpp:68-70 | the fire that hits is an index of the game's list |
| SystemUpdates.Contact | SFML/source/systems/GameplaySystem.cpp:30-65 | on overlap, a Potion heals the player by 10 (clamped), is counted by the observer and deleted; a Log adds 15 wood (clamped) and is deleted only while the player attacks; a MUSHROOM costs the player 1 health; without overlap or otherwise nothing changes |
| SystemUpdates.FireHits | SFML/source/systems/GameplaySystem.cpp:67-85 | for a Mushroom, the first overlapping FIRE in list order costs it 10 health (clamped) and is deleted, and the mushroom is deleted when its health is then at most 0; no other entity's flag changes |
| SystemUpdates.GameplayUpdate | SFML/source/systems/GameplaySystem.cpp:16-93 | nothing happens for a PLAYER or without a player; otherwise the contact rules and the fire rule above, and the next level is requested exactly when the player touches a GOAL |
| SystemUpdates.ValidatedNeverFails | SFML/source/core/Game.cpp:26-51 | none of the game's six systems throws on an entity it validates |
| SystemUpdates.UpdateLocal | SFML/source/core/Game.cpp:59-61 | for TTL, Movement, Collider, PrintDebug and Graphics, the call throws exactly when that system's update does, and otherwise has that update's effect on the entity alone |
| SystemUpdates.Dispatch | SFML/source/core/Game.cpp:59-61 | `sys->update(game, e, elapsed)` throws exactly when the system's update does, keeps the game's invariant and its pause and debug flags, and has that update's effect: a TTL step on e's component only, with e deleted at TTL <= 0; the Movement integration; the Collider box; the Input effect InputDone and the Gameplay effect GameplayDone |
| SystemUpdates.Engage | SFML/source/systems/GameplaySystem.cpp:30-85 | the contact rules then the fire loop have the effect GameplayDone states: potion, log and fire rules, nothing else changed |
| SystemUpdates.InputStep | SFML/source/core/Game.cpp:59-61 | the Input system on an entity of the game never throws, keeps the invariant, the flags and every TTL value, and has InputUpdate's effect |
| SystemUpdates.GameplayStep | SFML/source/core/Game.cpp:59-61 | the Gameplay system on an entity of the game never throws, keeps the invariant, the flags and every TTL value, and has GameplayUpdate's effect |
| SystemUpdates.LocalStep | SFML/source/core/Game.cpp:59-61 | TTL, Movement, Collider, PrintDebug and Graphics throw exactly when their update does; only TTL changes a TTL value or the deleted flag and only Movement the position; a Movement step integrates the position and a Collider step spans the collider box from the position over the texture size |
| Frames.Pass | SFML/source/core/Game.cpp:58-62 | one system's pass makes at most one call per listed entity |
| Frames.PassMembership | SFML/source/core/Game.cpp:58-62 | a system's pass calls it on exactly the listed entities it validates |
| Frames.SystemMajorMembership | SFML/source/core/Game.cpp:56-64 | system-major order calls a system on an entity exactly when the entity is listed and the system validates it |
| Frames.EntityVisitsMembership | SFML/source/core/Game.cpp:222-225 | the inner loop of `updateArchetypes` calls exactly the systems that validate the entity, all on that entity |
| Frames.EntityMajorMembership | SFML/source/core/Game.cpp:217-228 | entity-major order over a bucket makes the same calls as system-major order over it |
| Frames.GameSystemsOrder | SFML/source/core/Game.cpp:26-51 | the system-major loops run Input, Movement, Collider, Gameplay, PrintDebug, TTL, one full pass each, in that order |
| Frames.GameplayPassEmpty | SFML/source/systems/GameplaySystem.cpp:12-14 | the Gameplay system's pass makes no call |
| Frames.GameplayNeverRuns | SFML/source/core/Game.cpp:217-239 | no loop of the game, in either order, ever calls the Gameplay system |
| Frames.TwoBucketsTwoCalls | SFML/source/core/Game.cpp:217-228 | an entity held by two buckets is passed twice to each system that validates it |
| Frames.UpdateIfValid | SFML/source/core/Game.cpp:59-61 | the system is called exactly when it validates the entity, and a validated call never throws; the invariant and the pause and debug flags are kept |
| Frames.RunPass | SFML/source/core/Game.cpp:58-62 | the calls made are Pass of the system over the list |
| Frames.RunSystems | SFML/source/core/Game.cpp:57-63 | the calls made are SystemMajor of the game's systems over the list, and the game's objects stay the same |
| Frames.BigArray | SFML/source/core/Game.cpp:56-64 | `bigArray` makes the calls of SystemMajor over the entity list, ticks each TTL component once per listed holder, and keeps the invariant, the pause and debug flags and the attached observers |
| Frames.UpdatePackedArray | SFML/source/core/Game.cpp:231-239 | `updatePackedArray` makes the calls of SystemMajor over the packed store's dense list |
| Frames.RunEntity | SFML/source/core/Game.cpp:222-225 | the calls made for one entity are EntityVisits of the game's systems |
| Frames.RunBucket | SFML/source/core/Game.cpp:220-226 | the calls made for one bucket are EntityMajor over its entities |
| Frames.UpdateArchetypes | SFML/source/core/Game.cpp:217-228 | `updateArchetypes` makes the calls of ArchetypeVisits, bucket by bucket, entity-major inside each |
| Frames.Holders | SFML/source/core/Game.cpp:56-64 | a TTL component has at most as many holders as the list has entities |
| Frames.TtlTicks | SFML/source/systems/TTLSystem.cpp:10-21 | a run ticks a component at most once per call |
| Frames.TtlTicksAppend | SFML/source/core/Game.cpp:56-64 | the ticks of two runs, one after another, add up |
| Frames.PassTicks | SFML/source/core/Game.cpp:58-62 | a game system's pass ticks a component once per holder when it is the TTL system, and never otherwise |
| Frames.SystemMajorTicks | SFML/source/core/Game.cpp:56-64 | one big-array pass ticks each TTL component once per listed holder |
| Frames.EntityMajorTicks | SFML/source/core/Game.cpp:219-227 | entity-major order over a list ticks each component once per holder, as system-major order does |
| Frames.ArchetypeTicks | SFML/source/core/Game.cpp:217-228 | `updateArchetypes` ticks each component once per holder in each bucket |
| Frames.SoleHolder | SFML/source/core/Game.cpp:147-151 | a component held by exactly one listed entity with the TTL bit has one holder |
| Frames.HoldersAppendOthers | SFML/source/core/Game.cpp:151 | appending entities that hold other TTL components adds no holder |
| Frames.SystemStep | SFML/source/core/Game.cpp:57-63 | one turn of the system loop extends the calls made by the next system's pass and keeps the ticks accounted |
| Updates.Survivors | SFML/source/core/Game.cpp:207-211 | erase-remove never lengthens the list |
| Updates.SurvivorsMembership | SFML/source/core/Game.cpp:207-211 | an entity stays listed exactly when it was listed and is not deleted |
| Updates.SurvivorsAppend | SFML/source/core/Game.cpp:207-211 | removal works piecewise, so the survivors keep their relative order |
| Updates.SurvivorsOfLive | SFML/source/core/Game.cpp:207-211 | a list without deleted entities is left as it is |
| Updates.SurvivorsIdempotent | SFML/source/core/Game.cpp:207-211 | a second removal changes nothing |
| Updates.Sweep | SFML/source/core/Game.cpp:207-211 | the list becomes the survivors of the old list, and the game's invariant is kept |
| Updates.PlayerPosition | SFML/source/entities/Mushroom.cpp:23-26 | a Mushroom has a target exactly when the game has a player, and then it is the player's position |
| Updates.UpdateOne | SFML/source/core/Game.cpp:180 | one entity's update keeps the game's invariant; a new Fire without observer is appended to the list only when the entity is a Player; nothing else joins the game and no observer changes |
| Updates.EntityTurn | SFML/source/core/Game.cpp:179-181 | one turn of the loop keeps the loop's invariant, appends the fire spawned, if any, and changes no observer or player |
| Updates.UpdateEntities | SFML/source/core/Game.cpp:179-181 | the loop walks the list as it was when it began; the game's invariant is kept, the Fires spawned are appended in spawn order and are new objects; no observer, no TTL value and not the player change |
| Updates.CollisionPass | SFML/source/core/Game.cpp:192-204 | an entity ends deleted exactly when it was deleted, or it is listed, is not the player, meets the player's box, has a registered kind and that callback consumes it; each health component is topped up by 10, clamped to its maximum, once per consumed Potion whose handler's player holds it; each handler's observer counts one more potion per consumed Potion of its player; each entity's wood rises by 15, clamped to 999, once per Log its own log handler consumed; consumption is judged on the state before the pass |
| Updates.Collisions | SFML/source/core/Game.cpp:194-204 | the same four effects over any list drawn from the world, for the health components and observers the handlers reach |
| Updates.CollisionLoop | SFML/source/core/Game.cpp:194-204 | the loop leaves the deletion flags, health, potion counts and wood as the account of its entities, each handed in list order to its kind's callback and judged on the state before the pass |
| Updates.CollisionStep | SFML/source/core/Game.cpp:195-203 | one iteration changes that account by exactly its entity's credit: nothing unless the entity is not the player, meets the player's box, has a registered kind and is consumed; and no entity's verdict changes |
| Updates.Deliver | SFML/source/core/Game.cpp:198-201 | handing the entity to its callback changes the account by its credit and changes no entity's verdict |
| Updates.Settle | SFML/source/core/Game.cpp:198-201 | the callback's run, against the account: its own credit and nothing else |
| Updates.RunCallback | SFML/source/core/Game.cpp:198-201 | a registered callback deletes its argument exactly when the bound handler consumes it; a consumed Potion adds 10 (clamped) to the handler's player's health and one potion to its observer; a consumed Log adds 15 (clamped to 999) to that player's wood; no other health component, observer count, wood or deletion flag changes |
| Updates.AccountDeletes | SFML/source/core/Game.cpp:194-204 | in the account of a list, an entity is deleted exactly when it was, or it is listed and consumed |
| Updates.AccountHeals | SFML/source/entities/Player.cpp:174-185 | in the account of a list, a health component is topped up once per consumed Potion of a player holding it |
| Updates.AccountCounts | SFML/source/entities/Player.cpp:174-185 | in the account of a list, an observer counts once per consumed Potion of a player reporting to it |
| Updates.AccountGathers | SFML/source/entities/Player.cpp:187-199 | in the account of a list, a player's wood is topped up once per Log its log handler consumed |
| Updates.ToppedUpClosedForm | SFML/source/entities/Player.cpp:174-199 | from a value within [0, max], n clamped top-ups by d give min(v + n·d, max) |
| Updates.Targets | SFML/source/core/Game.cpp:133-135 | every registered callback is bound to a Player the game holds |
| Updates.HandleInput | SFML/source/core/Game.cpp:166-171 | Escape flips the pause flag; then the player's handler queues the commands of the keys held, the velocity is what they steer from (0, 0), and Attack and Shout raise their flags |
| GameUpdate.StorePass | SFML/source/core/Game.cpp:184-189 | the store pass is one of the three ECS loops |
| GameUpdate.FrameStages | SFML/source/core/Game.cpp:173-214 | a paused frame runs three stages and an unpaused one five; the entity updates run exactly when unpaused; collisions and removal close every frame; an unpaused BIG_ARRAY frame runs the big-array pass twice |
| GameUpdate.Advance | SFML/source/core/Game.cpp:176-182 | the unpaused part ticks each TTL component once per holder in the list, keeps the pause flag, the player and the invariant, and adds only the spawned Fires |
| GameUpdate.Spawn | SFML/source/core/Game.cpp:179-181 | the entity updates add only the spawned Fires and their new parts, and change no TTL value and no existing holder count |
| GameUpdate.Store | SFML/source/core/Game.cpp:184-189 | the pass of the game's ECS type runs, ticking each TTL component once per holder in that store, and changes no object the game does not hold |
| GameUpdate.Finish | SFML/source/core/Game.cpp:192-211 | after the collisions and the removal the list holds the survivors of the old list and no deleted entity, and no TTL value changes |
| GameUpdate.Close | SFML/source/core/Game.cpp:184-211 | the store pass, collisions and removal: the store's ticks, then the survivors |
| GameUpdate.PlayFrame | SFML/source/core/Game.cpp:173-214 | an unpaused frame leaves the survivors of the old list followed by the spawned Fires; on BIG_ARRAY every TTL component is ticked twice per holder |
| GameUpdate.Update | SFML/source/core/Game.cpp:173-214 | the stages run are FrameStages; the list is the survivors of the old list and the spawned Fires, none deleted; a paused frame spawns nothing and only the store pass ticks; an unpaused BIG_ARRAY frame ticks twice per holder |
| GameUpdate.TwoPasses | SFML/source/core/Game.cpp:177-189 | two passes with the same holder count tick a component twice that count |
| Levels.TileOf | SFML/source/core/Game.cpp:100-137 | 'w' puts a WALL tile in its cell; '.', 'x', 'p' and '*' put a CORRIDOR tile; every other character puts none |
| Levels.SpawnOf | SFML/source/core/Game.cpp:108-127 | 'x' builds a Log, 'p' a Potion and '*' the Player, and every cell with an entity also gets a floor tile |
| Levels.CellPlan | SFML/source/core/Game.cpp:100-137 | a character makes at most three steps, none exactly when it has no tile; an entity is built before its floor tile is placed; only '*' attaches an observer and callbacks |
| Levels.Performed | SFML/source/core/Game.cpp:70-145 | the steps that run are a prefix of the level's steps none of which throws, and when they stop short the next step is one that throws |
| Levels.PerformedConcat | SFML/source/core/Game.cpp:86-144 | running two step lists in turn runs the second only when the first ran to its end |
| Levels.PerformedPrefix | SFML/source/core/Game.cpp:86-144 | a step list that stops early stops at the same step inside any longer list |
| Levels.LastPlayer | SFML/source/core/Game.cpp:124 | the Player that `init` leaves as the game's player is the last Player added, when there is one |
| Levels.Bound | SFML/source/core/Game.cpp:133-135 | binding a Player makes its potion and log handlers the POTION and LOG callbacks and keeps every other kind's callback |
| Levels.BoundAgain | SFML/source/core/Game.cpp:122-136 | a second '*' cell replaces the first Player's callbacks entirely |
| Levels.MakeItem | SFML/include/core/Game.h:72-80 | `buildEntityAt` makes a new Log or Potion without health component or observer, placed at ItemPlacement of its cell, with sprite scale itemScale and its image's size, or (0, 0) when the image does not load |
| Levels.BuildItem | SFML/source/core/Game.cpp:110-111 | the new item is appended to the entity list and joins the game's entities |
| Levels.MakePlayer | SFML/source/core/Game.cpp:124-126 | a new Player without observer; the sprite-sheet load fails exactly when the sheet file does not open or its lines throw |
| Levels.BuildPlayer | SFML/source/core/Game.cpp:124-127 | the new Player becomes the game's player whether or not its sheet loads, and is appended to the list exactly when it loads |
| Levels.AttachPlayer | SFML/source/core/Game.cpp:130-135 | the player gets a new observer and the callback table becomes Bound of the old one |
| Levels.PlaceTile | SFML/source/core/Game.cpp:103 | the tile step throws exactly when the cell is out of bounds or its image is not on disk; no other cell changes, and on success the cell holds a tile of that type |
| Levels.CellTile | SFML/source/core/Game.cpp:102-107 | '.' and 'w' run their tile step, and the cell shows the tile exactly when it did not throw |
| Levels.CellItem | SFML/source/core/Game.cpp:108-121 | 'x' and 'p' build and append their item, then run the floor tile; the steps run are those of the plan up to a throw; no Player is added |
| Levels.CellPlayer | SFML/source/core/Game.cpp:122-137 | '*' builds the Player, places its floor tile and, when both ran, attaches a new observer and the two callbacks |
| Levels.InitCell | SFML/source/core/Game.cpp:100-138 | one character runs the steps of its `switch` arm up to a throw, changes only its own cell, and on success leaves the last Player added as the game's player with its callbacks bound |
| Levels.InitLine | SFML/source/core/Game.cpp:97-141 | one line runs its characters' steps in order up to the first throw; only its row changes, and on success the row shows the line and the line's last Player holds the POTION and LOG callbacks |
| Levels.ReadLines | SFML/source/core/Game.cpp:86-144 | the lines run in order up to the first throw; the entities added are those the steps that ran built, in order; on success every row shows its line and the level's last Player holds the callbacks |
| Levels.Init | SFML/source/core/Game.cpp:70-145 | no lines throw "No data in level file" and change nothing; otherwise a new board as wide as the first line and as high as the level, then the lines as ReadLines runs them |

## Left out

- Rendering: `Game::render`, `Window`, `initWindow`, `Entity::draw`, `Tile::draw`, sprite positions and texture handles. The Graphics and PrintDebug systems appear only through their masks and their throws on a missing component.
- Audio and the service locator: the `playSound` calls do nothing in the model. They are in `Player::update` (Player.cpp:99, 119), in the potion handler (Player.cpp:182) and in the Gameplay system's potion rule (GameplaySystem.cpp:41).
- Console output is left out: the achievement messages (Observer.h:21, 28), the handlers' messages (Player.cpp:179, 195), the input-mode messages (InputHandler.cpp:73, 77) and `setFPS`. The observer methods instead return whether they unlocked the achievement.
- `game->incrementFireShots()` (Player.cpp:98): `Game.h` declares no such member, so the source does not compile as written at that line. The model spawns and pays for the fire without it. There is no running behaviour to compare, so the model does not treat the line as a defect of the program.
- `loadNextLevel`, `loadLevelByIndex`, `resolveTileCollisionsForPlayer` and `parseLevelLines` are declared without bodies in the source. `GameplayUpdate` returns the `loadNext` request instead of calling `loadNextLevel`.
- Floating point: `float` is modelled as exact `real`, so rounding, the `0.001f` threshold's float value and `sqrt` are not modelled. Mushroom's normalisation of its offset to the player is the free `normalise` parameter; only its near/far branches are stated (`PlayerRules.ChaseNearAndFar`).
- Animation internals: `AnimBase`/`AnimDirectional` frame arithmetic and `operator>>` for an animation line are not part of this model. An animation's time step is the free `advance` parameter, and an Animation line's own fields are kept as read.
- Timing, window events and file reading in `main.cpp` are left out. File contents come in as parameters.
- `Bitmask` is modelled as a set of component kinds: `turnOnBit` inserts, and `contains` is set containment.
- UpdateEntities: the source's range-for over `entities` (Game.cpp:179-181) calls `addEntity` from inside `Player::update` (Player.cpp:97). That `push_back` may reallocate the vector under the loop, which is undefined behaviour. The model walks the list as it was at the start of the loop and appends the spawned Fires after it, so a Fire is not updated in the frame that spawns it.
- UpdateEntities: states what joins the game, namely the spawned Fires and their new parts, and what stays unchanged: the observers, the TTL values and the player. Each entity's own effect is stated per call by `Entities.Entity.Update`, and is not composed over the loop.
- Entities.Entity.PlayerUpdate: the fire is created after the action flags are reset and the bounding box is refreshed, whereas the source creates it before (Player.cpp:93-114). `createFire` reads only the position, the sprite direction and the texture size, and neither of those later steps changes them, so the resulting fire is the same.
- PackedArrays.PackedArray.Remove: requires a non-empty store whose map sends the id to an existing slot. For other inputs the source indexes out of bounds, which is undefined behaviour. Removing an absent id from a non-empty store is modelled; it reads slot 0 through the map's default (`PackedArrays.RemoveAbsentDropsSlotZero`).
- GameUpdate.Update: requires a player. Game.cpp:193 dereferences `player` unguarded, so a frame without a player is undefined behaviour. The same requirement is on `GameUpdate.PlayFrame`, `GameUpdate.Close`, `GameUpdate.Finish` and `Updates.CollisionPass`, which model the stages after that line.
- GameUpdate.Update: states the stage order, the list after the erase-remove, the deleted flags, and the TTL values (exactly, for every paused frame and for an unpaused BIG_ARRAY frame). For unpaused ARCHETYPES and PACKED_ARRAY frames the TTL values are stated only by `Advance` and `Store`, each on its own. Positions and input state are stated per call by `SystemUpdates.Dispatch`. The collision pass's health, wood and potion counts are stated for the whole pass by `Updates.CollisionPass`, per callback by `Updates.RunCallback`. `GameUpdate.Update` carries neither into its own ensures.
- Levels.Init: states the steps run, the entities added, the tiles shown, the last Player and its callbacks. It does not carry through the row loops that this Player's observer is new; `Levels.CellPlayer` states that for each '*' cell.
- A level with no Player cell leaves the game without a player. `init` allows this, and that game cannot run `update` (see above).
