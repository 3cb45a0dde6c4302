# Level engine of ld32_eraser, in Dafny

This project models the level engine of *ld32_eraser*, a small SDL platform
game. The player crosses sheets of paper. Each sheet is built from a text map,
and the player erases dangers with the mouse before the countdown runs out.
The model covers:

- **Map loading.** `Level::load_map` and `Level::add_rect` read a character
  grid. They fill the ground tiles, set the one player and the one door, fill
  the spike, plant, arachne, ghost, time-bonus and pencil collections, and add
  at most one patrolling monster per row.
- **Collision queries.** The four `check_*_collision` functions are linear
  searches over rectangles, using SDL's strict-overlap test.
- **The erase action.** `Level::erase_under` lays a 32×32 probe under the mouse
  and removes at most one element, in a fixed class order.
- **The logic of a frame.** This is the non-drawing part of `Level::render`: a
  one-second countdown, five animation cadences, and then the danger, door and
  time-bonus checks.
- **Keyboard moves.** `Level::on_event` applies each move, tests it against
  the ground and then undoes or compensates it.
- **The level manager.** `LevelManager` holds the paths, the index of level
  directories, the active level and its index, and the tick of the first
  frame. `display` and `prepare_next_level` form a small state machine over
  that index.
- **Plants.** The Plantivorus constructor derives the collision rectangle that
  the danger and erase checks read.

Modules:

| module | file | contents |
|---|---|---|
| `Geometry` | geometry.dfy | grid cells, rectangles, the SDL overlap test |
| `Collision` | collision.dfy | the first-hit and last-hit searches, as functions and as scanning methods; `vector::erase` |
| `Plantivorus` | plantivorus.dfy | class `Plantivorus` (src/plantivorus.h) |
| `Entities` | entities.dfy | entities as values, the board, entity behaviour given as `Rules` |
| `MapScan` | map_scan.dfy | the map pass as functions, and lemmas relating it to a per-symbol description of the grid |
| `Frame` | frame.dfy | one frame, the erase action and the keyboard, as functions of the level's state, with their lemmas |
| `Levels` | level.dfy | class `Level` (src/level.cpp), every method proved against `MapScan` and `Frame` |
| `Sequencing` | sequencing.dfy | display's state machine on the level index, and the lemmas about runs of calls |
| `Manager` | manager.dfy | class `LevelManager` (src/level_manager.cpp), proved against `Sequencing` |

Entities such as spikes and arachnes are copied into the level's `std::vector`s
by value, so the model keeps them as values (`Entity`, `Monster`). Their own
code (constructors other than Plantivorus, walking, falling, jumping, patrols,
animation switches, rebirth) is not part of this model. A `Rules` value stands
for it: a set of total functions that the level is built with. The level's
vectors are grouped into one `Board` value in the field `board`. Its eight
timer members (`available_time`, `current_time` and the six `next_*` fire
times) are grouped into one `Timers` value in the field `timers`. Each method
reassigns the parts it changes. Reading a file is a lookup in a map from path
to lines; a missing path means that the file cannot be opened. `SDL_GetTicks`
becomes a parameter `now`. Whether the level's textures, music and sounds can
all be created is one parameter, `assetsReady`.

Some behaviours of the code are easy to misread; the model follows the code:

- `check_time_bonus_collision` returns the highest-indexed overlapping bonus,
  not the lowest (src/level.cpp:439-453).
- The countdown fires only when the tick is strictly past its fire time, and it
  is rescheduled one second after the current tick. So frames exactly 1000 ms
  apart take off a second only every other frame (`Frame.ExactPeriodDoesNotFire`).
  Frames more than a second apart take off one second each, unless they pick
  up a time bonus (`Frame.CountdownExpiresOnTime`).
- After the ending, `display` leaves the index at -1, so the next call loads
  the first level again. It does not keep reporting the ending.
- A frame that fails also leaves the index at -1, so the next call loads the
  first level rather than the failed one (`Sequencing.FailureRestartsAtFirstLevel`).
- `unload` clears only the ground, makes the player reborn and clears the
  loaded flag. The other collections keep their elements.

## Model

| member | source | states |
|---|---|---|
| Geometry.IntersectsIffCommonPixel | src/level.cpp:516-524 | two rectangles overlap exactly when some pixel lies inside both (edge contact is no overlap) |
| Collision.LastHit | src/level.cpp:439-453 | the index is -1 exactly when nothing overlaps; otherwise that rectangle overlaps and none after it does |
| Collision.RemoveAt | src/level.cpp:746 | erasing index i leaves one element fewer, the elements before i in place and the later ones shifted down by one |
| Collision.AnyIntersecting | src/level.cpp:422-432 | the early-return scan reports a hit exactly when some rectangle overlaps the probe |
| Collision.LastIntersecting | src/level.cpp:439-453 | the full scan that overwrites the remembered index on every hit returns LastHit |
| Plantivorus.Plantivorus.constructor | src/plantivorus.h:33-48 | the cell is (pX, pY); the sprite rectangle is 96×64 at the sheet origin; the collision rectangle is at (pX·64, pY·64) and has the sprite's size |
| Plantivorus.Plantivorus.GetRect | src/plantivorus.h:51 | the collision rectangle sits on the plant's cell, has the sprite frame's size and is never empty |
| Plantivorus.DefaultPlantAtOrigin | src/plantivorus.h:33 | the default arguments give a 96×64 collision rectangle at (0, 0) |
| Entities.StepAll | src/level.cpp:680-687 | the in-place `for (auto &e : v) e.update()` loop applies the update to every element, index for index |
| Entities.DangerIgnoresHarmless | src/level.cpp:461-509 | time bonuses, pencils, the door and the ground never change whether the board is dangerous |
| MapScan.LastColumn | src/level.cpp:231-236 | a marker column is the column of the last such marker in the row, or the default when the row has none |
| MapScan.RowCellsMembership | src/level.cpp:210-269 | a cell is listed for a symbol exactly when the row holds that symbol at that column |
| MapScan.GridCellsMembership | src/level.cpp:208-281 | a cell is listed for a symbol exactly when the grid holds that symbol there |
| MapScan.RowCellsOrdered | src/level.cpp:210-269 | the cells of a row are on that row, in range, in strictly increasing column order |
| MapScan.GridCellsOrdered | src/level.cpp:208-281 | the cells of the grid are in scan order: row by row, left to right |
| MapScan.GridCellsNonEmpty | src/level.cpp:208-281 | some cell is listed for a symbol exactly when the grid holds that symbol |
| MapScan.SpawnedConcat | src/level.cpp:225-267 | spawning over two runs of cells is the concatenation of spawning over each |
| MapScan.GroundRectsConcat | src/level.cpp:165-174 | ground rectangles over two runs of cells are the concatenation of each |
| MapScan.ScanCharMembers | src/level.cpp:225-267 | one character appends exactly one entity to its own collection, for A, S, F, G, T and C, and nothing to any other collection |
| MapScan.ScanRowMembers | src/level.cpp:210-269 | after a row, each collection has gained one entity per cell of its symbol in that row, in column order |
| MapScan.ScanGridMembers | src/level.cpp:208-281 | after the grid, each collection has gained one entity per cell of its symbol, in scan order |
| MapScan.ScanRowGround | src/level.cpp:210-269 | each `*` of a row appends its ground rectangle (c·64, r·64, 64, 16), in column order |
| MapScan.ScanGridGround | src/level.cpp:208-281 | after the grid, the ground has gained one rectangle per `*` cell, in scan order |
| MapScan.ScanRowSole | src/level.cpp:217-223 | after a row the player (door) is the one built at the last `P` (`D`) of the row, and it is marked seen exactly when the row holds one |
| MapScan.ScanGridSole | src/level.cpp:208-281 | the player and the door are those built at the last `P` and `D` of the grid; the last occurrence wins |
| MapScan.ScanCharMarkers | src/level.cpp:231-236 | `[` and `]` set only their own marker to the column, and no character adds a monster |
| MapScan.ScanRowMarkers | src/level.cpp:231-236 | at the end of a row, the markers hold the columns of its last `[` and last `]`, or their values from before the row |
| MapScan.ScanGridMonsters | src/level.cpp:272-281 | the grid gains, row by row, a monster from x1 to x2 on each row whose two marker columns differ (each defaults to 0); the markers are 0 again after every row |
| MapScan.LoneClosingMarker | src/level.cpp:231-281 | a row with a single `]` at column k > 0 and no `[` gives a monster spanning 0..k |
| MapScan.ScanGridAccepts | src/level.cpp:285-301 | the pass has seen a player and a door exactly when the map holds a `P` and a `D` |
| Frame.CountdownStep | src/level.cpp:654-664 | a due countdown drops by exactly one; the level fails, without rescheduling, exactly when that leaves nothing; otherwise it fires again 1000 ms after now and the time left is one less, plus the bonus value when the frame picks up a time bonus |
| Frame.CountdownIdle | src/level.cpp:654 | before its fire time the countdown keeps its schedule, and its value unless a bonus is picked up |
| Frame.CadencesReschedule | src/level.cpp:667-722 | the five cadences fire on strict `>` and wait 80, 180, 210, 1000 and 600 ms from now; when time runs out none is touched |
| Frame.SettleKeepsSchedule | src/level.cpp:724-750 | the end of a frame changes no fire time, only the time left |
| Frame.SameTickFiresOnce | src/level.cpp:652-722 | after a frame no cadence is due again at the same tick, and a second frame at that tick reschedules nothing |
| Frame.CountdownRun | src/level.cpp:654-664 | over a run of countdown steps (frames that pick up no time bonus and meet no danger), each step takes at most one second off the time and never adds any; the run stops before its last step only when the time is up |
| Frame.CountdownExpiresOnTime | src/level.cpp:654-664 | with V seconds left and V countdown steps (frames that pick up no time bonus and meet no danger) each more than a second apart, the first V-1 steps go on and the V-th runs out of time |
| Frame.ExactPeriodDoesNotFire | src/level.cpp:654-663 | a frame exactly 1000 ms after the countdown fired does not fire it again; one more millisecond does |
| Frame.FrameOutcome | src/level.cpp:724-738 | a frame goes on exactly when time is left and the moved player touches nothing dangerous; the door only marks the level finished, and a finished level stays finished |
| Frame.BonusPickup | src/level.cpp:740-750 | a frame that goes on removes exactly the highest-indexed bonus under the player and adds the bonus value; with none under the player nothing changes |
| Frame.EraseFirstClass | src/level.cpp:763-861 | the first class, in the order spikes, plants, arachnes, monsters, time bonuses, with an element under the probe loses exactly its highest-indexed such element, and the result is true |
| Frame.EraseMiss | src/level.cpp:763-861 | nothing is erased exactly when no erasable element is under the probe, and then the board is unchanged |
| Frame.EraseRemovesAtMostOne | src/level.cpp:763-861 | at most one element goes; ground, player, door, ghosts and pencils never change |
| Frame.SidestepStaysClear | src/level.cpp:876-889 | when opposite horizontal moves cancel, a sideways press leaves a player clear of the ground either moved and clear, or back where it was |
| Frame.BlockedJumpNetOneUp | src/level.cpp:890-900 | an up press into the ground is followed by a one-step move down, a net one step up rather than a full revert |
| Levels.Level.constructor | src/level_manager.cpp:119 | a new level keeps its map, background and asset paths, has an empty board and the initial timers, and is neither finished nor loaded |
| Levels.Level.AddRect | src/level.cpp:165-174 | appends the ground rectangle of the cell, (pX·64, pY·64, 64, 16) |
| Levels.Level.LoadMap | src/level.cpp:182-302 | a file that cannot be opened changes nothing and fails; otherwise the board is the map pass over its lines, and the result is true exactly when the map holds a `P` and a `D` |
| Levels.Level.PlaceSymbol | src/level.cpp:212-268 | one character of the map changes the board, the flags and the markers exactly as the pass does |
| Levels.Level.Load | src/level.cpp:10-91 | loading succeeds exactly when the map is read and accepted and the other resources can be created, and only then is the level marked loaded |
| Levels.Level.Unload | src/level.cpp:98-157 | clears the ground, makes the player reborn and marks the level not loaded; nothing else on the board, the timers or the finish flag changes (the state is `Unloaded` of the old one) |
| Levels.Level.CheckGroundCollision | src/level.cpp:422-432 | true exactly when the player overlaps some ground rectangle |
| Levels.Level.CheckTimeBonusCollision | src/level.cpp:439-453 | the highest index of a bonus overlapping the player, or -1 |
| Levels.Level.CheckDangerCollision | src/level.cpp:461-509 | true exactly when the player overlaps a spike, a plant, a ghost, an arachne or a monster |
| Levels.Level.CheckDoorCollision | src/level.cpp:516-524 | true exactly when the player overlaps the door |
| Levels.Level.Render | src/level.cpp:652-753 | the new state and the result are those of one frame at tick now |
| Levels.Level.UpdateCadences | src/level.cpp:667-722 | the due cadences update their entities and are rescheduled; the others are left as they were |
| Levels.Level.FallDown | src/level.cpp:667-678 | when due, a jumping player walks on and any other falls onto the ground; fires again 80 ms later |
| Levels.Level.MoveMonsters | src/level.cpp:680-687 | when due, every monster takes a patrol step; fires again 180 ms later |
| Levels.Level.SwitchSpikes | src/level.cpp:689-697 | when due, every spike switches; fires again 210 ms later |
| Levels.Level.SwitchPlants | src/level.cpp:699-707 | when due, every plant switches; fires again 1000 ms later |
| Levels.Level.SwitchArachnes | src/level.cpp:709-722 | when due, every arachne and every ghost switches; fires again 600 ms later |
| Levels.Level.Conclude | src/level.cpp:734-750 | reaching the door marks the level finished; the last bonus under the player is erased and its value added |
| Levels.Level.EraseUnder | src/level.cpp:763-861 | the board and the result are those of the erase action under the probe at the mouse |
| Levels.Level.OnEvent | src/level.cpp:869-911 | arrow keys steer the player against the ground, a mouse press erases under the mouse, other events change nothing |
| Sequencing.DisplayStep | src/level_manager.cpp:58-95 | on success the index is the next one when display advances, else the same; on failure it is -1 |
| Sequencing.DisplayStepInRange | src/level_manager.cpp:58-95 | from an index in range, display reports success exactly when it leaves an index in 0..n-1, and failure leaves -1 |
| Sequencing.Replay | src/level_manager.cpp:58-95 | defines a run of successive display calls in which every level loads, renders and finishes, one outcome per call; its content is stated by `ReplayFrom` and `LevelsInIndexOrder` |
| Sequencing.ReplayFrom | src/level_manager.cpp:103-127 | from index id, when every level loads and finishes, the next calls show id+1, id+2, ... in order and then the ending |
| Sequencing.LevelsInIndexOrder | src/level_manager.cpp:60-80 | from no active level, the levels shown are exactly 0, 1, ..., n-1 in order, and call n+1 is the ending |
| Sequencing.EmptyIndexEndsAtOnce | src/level_manager.cpp:111-116 | with an empty index the first call is the ending |
| Sequencing.FailureRestartsAtFirstLevel | src/level_manager.cpp:87-92 | after a failed call, the next call, if it succeeds, shows level 0 rather than the failed level |
| Sequencing.UnfinishedLevelStays | src/level_manager.cpp:60-71 | an active level that is not finished is shown again at the same index while its frames go on |
| Manager.LevelManager.constructor | src/level_manager.cpp:74-79 | the manager starts with no active level (index -1) and an empty index, in a valid state, with a level object of its own (fresh): the state that display's first-level branch at these lines presumes (the C++ constructor itself is not part of this model) |
| Manager.LevelManager.InitPaths | src/level_manager.cpp:16-22 | data = base + "data/", assets = base + "assets/", index = data + the index file name |
| Manager.LevelManager.LoadIndex | src/level_manager.cpp:31-50 | sets the paths; fails when the index cannot be opened; otherwise appends its lines to the level directories in file order |
| Manager.LevelManager.PrepareNextLevel | src/level_manager.cpp:103-127 | unloads the active level only when there is one; the index grows by exactly one; past the last index is the ending (false); otherwise a new level is built from that index's paths, and the result is whether it loads |
| Manager.LevelManager.SelectLevel | src/level_manager.cpp:60-80 | moves on only when no level is active or the active one is finished; on success the current level is the one to render, and on failure no level is active |
| Manager.LevelManager.Show | src/level_manager.cpp:82-94 | sets the start tick only while it is -1; renders one frame; a failed frame sets the index to -1 and leaves the level in the frame's state after unload (ground cleared, player reborn, not loaded) |
| Manager.LevelManager.Display | src/level_manager.cpp:58-95 | success leaves an index in 0..n-1, failure leaves -1; the index and result follow DisplayStep; the rendered state is RenderFrame of the upcoming level, and after a failed frame it is that state unloaded; the start tick is set at most once; the manager stays valid and the level is the old one or a new one, so calls chain |
| Manager.LevelManager.OnEvent | src/level_manager.cpp:210-216 | an event reaches the level exactly when a level is active, and changes only that level's board: its timers and finish flag stay as they were |

## Left out

- Drawing, textures, fonts, music and sounds. This covers every SDL, SDL_image, SDL_ttf and SDL_mixer call, `init_textures`, `play_bg_music`, `refresh_timer`, `display_no_more_time`, `display_fail`, `display_happy_ending`, `display_stats` and `SDL_Delay`. They are foreign I/O with no logic of their own. Whether all of a level's textures, music and sounds can be created is the single `assetsReady` flag of `Load`.
- src/time_bonus.cpp is not part of this model: it only creates and draws a texture.
- Entity behaviour is given as the `Rules` functions, because its code is not part of this model. This covers the entity constructors other than Plantivorus, walk, fall, jump and is_jumping, move_x and move_y, Monster::move, the animation switches (including `Plantivorus::switch_position`), rebirth, and the sizes of the other entities' rectangles.
- The header constants are parameters of the model: `TIME_BONUS_VALUE` (in `Settings`), `INDEX_FILENAME`, `LEVEL_MAP_FILENAME` and `LEVEL_BG_FILENAME` (in `FileNames`), and the initial countdown, fire times and start time.
- The `LevelManager` constructor is not part of this model. The model's constructor starts with no active level, an empty index and empty paths.
- `current_level = Level(...)` assigns over the existing object. The model builds a new `Level` object instead.
- Files are whole sequences of lines. The details of `getline` (line terminators, a final line without one) are not modelled.
- Integers are unbounded. The 32-bit width of the ticks, the countdown and the coordinates is not modelled, and neither are the `float` column and row counters of `load_map`: they only hold small non-negative integers.
- Levels.Level.Render: the time-up, fail and sound side effects on the way are left out with the drawing. Only the state and the result are stated.
