# MadMine in Dafny

MadMine is a beginner's 3D block sandbox. A *producer*, a plain function written
by the player, returns a list of block descriptions. The *world builder* turns
them into a registry of blocks, and the game lets the player walk among them.
This project models the parts of the game that decide what ends up in the world
and on screen, and proves properties of them.

- **The world builder** (`world_generator.dfy`, module `World`). A producer
  entry is one of four shapes:
  - a tuple of coordinates;
  - a list;
  - a dictionary with optional `position`, `color` and `type`;
  - anything else.

  `Classify` decides what one entry does: place a block, be skipped, or raise.
  `Build` is the pass over the entries, and `Placements` is an independent
  reference for it. The class `WorldGenerator` holds the registry as a
  `seq<Block>`. Its `GenerateWorld` method is the source's classify-and-append
  loop and is proved equal to `Build`. The default producer takes its twenty
  random draws as a parameter.
- **The built-in producers** (`builtin_worlds.dfy`): `flat_world`,
  `pyramid_world` and `checkerboard_world`. **The example producers**
  (`my_first_world.dfy`): the house, the colourful tower, the maze with its
  in-place gap removal, and the three unfinished stubs that return `None`.
  - Each producer is a method with the source's nested loops. It is proved
    equal to a specification function.
  - The lemmas about that function give the exact count per height, the
    colours and types, that every intended cell is present, that there are no
    repeats, and what the builder makes of the list.
- **Player input** (`player_controller.dfy`): speed, moving and running
  derived from the set of held keys. A `Player` class holds position and
  speed, and a `CameraController` holds its mode.
- **The heads-up display** (`game_ui.dfy`):
  - the `GameUI` widget dictionary, keyed by an enumeration of the six widget
    names, with the help flag;
  - the texts it writes. The world-info line is parsed back to prove that
    distinct counts give distinct lines;
  - the `WorldGeneratorUI` menu.
- **The game** (`main.dfy`, module `MadMine`).
  - `Dispatch` is a pure transition function over a `Snapshot`. A snapshot
    holds the registry, the widgets, the two visibility flags and
    `current_world`.
  - The class `MadMineGame` wires the real objects together. Its
    `ReloadWorld` and `Input` are proved to move the objects' state exactly as
    `Reloaded` and `Dispatch` say.
  - `current_world` is an `Option`. The constructor never sets it, so `r`
    pressed before any world was loaded ends in the `MissingCurrentWorld`
    outcome. The source raises `AttributeError` there.

Three behaviours of the code that a reader may not expect:

- A dictionary entry without `"position"` raises (a `KeyError` at
  src/world/world_generator.py:92). It is not skipped.
- The registry is cleared before the producer runs. A producer that raises or
  returns `None` therefore leaves an empty registry, not the previous one, and
  an entry that raises leaves the blocks placed before it.
- `get_movement_info` has no fallback for an unavailable input source. It
  reports what the held keys say.

## Model

| member | source | states |
|---|---|---|
| Entries.EntryPos | src/world/world_generator.py:86-92 | a 3-tuple denotes its own coordinates; a dictionary denotes a position exactly when its `position` is three coordinates; lists, other tuples and other values denote none |
| Entries.NatToString | src/world/world_generator.py:174 | the decimal rendering used in f-strings: at least one digit, only digits, no leading zero |
| Entries.DigitsRoundTrip | src/world/world_generator.py:174 | reading the decimal rendering of n back gives n |
| Entries.NatToStringInjective | src/world/world_generator.py:174 | distinct numbers render to distinct strings, so the layer and level type names are all different |
| Entries.CountAtHeightAppend | src/world/world_generator.py:167-175 | the number of entries at a height is additive over concatenation |
| Grid.SweepLength | src/world/world_generator.py:156-158 | a nested `for x / for z` loop over an m-wide square visits x·m + z cells before iteration (x, z) |
| Grid.SweepVisits | src/world/world_generator.py:156-158 | every cell visited so far has its entry in the list |
| Grid.SweepOrigin | src/world/world_generator.py:156-158 | every entry of the list comes from a visited cell |
| Grid.SweepDistinct | src/world/world_generator.py:156-158 | a mapping that tells cells apart yields a list without repeats |
| World.Classify | src/world/world_generator.py:86-97 | an entry places a block exactly when it denotes a position. The block has that position and the entry's type and colour, else "grass" and green. A non-dictionary without a position is skipped. A dictionary without one raises, with a missing key told apart from a malformed position |
| World.Build | src/world/world_generator.py:85-99 | the pass never yields more blocks than entries, and the only exceptions it raises are the two entry errors |
| World.BuildAppend | src/world/world_generator.py:85-99 | the pass over a + b is the pass over a continued over b, unless a already raised; blocks keep entry order |
| World.BuildFailureFree | src/world/world_generator.py:85-99 | without raising entries the registry is exactly the placing entries' blocks, in entry order (the independent reference `Placements`) |
| World.BuildStopsAtFirstFailure | src/world/world_generator.py:92 | the first raising entry ends the pass; the blocks placed before it remain and nothing after it is looked at |
| World.BuildAfterFailure | src/world/world_generator.py:92 | once the pass has raised, further entries change nothing |
| World.BuildProvenance | src/world/world_generator.py:85-99 | every block in the registry was built from one of this pass's entries |
| World.BuildAllPlace | src/world/world_generator.py:85-99 | when every entry places a block, the registry has one block per entry, block i built from entry i |
| World.BuildTriples | src/world/world_generator.py:86-89 | a list of 3-tuples yields one grass/green block per tuple at its coordinates, in order |
| World.ThreeTuplesScenario | src/world/world_generator.py:86-89 | three plain tuples give three default blocks and no error |
| World.StoneAndGarbageScenario | src/world/world_generator.py:90-97 | a stone dictionary without a colour gets green; a stray value after it is skipped |
| World.MissingPositionScenario | src/world/world_generator.py:92 | a dictionary without a position raises after the valid tuple before it was placed, and the tuple after it is never placed |
| World.DrawEntries | src/world/world_generator.py:130-134 | one (x, y, z) tuple per random draw, in draw order |
| World.GroundLayerShape | src/world/world_generator.py:125-127 | the ground layer covers each cell of the n × n square exactly once, at height 0 |
| World.RandomWorldShape | src/world/world_generator.py:122-136 | the default producer returns n·n + 20 tuples: the full ground square without repeats, then stacked tuples inside the square at heights 1 to 3 |
| World.DefaultWorldBlocks | src/world/world_generator.py:78-99 | the default world builds without error into 276 grass blocks, one per entry |
| World.Generation | src/world/world_generator.py:74-85 | a producer that raises, or returns `None` so that iteration raises, leaves the registry empty with that exception; otherwise the registry is the pass over its entries |
| World.WorldGenerator.constructor | src/world/world_generator.py:58-61 | the registry starts empty and the world size is 16 |
| World.WorldGenerator.ClearWorld | src/world/world_generator.py:104-110 | the registry is empty afterwards, so the block count and `total_blocks` are 0 and no types are present; a second call changes nothing |
| World.WorldGenerator.GenerateWorld | src/world/world_generator.py:63-102 | the registry is replaced by the outcome of the producer's entries (the default producer when none is given), and the result is the new registry or the exception that stopped the pass |
| World.WorldGenerator.SimpleRandomWorld | src/world/world_generator.py:112-136 | the loops return the ground square of the world size followed by one tuple per draw |
| World.WorldGenerator.GetBlockCount | src/world/world_generator.py:138-140 | the count is the registry's length, and 0 exactly when the registry is empty |
| World.WorldGenerator.GetWorldInfo | src/world/world_generator.py:138-148 | reads only: `total_blocks` is the block count and registry length, `world_size` is the size, `block_types` holds exactly the types present |
| BuiltinWorlds.FlatWorld | src/world/world_generator.py:153-159 | the loops return the flat world's specification |
| BuiltinWorlds.FlatWorldShape | src/world/world_generator.py:153-159 | 100 tuples at height 0 inside [0, 10) × [0, 10), every cell present, no repeats |
| BuiltinWorlds.FlatWorldBuilds | src/world/world_generator.py:153-159 | the flat world builds without error into 100 grass blocks on the ground |
| BuiltinWorlds.PyramidWorld | src/world/world_generator.py:162-177 | the three loops return the pyramid's specification |
| BuiltinWorlds.PyramidWorldCounts | src/world/world_generator.py:167-175 | heights 0 to 4 hold 25, 16, 9, 4 and 1 entries and no other height holds any |
| BuiltinWorlds.PyramidWorldLength | src/world/world_generator.py:162-177 | 55 entries in all |
| BuiltinWorlds.PyramidSoFarLayers | src/world/world_generator.py:171-175 | every entry appended lies in a visited layer y, within [y, 5) along x and z, with type `pyramid_layer_y` and that layer's colour |
| BuiltinWorlds.PyramidWorldComplete | src/world/world_generator.py:169-172 | every cell (x + y, y, z + y) of every layer is present |
| BuiltinWorlds.PyramidWorldShape | src/world/world_generator.py:162-177 | the counts, the total, the layer membership and completeness together |
| BuiltinWorlds.PyramidSoFarDistinct | src/world/world_generator.py:167-175 | at every iteration of the three loops the list built so far has no repeats |
| BuiltinWorlds.PyramidWorldDistinct | src/world/world_generator.py:162-177 | the pyramid holds no entry twice |
| BuiltinWorlds.PyramidWorldBuilds | src/world/world_generator.py:162-177 | the pyramid builds without error into 55 blocks carrying the layer types and colours |
| BuiltinWorlds.CheckerboardWorld | src/world/world_generator.py:180-198 | the loops, with their colour branch, return the checkerboard's specification |
| BuiltinWorlds.CheckerboardShape | src/world/world_generator.py:180-198 | 64 "checkerboard" squares at height 0 inside [0, 8) × [0, 8), white exactly on even x + z, every square present, no repeats |
| BuiltinWorlds.CheckerColorsAlternate | src/world/world_generator.py:187-190 | neighbouring squares along either axis differ in colour |
| BuiltinWorlds.CheckerboardWorldBuilds | src/world/world_generator.py:180-198 | the board builds without error into 64 blocks with the square colours |
| MyFirstWorld.MyAwesomeWorld | examples/my_first_world.py:16-49 | the house's four loop groups return the house specification |
| MyFirstWorld.WallsShape | examples/my_first_world.py:33-42 | 16 wall tuples, all at height 1 on the border, every border cell present once |
| MyFirstWorld.FloorAndRoofShape | examples/my_first_world.py:28-47 | floor and roof are 25 tuples each, at heights 0 and 2 inside the 5 × 5 square, without repeats |
| MyFirstWorld.HouseCounts | examples/my_first_world.py:29-47 | 66 tuples: 25 at height 0, 16 at height 1, 25 at height 2, none elsewhere |
| MyFirstWorld.HouseDistinct | examples/my_first_world.py:29-47 | no tuple appears twice |
| MyFirstWorld.HouseWallsOnBorder | examples/my_first_world.py:33-42 | every height-1 tuple is on the border, so the interior is walkable |
| MyFirstWorld.MyAwesomeWorldShape | examples/my_first_world.py:29-47 | the house facts together |
| MyFirstWorld.ColorfulTower | examples/my_first_world.py:52-84 | the three loops return the tower specification |
| MyFirstWorld.ColorfulTowerShape | examples/my_first_world.py:62-82 | level y holds (5 − y div 2)² entries of type `tower_level_y` with that level's colour, every cell present, 108 in all |
| MyFirstWorld.ColorfulTowerLength | examples/my_first_world.py:62-82 | 108 entries |
| MyFirstWorld.TowerSoFarDistinct | examples/my_first_world.py:62-82 | at every iteration of the three loops the list built so far has no repeats |
| MyFirstWorld.ColorfulTowerDistinct | examples/my_first_world.py:52-84 | the tower holds no entry twice |
| MyFirstWorld.TowerColor | examples/my_first_world.py:66-73 | red at 0, orange at 1–2, yellow at 3–4, blue from 5 |
| MyFirstWorld.PickLevelColor | examples/my_first_world.py:66-73 | the if/elif chain picks the level's colour band |
| MyFirstWorld.ColorfulTowerBuilds | examples/my_first_world.py:52-84 | the tower builds without error into 108 blocks with the level types and colours |
| MyFirstWorld.MazeWorld | examples/my_first_world.py:87-118 | the grid loops and the in-place gap removal return the maze specification |
| MyFirstWorld.MazeGridShape | examples/my_first_world.py:99-104 | before gap removal: 192 tuples, a ground and a wall tuple exactly for the cells with an even coordinate, no repeats |
| MyFirstWorld.FirstIndex | examples/my_first_world.py:116 | the first position where a present element occurs |
| MyFirstWorld.RemoveFirst | examples/my_first_world.py:116 | `list.remove`: the first occurrence is cut out and the rest keep their order, so the list is one shorter with one occurrence fewer of the removed value |
| MyFirstWorld.RemoveFirstDistinct | examples/my_first_world.py:116 | on a list without repeats, removal keeps it repeat-free and removes exactly that value |
| MyFirstWorld.RemoveGapsShape | examples/my_first_world.py:114-116 | after k gaps, k entries fewer, no repeats, exactly the first k gaps gone, and the next gap still present |
| MyFirstWorld.MazeWorldShape | examples/my_first_world.py:106-116 | each of the six gaps is present when its turn comes, so the maze has 186 tuples: the grid without the gaps, no repeats |
| MyFirstWorld.RainbowPath | examples/my_first_world.py:123-126 | the stub returns `None`, and generating with it raises and leaves an empty registry |
| MyFirstWorld.Mountain | examples/my_first_world.py:129-132 | as above |
| MyFirstWorld.Spiral | examples/my_first_world.py:135-138 | as above |
| PlayerController.IsMoving | src/game/player_controller.py:88-93 | moving exactly when one of w, s, a, d is held |
| PlayerController.IsRunning | src/game/player_controller.py:95-97 | running exactly when either shift key is held |
| PlayerController.SpeedFor | src/game/player_controller.py:63-66 | the run speed exactly when running, the normal speed exactly when not |
| PlayerController.SpeedMonotone | src/game/player_controller.py:63-66 | holding more keys never lowers the speed nor stops movement |
| PlayerController.MovingAndRunningIndependent | src/game/player_controller.py:88-97 | the two key sets are disjoint: shift keys never affect moving and movement keys never affect running |
| PlayerController.Player.constructor | src/game/player_controller.py:26-52 | the player stands at its start position (`DefaultStart`, (0, 2, 0), when none is given), walks, and has speeds 5 and 8 and jump height 3 |
| PlayerController.Player.Update | src/game/player_controller.py:56-66 | the speed becomes the run speed with a shift key held and the normal speed otherwise; the position is untouched |
| PlayerController.Player.GetPosition | src/game/player_controller.py:71-73 | the position the controller stands at |
| PlayerController.Player.SetPosition | src/game/player_controller.py:75-78 | the next `GetPosition` returns the given position; the speed is unchanged |
| PlayerController.Player.ResetPosition | src/game/player_controller.py:80-82 | the position is the start position again |
| PlayerController.Player.GetMovementInfo | src/game/player_controller.py:99-107 | reports the position, the controller speed, and moving and running as the held keys say |
| PlayerController.UpdateThenReport | src/game/player_controller.py:56-107 | after a frame's update the report says running exactly when it reports the run speed, and the speed is 5 or 8 |
| PlayerController.CameraController.constructor | src/game/player_controller.py:118-120 | the camera starts in "first_person" |
| PlayerController.CameraController.SetFirstPersonMode | src/game/player_controller.py:122-126 | the mode becomes "first_person" |
| PlayerController.CameraController.SetFollowMode | src/game/player_controller.py:128-138 | the mode becomes "follow" whatever the player and distance |
| GameUi.InitialWidgets | src/ui/game_ui.py:31-88 | setup creates the six widgets, and only the help text starts hidden |
| GameUi.HelpToggled | src/ui/game_ui.py:134-137 | the flag flips, the help widget's visibility follows it, and no other widget changes |
| GameUi.HelpToggleTwice | src/ui/game_ui.py:134-137 | two toggles restore the widgets and the flag |
| GameUi.Indicator | src/ui/game_ui.py:104-108 | the running mark exactly when running, the walking mark exactly when moving and not running, nothing otherwise |
| GameUi.PositionLine | src/ui/game_ui.py:102-108 | the line is "Position: (" followed by the coordinates, then ")" and the movement indicator |
| GameUi.GetOrZero | src/ui/game_ui.py:119-120 | a missing key reads as 0 |
| GameUi.DigitPrefix | src/ui/game_ui.py:122 | the longest run of digits at the head of a string |
| GameUi.WorldInfoLine | src/ui/game_ui.py:119-122 | the line starts with "Blocks: ", then the block count's digits, then " \| Size: " |
| GameUi.WorldInfoRoundTrip | src/ui/game_ui.py:122 | the "Blocks: N \| Size: SxS" line parses back to (N, S) |
| GameUi.WorldInfoInjective | src/ui/game_ui.py:122 | distinct block counts or sizes give distinct lines |
| GameUi.GameUI.constructor | src/ui/game_ui.py:25-29 | help hidden, and the widgets are the six initial ones |
| GameUi.GameUI.UpdatePlayerInfo | src/ui/game_ui.py:92-110 | only the position widget's text changes, to the position line with its indicator |
| GameUi.GameUI.UpdateWorldInfo | src/ui/game_ui.py:112-123 | only the world-info text changes, to the line for `total_blocks` and `world_size` with missing keys as 0 |
| GameUi.GameUI.ToggleHelp | src/ui/game_ui.py:134-142 | the state moves as `HelpToggled` says |
| GameUi.GameUI.ShowMessage | src/ui/game_ui.py:144-165 | the widget dictionary and the flag are unchanged |
| GameUi.GameUI.HideWelcomeMessage | src/ui/game_ui.py:167-170 | only the welcome widget's visibility changes, to hidden, and only if it exists |
| GameUi.GameUI.UpdateMainTitle | src/ui/game_ui.py:172-179 | only the info panel's text changes, to the game-controller mark followed by the world name |
| GameUi.GameUI.GetUiInfo | src/ui/game_ui.py:181-187 | six elements, the help flag which agrees with the help widget, and the welcome visibility |
| GameUi.WorldGeneratorUI.constructor | src/ui/game_ui.py:198-216 | the menu is hidden and lists the four world names |
| GameUi.WorldGeneratorUI.ToggleMenu | src/ui/game_ui.py:218-228 | the visibility flips |
| GameUi.WorldGeneratorUI.SelectGenerator | src/ui/game_ui.py:230-246 | a valid index selects its entry; any other index falls back to "Random World" |
| GameUi.SelectionIsListed | src/ui/game_ui.py:209-246 | the selection is always one of the four names, and is "Random World" exactly for index 0 or an out-of-range index |
| MadMine.Producer | main.py:115-126 | the flat producer runs for "flat" and for the fallback, the pyramid producer for "pyramid", the checkerboard producer for "checkerboard" |
| MadMine.Title | main.py:115-126 | "Flat World", "Pyramid World" and "Checkerboard World" for the three names, and "Flat World (Default)" exactly for the fallback |
| MadMine.KindOf | main.py:114-126 | the flat, pyramid and checkerboard producers are chosen exactly by the names "flat", "pyramid" and "checkerboard" |
| MadMine.KindOfNames | main.py:114-126 | "flat", "pyramid" and "checkerboard" pick the flat, pyramid and checkerboard producers; every other name, including "random", the empty string and none, falls back to the flat producer |
| MadMine.RememberedName | main.py:138 | the name remembered is the one given, or "random" when none or empty was given; never empty |
| MadMine.ReloadNeverRaises | main.py:128-129 | every producer `reload_world` can choose builds without error, into 100, 55, 64 or 100 blocks |
| MadMine.ReloadedWidgets | main.py:131-136 | a reload changes the info panel's text to the title and hides the welcome message, and leaves every other widget as it was |
| MadMine.ReloadedWidgetsTwice | main.py:131-136 | applying that change twice is applying it once |
| MadMine.Reloaded | main.py:105-138 | a reload replaces the registry with the chosen producer's blocks, titles and hides the welcome message, keeps the help and menu flags, and remembers the name |
| MadMine.Dispatch | main.py:183-218 | a key keeps the state consistent; it ends in the missing-world outcome exactly for `r` before any load, and requests quitting exactly for escape; neither changes the state |
| MadMine.OtherKeysIgnored | main.py:194-218 | a key outside h, r, 1–4, g and escape changes nothing |
| MadMine.HelpKeyOnly | main.py:195-196 | h is handled, flips the help flag and toggles the help widget, and leaves the registry, the menu flag and the remembered world alone |
| MadMine.MenuKeyOnly | main.py:213-214 | g is handled and flips the menu flag, and nothing else changes |
| MadMine.HelpKeyTwice | main.py:195-196 | pressing h twice restores the state |
| MadMine.MenuKeyTwice | main.py:213-214 | pressing g twice restores the state |
| MadMine.KeyWorld | main.py:203-210 | 1 names "flat", 2 "pyramid", 3 "checkerboard" and 4 "random" |
| MadMine.DispatchLoads | main.py:203-210 | the keys 1–4 reload the world they name |
| MadMine.RandomKeyLoadsFlat | main.py:203-210 | key 4 loads the same blocks as key 1, titled "Flat World (Default)" and remembered as "random" |
| MadMine.DispatchReload | main.py:199-200 | once a world was loaded, r reloads the remembered name |
| MadMine.RememberedChoosesSame | main.py:138 | the remembered name chooses the same producer as the name given |
| MadMine.ReloadIdempotent | main.py:199-200 | reloading the remembered world changes nothing |
| MadMine.ReloadRepeats | main.py:199-210 | after a number key, r leaves the state as it is |
| MadMine.LoadingKeysHideWelcome | main.py:132-136 | every number key hides the welcome message, keeps the help flag and loads without error |
| MadMine.MadMineGame.constructor | main.py:43-91 | the registry starts empty, the widgets are the initial ones, both panels are hidden, no world is remembered, and the camera is first-person |
| MadMine.MadMineGame.RunChosen | main.py:114-126 | runs the producer the name chooses and returns its title |
| MadMine.MadMineGame.LoadChosen | main.py:114-129 | the registry becomes the chosen producer's blocks |
| MadMine.MadMineGame.ShowLoaded | main.py:131-136 | the widgets change as `ReloadedWidgets` says, and the help flag is kept |
| MadMine.MadMineGame.ReloadWorld | main.py:105-138 | the game's state moves exactly as `Reloaded` says |
| MadMine.MadMineGame.Input | main.py:183-218 | the game's state and outcome are exactly `Dispatch`'s |

## Left out

- Engine objects are not modelled. This covers the cube entity of every `Block`, `removeNode`, the `Text` widgets, `Sky`, the light, the window set-up (`setup_environment`), the first-person controller's physics and collision, and `camera.forward`/`position`/`rotation`. A widget is reduced to its text and visibility.
- `get_looking_direction` and `get_camera_info` only read engine camera vectors. The looking direction is a parameter of `GetMovementInfo`, and `get_camera_info` is not modelled.
- `held_keys` is modelled as the set of key names held in the frame.
- The 100 green cubes the game's constructor creates directly with the engine are not in the builder's registry. The model keeps only the registry, which starts empty.
- The per-frame display refresh in `MadMineGame.update` (main.py:148-171) is not modelled. Each frame it passes the player position and the moving and running flags to `update_player_info`, falling back to not moving and not running when the held keys cannot be read. It then passes the world summary to `update_world_info`, and it swallows every exception either step raises. The two display updates themselves are modelled as `GameUI.UpdatePlayerInfo` and `GameUI.UpdateWorldInfo`.
- The FPS counter (`MadMineGame.update` and `GameUI.update_fps`) is left out because it needs wall-clock time and floating point.
- `run`, `main`, `quit_game` and every `print` are left out as engine hooks and console output. Escape is reported as a quit request and nothing more.
- The random draws of `simple_random_world` are a parameter. Their ranges appear only as the requirement of `RandomWorldShape`.
- Positions in producer entries are integers. Player positions and the follow distance are reals, with no engine arithmetic on them.
- `generator_buttons` is never used by the source and is not modelled.
- `show_message`'s temporary `Text` object, its duration and its colour are not modelled. The widget dictionary does not hold that object.
- `world_data` is a dictionary from names to natural numbers. The source accepts any values there.
- GameUi.PositionLine: takes the three coordinates already rendered with one decimal; the `.1f` float formatting is not modelled.
- PlayerController.Player.Update: states the speed only; the motion the engine applies in the same frame is not modelled.
- A dictionary's `type` or `color` value that is a sequence of numbers is a `Coords`, which stands for both a list and a tuple. The source's `list(set(...))` in `get_world_info` (src/world/world_generator.py:147) raises `TypeError` when a type is a list, because lists cannot be hashed. `GetWorldInfo` returns the set of types present and does not model that error.
- The engine's `Vec3` constructor is not modelled. A dictionary `position` that is not three coordinates raises `BadPosition` in the model; what the engine does with it is unknown.
