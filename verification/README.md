# RGB game logic in Dafny

RGB is a small Swing puzzle game. The player walks a grid level by level. Three
numbered dials (the red, green and blue buttons) sit on each level. Pressing the
activate key on a dial's cell turns it one step, wrapping to 0 past its maximum.
When all three dials show their targets the level is complete and a question
mark appears. Picking it up shows the level's question, and walking through the
"yes" or "no" door adds one to a colour tally and loads the next level. After
the eighth level the game shows a personality colour from the tally (level 9),
and Enter leads on to a free-drawing level (level 10). Some levels add a twist:

- level 2 swaps walls and paths on the I key;
- level 3 has fake buttons that vanish under the player;
- level 4 is a paint level whose whole canvas floods when the player paints outside the box;
- level 6 erases its inner walls on the first key press;
- levels 4 and 8-10 have a paint palette.

This project models that logic as pure functions over immutable data:

| file | module | models |
|---|---|---|
| `button.dfy` | `ButtonDial` | a dial: its cell, value, maximum, target, flash flag and colour (`Button.java`) |
| `question_mark.dfy` | `QuestionMarker` | the question mark: its cell and its shown and taken flags (`QuestionMark.java`) |
| `grid.dfy` | `LevelGrid` | the cell codes, reading a level file into a grid, and the whole-grid rewrites (wipe, inverse, flood) |
| `level_config.dfy` | `LevelConfig` | the per-level table of start cell, dials, marker and palette; the door tables and the personality colour |
| `game.dfy` | `GameArea` | the game state, level loading and restart, and the key handler as one function per rule, composed by `Step` in the handler's order |
| `game_properties.dfy` | `GameProperties` | the invariant every key press keeps |
| `key_rules.dfy` | `KeyRules` | what one press of each key does: movement, doors and scoring, paint, completion, and the R, N, I and Enter keys |

Level files are a parameter of the model: a map from file name to lines of text.
Level loading requires every level's file to be present and to load with room
around the start cell. This is `MapsLoad`; `MapsWalled` adds the wall ring
around each grid that the shipped maps have. A key press is `Step(state, key, files)`.

Where the program's documented behaviour and its code differ, the model follows the code:

- **Reading a level file** fails only when the file has no lines or a row is shorter than the first.
  - Longer rows are cut to the first row's width.
  - A character that is not a digit is not rejected. It becomes its UTF-16 code minus `'0'`, taken modulo 65536 like Java's `(char)` cast.
- **Completion is never cleared** by a later key press. Only a level load resets it.
- **The result shows on level 9**, the level after the eight scoring levels. Level 9 is a copy of level 8's layout.
- **A new game (N on the result screen)** zeroes the three colour counts but not slot 0. Slot 0 is where level 8's "no" door scores.
- **The wipe, inverse and flood rewrites** touch only rows 2 to height-2 and columns 1 to width-2. Row 1, which holds the doors, is never rewritten.
- **Palette pick-up is not gated by the level's palette flag.** A level without a palette keeps the previous palette's cell, so standing there still picks up paint.

## Model

| member | source | states |
|---|---|---|
| `ButtonDial.NewButton` | Button.java:33-47 | a new dial keeps the given cell, maximum, target and colour, shows 0, is not pressed, and is in range when its maximum is not negative |
| `ButtonDial.Press` | Button.java:122-135 | a press counts only on the dial's own cell: there it sets the flash flag and adds one below the maximum or returns to 0 at or above it; off the cell nothing changes; cell, maximum, target and colour never change and a dial in range stays in range |
| `ButtonDial.PressTimes` | Button.java:122-135 | any number of presses keep the dial's identity and keep it in range |
| `ButtonDial.Unpress` | Button.java:85-88 | clears the flash flag and keeps the value and identity |
| `ButtonDial.DrawButton` | Button.java:143-150 | a pressed dial draws as colour + 1 and is unpressed by drawing; an unpressed one draws as its colour and is unchanged |
| `ButtonDial.PressTimesClimbs` | Button.java:127-131 | below the maximum, n presses on the dial's cell add exactly n |
| `ButtonDial.PressTimesAdd` | Button.java:122-135 | m presses followed by n presses equal m + n presses |
| `ButtonDial.PressCycle` | Button.java:127-133 | maximum + 1 presses bring a dial in range back to the value it started from |
| `ButtonDial.ReachesTarget` | Button.java:105-135 | a target within 0..maximum is shown after at most maximum presses |
| `ButtonDial.TargetOutOfRangeNeverReached` | Button.java:105-135 | a target outside the dial's range is never shown, however many presses |
| `ButtonDial.DrawFlashesOnce` | Button.java:143-150 | drawing twice shows the flash at most once; the second draw shows the plain colour and changes nothing |
| `QuestionMarker.NewMarker` | QuestionMark.java:20-30 | a new marker sits on the given cell, hidden and not taken |
| `QuestionMarker.MakeVisible` | QuestionMark.java:35-38 | shows the marker; cell and taken flag unchanged |
| `QuestionMarker.MakeInvisible` | QuestionMark.java:43-46 | hides the marker; cell and taken flag unchanged |
| `QuestionMarker.Obtain` | QuestionMark.java:81-84 | marks the marker taken; cell and visibility unchanged |
| `QuestionMarker.Unobtain` | QuestionMark.java:89-92 | marks the marker not taken; cell and visibility unchanged |
| `QuestionMarker.SettersIdempotent` | QuestionMark.java:35-92 | each setter applied twice equals it applied once |
| `QuestionMarker.PickUpOrder` | Game.java:807-808 | picking the marker up (hide, then mark taken) leaves a hidden, taken marker in the same cell, and the opposite call order gives the same marker |
| `LevelGrid.CellOf` | Game.java:601 | a character becomes a cell value in 0..65535, a digit its numeric value |
| `LevelGrid.ParseRows` | Game.java:596-603 | the rows load exactly when none is shorter than the width; a loaded grid has one row per line, each of the width, each cell the value of its character; otherwise the error names the first short row |
| `LevelGrid.Parse` | Game.java:577-603 | no lines is the missing-first-line error; a file loads exactly when no row is shorter than the first, into a rectangular grid of the first row's width holding each character's value; otherwise the error names a short row |
| `LevelGrid.ParseRender` | Game.java:596-603 | rendering a non-empty rectangular digit grid and reading it back gives the grid |
| `LevelGrid.RenderParse` | Game.java:596-603 | reading equal-width digit lines and rendering them back gives the lines |
| `LevelGrid.WipeWalls` | Game.java:643-653 | a cell changes exactly when it is an interior wall, and then to empty; no interior wall is left |
| `LevelGrid.Invert` | Game.java:834-846 | interior empties become walls and interior walls empties; every other cell, and every cell outside the interior, is unchanged |
| `LevelGrid.Flood` | Game.java:759-765 | hidden-path cells stay; every other interior cell takes the paint; cells outside the interior are unchanged |
| `LevelGrid.InvertInvolution` | Game.java:834-846 | inverting twice gives back the grid |
| `LevelGrid.WipeIdempotent` | Game.java:643-653 | wiping twice is wiping once |
| `LevelGrid.WipeKeepsWalled` | Game.java:643-653 | the wipe keeps the wall ring |
| `LevelGrid.InvertKeepsWalled` | Game.java:834-846 | the inverse keeps the wall ring |
| `LevelGrid.FloodKeepsWalled` | Game.java:759-765 | the flood keeps the wall ring |
| `LevelGrid.SetCellKeepsWalled` | Game.java:738-747 | writing one cell strictly inside the ring keeps the ring |
| `LevelConfig.ConfigOf` | Game.java:458-555 | each level starts with fresh dials (value 0, unpressed, in range, red/green/blue colours), a hidden untaken marker, a palette exactly on levels 4 and 8-10, red paint only on level 4, and no dial already on target; targets are within range below level 10 and beyond range on level 10 |
| `LevelConfig.DoorChoice` | Game.java:93-100 | the tally slot of a door is one of 0..3, and it is 0 exactly for level 8's "no" door |
| `LevelConfig.PersonalityColour` | Game.java:909-919 | the result is red, green or blue |
| `LevelConfig.PersonalityColourIsLastHighest` | Game.java:912-918 | the result is a colour with the highest count, ties going to blue over green over red |
| `LevelConfig.PersonalityColourExamples` | Game.java:912-918 | a three-way tie gives blue; a strict red lead gives red; a green-blue tie gives blue; a green lead gives green |
| `LevelConfig.TargetsReachable` | Game.java:467-542 | on every level below 10, each dial can be pressed onto its target |
| `GameArea.LevelGridOf` | Game.java:577-603 | a level's grid is the loaded content of its map file, and has room around the start cell |
| `GameArea.NewLevel` | Game.java:458-570 | a level load keeps the level and the tally, leaves the level's fresh state (its grid, start cell, paint, palette flag, dials, marker, no overlays, not complete), takes the palette cell of a palette level and keeps the old one otherwise, and leaves the player strictly inside the grid |
| `GameArea.Restart` | Game.java:619-633 | a new game loads level 1 fresh with the three colour counts at 0 and slot 0 kept; the palette cell and the result colour carry over from the finished game, since level 1 has no palette of its own |
| `GameArea.InitialState` | Game.java:146-269 | the game opens on a fresh level 1 with an empty tally |
| `GameArea.WipePhase` | Game.java:640-653 | on level 6 every key first replaces the grid by its wall-wiped copy (`LevelGrid.WipeWalls`: interior walls become empty, nothing else changes) and changes nothing else; on other levels nothing changes; `GameProperties.WipePhaseInv` keeps the invariant across it |
| `GameArea.DoorPhase` | Game.java:684-710 | keeps the state well formed (the door rules are stated by `KeyRules.LockedDoorWarns` and `KeyRules.OpenDoorScores`) |
| `GameArea.MovePhase` | Game.java:655-712 | keeps the state well formed (movement is stated by `KeyRules.ArrowKeyMoves`) |
| `GameArea.PickPaint` | Game.java:721-736 | on the palette column, the four cells from the palette's top give red, green, blue and no paint; anywhere else the paint is kept |
| `GameArea.PaintCell` | Game.java:738-747 | a colour paints the player's cell; otherwise the cell is emptied on a palette level and the grid left alone elsewhere; no other cell changes |
| `GameArea.FloodPhase` | Game.java:749-766 | on level 4, painting outside columns 6..18 and rows 5..12 floods the grid; otherwise the grid is kept; nothing else changes |
| `GameArea.SpacePhase` | Game.java:714-768 | the activate key presses all three dials at the player's cell and picks paint; only the grid, the dials and the paint change |
| `GameArea.CompletionPhase` | Game.java:791-798 | all dials on target with the marker not taken completes the level and shows the marker; otherwise nothing changes; completion is never undone |
| `GameArea.PickUpPhase` | Game.java:800-812 | on the marker's cell of a complete level with the marker not taken, the marker is taken and hidden and the question shows; otherwise nothing changes |
| `GameArea.InversePhase` | Game.java:829-847 | I on level 2 inverts the grid; any other key or level changes nothing |
| `GameArea.FakeButtonPhase` | Game.java:870-878 | on level 3 a fake button under the player becomes empty; otherwise nothing changes |
| `GameArea.EnterPhase` | Game.java:880-904 | Enter closes the warning and question overlays; on the result screen it loads level 10 fresh with the tally kept |
| `GameArea.ResultPhase` | Game.java:906-919 | on level 9 the result shows, with the personality colour of the tally; nothing else changes |
| `GameArea.PlayPhases` | Game.java:638-812 | the first half of the key handler keeps the state well formed (its effects are stated by the `KeyRules` lemmas) |
| `GameArea.MenuPhases` | Game.java:814-919 | after the second half of the key handler the result shows exactly on level 9, with the tally's personality colour |
| `GameArea.Step` | Game.java:638-922 | after any key the result shows exactly on level 9, with the tally's personality colour |
| `GameArea.Repaint` | Game.java:375-385 | the redraw after a key shows each dial's flash image exactly when it was just pressed, in red, green, blue order, and leaves no dial pressed; only the pressed flags change |
| `GameProperties.NewLevelInv` | Game.java:458-570 | every level load establishes the invariant |
| `GameProperties.InitialInv` | Game.java:146-269 | the opening state satisfies the invariant |
| `GameProperties.WipePhaseInv` | Game.java:643-653 | the level-6 wipe keeps the invariant |
| `GameProperties.DoorPhaseInv` | Game.java:684-710 | the door rules keep the invariant |
| `GameProperties.MovePhaseInv` | Game.java:655-712 | movement keeps the invariant: the player never reaches the edge |
| `GameProperties.SpacePhaseInv` | Game.java:714-768 | the activate key keeps the invariant |
| `GameProperties.CompletionPhaseInv` | Game.java:791-798 | completion keeps the invariant |
| `GameProperties.PickUpPhaseInv` | Game.java:800-812 | marker pick-up keeps the invariant |
| `GameProperties.InversePhaseInv` | Game.java:829-847 | the level-2 inverse keeps the invariant |
| `GameProperties.FakeButtonPhaseInv` | Game.java:870-878 | the level-3 fake-button erase keeps the invariant |
| `GameProperties.StepPreservesInv` | Game.java:638-922 | every key press keeps the invariant; in particular a taken marker is never shown |
| `GameProperties.RepaintInv` | Game.java:375-385 | the redraw keeps the invariant |
| `GameProperties.RepaintFlashesOnce` | Button.java:143-150 | a dial flashes for one redraw only: a second redraw shows the plain colours and changes nothing |
| `KeyRules.ArrowKeyMoves` | Game.java:655-682 | an arrow key that opens no door moves the player one cell exactly when the target cell is not a wall, and not at all when it is; the warning turns on only for a locked door at row 1, column 11 or 13; level and tally unchanged |
| `KeyRules.LockedDoorWarns` | Game.java:686-692 | walking up into a door of an unfinished level, or without the marker, shows the warning and keeps level and tally, with the player in the doorway |
| `KeyRules.OpenDoorScores` | Game.java:693-710 | walking up through a door of a finished level with the marker taken adds one to that door's tally slot and loads the next level fresh: its start cell, dials and marker, its map (with level 3's start-cell fake dial erased, `KeyRules.LoadedGrid`), its paint and palette flag, no warning or question overlay, not complete; the palette cell is the new level's own on a palette level and otherwise the old one (so levels 5-7 keep level 4's) |
| `KeyRules.CompletionOnlyLostOnReload` | Game.java:791-798 | completion is lost exactly on a level load (R, an open door, N or Enter on the result screen), and gained only with all dials on target and the marker not taken |
| `KeyRules.SpaceGrid` | Game.java:738-766 | the activate key paints the player's cell with a colour, empties it on a palette level with no paint, and keeps the grid otherwise; only the level-4 flood reaches other cells |
| `KeyRules.SpaceRules` | Game.java:714-768 | a whole activate key press: dials pressed, paint picked, the player's cell painted or emptied as above (a level-3 fake button aside), the player and level unmoved, other cells unchanged away from levels 4 and 6 |
| `KeyRules.PaintThenErase` | Game.java:738-747 | painting a cell and then standing on it with no paint on a palette level leaves it empty |
| `KeyRules.ReloadKey` | Game.java:814-819 | R reloads the current level: same level and tally, fresh dials and marker, start cell, not complete, and the map, paint and palette flag of the level file, so painting, inverting and wiping are undone |
| `KeyRules.NewGameKey` | Game.java:821-827 | N on the result screen restarts on a fresh level 1 with the colour counts at 0; elsewhere it keeps level and tally; either way the palette cell stays, so level 9's palette cell still gives paint on the new level 1 |
| `KeyRules.EnterKey` | Game.java:880-904 | Enter closes the overlays; on the result screen it loads a fresh level 10 with the tally kept; elsewhere level and tally stay |
| `KeyRules.InverseKeyTwice` | Game.java:829-847 | on level 2, I inverts the grid and a second I restores it |
| `KeyRules.FreeDrawIsFinal` | Game.java:543-555 | level 10 is never left and never completed, whatever the key |

## Left out

- Drawing, images, fonts and audio (`paintComponent`, `drawNumbers`, the sound clips), except the one effect drawing has on the state: drawing a dial ends its flash. `GameArea.Repaint` models that redraw; `GameArea.Step` stops before it, so a dial pressed by the activate key is still marked pressed in `Step`'s result until `Repaint` is applied.
- The hint (H), help (J) and sound (S) keys and their flags, and the intro screen's flag. They only switch overlays and audio. They map to the `Other` key, which still runs the rules that fire on every key.
- The `buttons[]` array. It is filled before the dials exist and is never read.
- File I/O. The files are a map parameter. A missing or unreadable file, which the program reports in a dialog before exiting, is excluded by `MapsLoad`.
- Runtime exceptions the program would throw become preconditions:
  - a move off the array edge (`Playable`);
  - a door score beyond the door tables (`DoorScoringDefined`);
  - a tally index out of range (`|choiceScores| == 4`).
- Characters outside the Basic Multilingual Plane. Java reads them as two UTF-16 units, while a Dafny `char` is one character.
- 32-bit wrap-around of the tally counts. Reaching it would take more than two billion door passes. Dial values cannot overflow: a press adds one only below the dial's maximum and otherwise goes back to 0.
- GameArea.DoorPhase: its own contract states only that the state stays well formed. The door rules are stated by `KeyRules.LockedDoorWarns` and `KeyRules.OpenDoorScores`.
- GameArea.MovePhase: its own contract states only that the state stays well formed. Movement is stated by `KeyRules.ArrowKeyMoves` and the warning by `KeyRules.LockedDoorWarns`.
- GameArea.SpacePhase: its own contract does not state the paint, erase and level-4 flood effect on the grid. `KeyRules.SpaceGrid` states it for every cell.
- GameArea.PlayPhases: its own contract states only that the state stays well formed. Its effects are stated by the `KeyRules` lemmas and `GameProperties.PlayPhasesInv`.
- GameArea.MenuPhases: its own contract states only the result overlay. Its effects are stated by `KeyRules.ReloadKey`, `KeyRules.NewGameKey`, `KeyRules.EnterKey`, `KeyRules.InverseKeyTwice` and `GameProperties.MenuPhasesInv`.
- GameArea.Step: its own contract states only the result overlay. The other effects of a key press are stated by the `KeyRules` lemmas and `GameProperties.StepPreservesInv`.
- The `Game` frame constructor and `main`, which only build the window.
