/**
 * The game area: the whole game state and the key handler that moves it from
 * one key press to the next. The handler's rules run one after another in a
 * fixed order (the level-6 wipe, movement and doors, the activate key,
 * completion, marker pick-up, reload, new game, the level-2 inverse, the
 * level-3 fake buttons, Enter, the result); each rule is one function below
 * and `Step` composes them.
 */
module GameArea {
  import opened ButtonDial
  import opened QuestionMarker
  import opened LevelGrid
  import opened LevelConfig

  /** The keys the rules react to; every other key (hint, help, sound, ...)
      is `Other` and still runs the rules that fire on any key. */
  datatype Key =
    | Left | Right | Up | Down
    | Space         // activate: press buttons, pick up and apply paint
    | RestartLevel  // R
    | NewGame       // N
    | Inverse       // I
    | Enter
    | Other

  datatype GameState = GameState(
    level: int,
    grid: Grid,
    row: int,
    column: int,
    paint: int,            // the paint the player carries
    palette: bool,         // the level shows a palette, so no paint erases
    paletteRow: int,       // the palette's top cell; kept across levels without one
    paletteColumn: int,
    red: Button,
    green: Button,
    blue: Button,
    marker: Marker,
    levelCompleted: bool,
    warningMessage: bool,  // "finish the level first" overlay
    questionScreen: bool,  // the level's question overlay, shown on pick-up
    resultOn: bool,        // the personality result overlay
    choiceScores: seq<int>,
    colourResult: int)

  /** The level files, by file name, as rows of text. */
  type MapData = map<string, seq<string>>

  // ---------------------------------------------------------------------------
  // Level files

  /** A grid a level can start on: rectangular, with the start cell away from the edge. */
  predicate StartsInside(g: Grid, row: int, column: int) {
    Rectangular(g) && 1 <= row < |g| - 1 && 1 <= column < |g[row]| - 1
  }

  /** The level's file is present, loads, and has room around the start cell. */
  predicate LevelLoads(files: MapData, level: int)
    requires 1 <= level <= LAST_LEVEL
  {
    && MapFiles[level - 1] in files
    && var r := Parse(files[MapFiles[level - 1]]);
       r.Loaded? && StartsInside(r.grid, ConfigOf(level).startRow, ConfigOf(level).startColumn)
  }

  predicate MapsLoad(files: MapData) {
    forall level :: 1 <= level <= LAST_LEVEL ==> LevelLoads(files, level)
  }

  function LevelGridOf(files: MapData, level: int): (g: Grid)
    requires 1 <= level <= LAST_LEVEL && MapsLoad(files)
    ensures StartsInside(g, ConfigOf(level).startRow, ConfigOf(level).startColumn)
    ensures MapFiles[level - 1] in files && Parse(files[MapFiles[level - 1]]) == Loaded(g)
  {
    assert LevelLoads(files, level);
    Parse(files[MapFiles[level - 1]]).grid
  }

  /** Every level's grid has the wall ring (what keeps the player off the edge). */
  predicate MapsWalled(files: MapData)
    requires MapsLoad(files)
  {
    forall level :: 1 <= level <= LAST_LEVEL ==> Walled(LevelGridOf(files, level))
  }

  // ---------------------------------------------------------------------------
  // State predicates

  /** What every rule needs of the state: a known level, a rectangular grid
      holding the player, a four-slot tally, and the result only on its level. */
  predicate Shaped(s: GameState) {
    && 1 <= s.level <= LAST_LEVEL
    && Rectangular(s.grid)
    && InGrid(s.grid, s.row, s.column)
    && |s.choiceScores| == 4
    && (s.resultOn ==> s.level == NO_OF_LEVELS + 1)
  }

  /** The player has a neighbour on every side, so the arrow keys can look there. */
  predicate Playable(s: GameState) {
    Shaped(s) && 1 <= s.row < |s.grid| - 1 && 1 <= s.column < |s.grid[s.row]| - 1
  }

  predicate AllCorrect(s: GameState) {
    IsCorrectValue(s.red) && IsCorrectValue(s.green) && IsCorrectValue(s.blue)
  }

  /** Moving up from here enters a door of a finished level with the marker in hand. */
  predicate OpensDoor(s: GameState, k: Key) {
    && k == Up
    && s.row == 2 && (s.column == 11 || s.column == 13)
    && 1 < |s.grid| && 0 <= s.column < |s.grid[1]|
    && s.grid[1][s.column] != WALL
    && s.levelCompleted && s.marker.obtained
  }

  /** The door tables have entries for the scoring levels only. */
  predicate DoorScoringDefined(s: GameState, k: Key) {
    s.level <= NO_OF_LEVELS || !OpensDoor(s, k)
  }

  /** The state a level (re)load leaves behind, apart from the carried-over fields. */
  predicate FreshLevel(s: GameState, files: MapData)
    requires 1 <= s.level <= LAST_LEVEL && MapsLoad(files)
  {
    var cfg := ConfigOf(s.level);
    && s.grid == LevelGridOf(files, s.level)
    && s.row == cfg.startRow && s.column == cfg.startColumn
    && s.paint == cfg.paint
    && s.palette == cfg.palette.Palette?
    && s.red == cfg.red && s.green == cfg.green && s.blue == cfg.blue
    && s.marker == cfg.marker
    && !s.levelCompleted
    && !s.warningMessage && !s.questionScreen && !s.resultOn
  }

  // ---------------------------------------------------------------------------
  // Loading levels

  /** Loads the current level: start cell, fresh dials and marker, the map,
      the palette; the tally, the level number and the result colour stay,
      and so does the palette cell of a level without a palette. */
  function NewLevel(s: GameState, files: MapData): (s': GameState)
    requires 1 <= s.level <= LAST_LEVEL && MapsLoad(files)
    ensures s'.level == s.level && FreshLevel(s', files)
    ensures s'.choiceScores == s.choiceScores && s'.colourResult == s.colourResult
    ensures ConfigOf(s.level).palette.Palette? ==>
              s'.paletteRow == ConfigOf(s.level).palette.row && s'.paletteColumn == ConfigOf(s.level).palette.column
    ensures !ConfigOf(s.level).palette.Palette? ==>
              s'.paletteRow == s.paletteRow && s'.paletteColumn == s.paletteColumn
    ensures |s.choiceScores| == 4 ==> Playable(s')
  {
    var cfg := ConfigOf(s.level);
    s.(grid := LevelGridOf(files, s.level),
       row := cfg.startRow,
       column := cfg.startColumn,
       paint := cfg.paint,
       palette := cfg.palette.Palette?,
       paletteRow := if cfg.palette.Palette? then cfg.palette.row else s.paletteRow,
       paletteColumn := if cfg.palette.Palette? then cfg.palette.column else s.paletteColumn,
       red := cfg.red,
       green := cfg.green,
       blue := cfg.blue,
       marker := Unobtain(MakeInvisible(cfg.marker)),
       levelCompleted := false,
       warningMessage := false,
       questionScreen := false,
       resultOn := false)
  }

  /** A new game: the three colour counts return to 0 (slot 0 is left as it
      is), the result goes away and level 1 loads. */
  function Restart(s: GameState, files: MapData): (s': GameState)
    requires |s.choiceScores| == 4 && MapsLoad(files)
    ensures s'.level == 1 && FreshLevel(s', files) && Playable(s')
    ensures |s'.choiceScores| == 4 && s'.choiceScores[0] == s.choiceScores[0]
    ensures forall i :: 1 <= i < 4 ==> s'.choiceScores[i] == 0
    ensures s'.paletteRow == s.paletteRow && s'.paletteColumn == s.paletteColumn
    ensures s'.colourResult == s.colourResult
  {
    NewLevel(s.(choiceScores := [s.choiceScores[0], 0, 0, 0], level := 1, resultOn := false), files)
  }

  /** The game as it opens: level 1 with an empty tally. */
  function InitialState(files: MapData): (s: GameState)
    requires MapsLoad(files)
    ensures s.level == 1 && FreshLevel(s, files) && Playable(s)
    ensures s.choiceScores == [0, 0, 0, 0]
    ensures s.paletteRow == 0 && s.paletteColumn == 0
  {
    var unset := NewButton(0, 0, 0, 0, 0);
    NewLevel(GameState(1, [], 0, 0, NO_PAINT, false, 0, 0, unset, unset, unset,
                       NewMarker(0, 0), false, false, false, false, [0, 0, 0, 0], 0), files)
  }

  // ---------------------------------------------------------------------------
  // The rules of one key press, in handler order

  /** Level 6 clears its interior walls on every key. */
  function WipePhase(s: GameState): (s': GameState)
    ensures s.level == 6 ==> s' == s.(grid := WipeWalls(s.grid))
    ensures s.level != 6 ==> s' == s
  {
    if s.level == 6 then s.(grid := WipeWalls(s.grid)) else s
  }

  /** Up has just brought the player to (row, column): a door of an
      unfinished level shows the warning, a door of a finished level scores
      the choice and loads the next level. */
  function DoorPhase(s: GameState, files: MapData): (s': GameState)
    requires Shaped(s) && MapsLoad(files)
    requires s.level <= NO_OF_LEVELS ||
             !(s.row == 1 && (s.column == 11 || s.column == 13) && s.levelCompleted && s.marker.obtained)
    ensures Shaped(s')
  {
    if s.row == 1 && (s.column == 11 || s.column == 13) && !(s.levelCompleted && s.marker.obtained) then
      s.(warningMessage := true)
    else if s.levelCompleted && s.marker.obtained && s.row == 1 && (s.column == 11 || s.column == 13) then
      var slot := DoorChoice(s.level, s.column == 11);
      NewLevel(s.(choiceScores := s.choiceScores[slot := s.choiceScores[slot] + 1],
                  level := s.level + 1), files)
    else
      s
  }

  /** Arrow keys: one cell in the key's direction unless that cell is a wall. */
  function MovePhase(s: GameState, k: Key, files: MapData): (s': GameState)
    requires Playable(s) && MapsLoad(files) && DoorScoringDefined(s, k)
    ensures Shaped(s')
  {
    match k
    case Left => if s.grid[s.row][s.column - 1] != WALL then s.(column := s.column - 1) else s
    case Right => if s.grid[s.row][s.column + 1] != WALL then s.(column := s.column + 1) else s
    case Down => if s.grid[s.row + 1][s.column] != WALL then s.(row := s.row + 1) else s
    case Up => if s.grid[s.row - 1][s.column] != WALL then DoorPhase(s.(row := s.row - 1), files) else s
    case _ => s
  }

  /** The palette's four cells, top to bottom, give these paints. */
  const PaletteColours: seq<int> := [RED_PAINT, GREEN_PAINT, BLUE_PAINT, NO_PAINT]

  /** Standing on a palette cell takes its paint, whether or not the level
      shows the palette; anywhere else the paint stays. */
  function PickPaint(paint: int, row: int, column: int, paletteRow: int, paletteColumn: int): (p: int)
    ensures column == paletteColumn && 0 <= row - paletteRow < 4 ==> p == PaletteColours[row - paletteRow]
    ensures !(column == paletteColumn && 0 <= row - paletteRow < 4) ==> p == paint
  {
    if column == paletteColumn && row == paletteRow then RED_PAINT
    else if column == paletteColumn && row == paletteRow + 1 then GREEN_PAINT
    else if column == paletteColumn && row == paletteRow + 2 then BLUE_PAINT
    else if column == paletteColumn && row == paletteRow + 3 then NO_PAINT
    else paint
  }

  /** A colour paints the player's cell; no paint erases it on a palette level
      and leaves it alone elsewhere. Nothing else changes. */
  function PaintCell(s: GameState): (s': GameState)
    requires InGrid(s.grid, s.row, s.column)
    ensures s' == s.(grid := s'.grid) && SameShape(s.grid, s'.grid)
    ensures IsColour(s.paint) ==> s'.grid[s.row][s.column] == s.paint
    ensures !IsColour(s.paint) && s.palette ==> s'.grid[s.row][s.column] == EMPTY
    ensures !IsColour(s.paint) && !s.palette ==> s'.grid == s.grid
    ensures forall r, c :: InGrid(s.grid, r, c) && (r != s.row || c != s.column) ==> s'.grid[r][c] == s.grid[r][c]
  {
    if IsColour(s.paint) then s.(grid := SetCell(s.grid, s.row, s.column, s.paint))
    else if s.palette then s.(grid := SetCell(s.grid, s.row, s.column, EMPTY))
    else s
  }

  /** Outside the drawn box of level 4 (columns 6..18, rows 5..12). */
  predicate OutsideBox(row: int, column: int) {
    column < 6 || column > 18 || row < 5 || row > 12
  }

  /** Level 4: painting outside the box floods the level, revealing the hidden path. */
  function FloodPhase(s: GameState): (s': GameState)
    ensures s' == s.(grid := s'.grid) && SameShape(s.grid, s'.grid)
    ensures s.level == 4 && s.paint != NO_PAINT && OutsideBox(s.row, s.column) ==> s'.grid == Flood(s.grid, s.paint)
    ensures !(s.level == 4 && s.paint != NO_PAINT && OutsideBox(s.row, s.column)) ==> s'.grid == s.grid
  {
    if s.level == 4 && s.paint != NO_PAINT && OutsideBox(s.row, s.column) then s.(grid := Flood(s.grid, s.paint)) else s
  }

  /** The activate key: press the three dials, pick up paint, paint the cell, flood level 4. */
  function SpacePhase(s: GameState): (s': GameState)
    requires Shaped(s)
    ensures Shaped(s')
    ensures s' == s.(grid := s'.grid, red := s'.red, green := s'.green, blue := s'.blue, paint := s'.paint)
    ensures s'.red == Press(s.red, s.row, s.column)
    ensures s'.green == Press(s.green, s.row, s.column)
    ensures s'.blue == Press(s.blue, s.row, s.column)
    ensures s'.paint == PickPaint(s.paint, s.row, s.column, s.paletteRow, s.paletteColumn)
  {
    var pressed := s.(red := Press(s.red, s.row, s.column),
                      blue := Press(s.blue, s.row, s.column),
                      green := Press(s.green, s.row, s.column));
    var picked := pressed.(paint := PickPaint(s.paint, s.row, s.column, s.paletteRow, s.paletteColumn));
    FloodPhase(PaintCell(picked))
  }

  /** All three dials on target with the marker not yet taken: the level is
      complete and the marker shows. */
  function CompletionPhase(s: GameState): (s': GameState)
    ensures AllCorrect(s) && !s.marker.obtained ==> s'.levelCompleted && s'.marker.visible
    ensures !(AllCorrect(s) && !s.marker.obtained) ==> s' == s
    ensures s' == s.(marker := s'.marker, levelCompleted := s'.levelCompleted)
    ensures SameCell(s.marker, s'.marker) && s'.marker.obtained == s.marker.obtained
    ensures s.levelCompleted ==> s'.levelCompleted
    ensures Shaped(s) ==> Shaped(s')
  {
    if AllCorrect(s) && !s.marker.obtained then
      s.(marker := MakeVisible(s.marker), levelCompleted := true)
    else
      s
  }

  /** On the marker's cell of a complete level, the marker is taken: it
      disappears and the level's question shows. */
  function PickUpPhase(s: GameState): (s': GameState)
    ensures s.column == s.marker.column && s.row == s.marker.row && s.levelCompleted && !s.marker.obtained ==>
              s'.marker.obtained && !s'.marker.visible && s'.questionScreen
    ensures !(s.column == s.marker.column && s.row == s.marker.row && s.levelCompleted && !s.marker.obtained) ==>
              s' == s
    ensures s' == s.(marker := s'.marker, questionScreen := s'.questionScreen)
    ensures SameCell(s.marker, s'.marker)
    ensures Shaped(s) ==> Shaped(s')
  {
    if s.column == s.marker.column && s.row == s.marker.row && s.levelCompleted && !s.marker.obtained then
      s.(marker := Obtain(MakeInvisible(s.marker)), questionScreen := true)
    else
      s
  }

  /** Level 2's inverse key. */
  function InversePhase(s: GameState, k: Key): (s': GameState)
    ensures s.level == 2 && k == Inverse ==> s' == s.(grid := Invert(s.grid))
    ensures !(s.level == 2 && k == Inverse) ==> s' == s
    ensures Shaped(s) ==> Shaped(s')
  {
    if s.level == 2 && k == Inverse then s.(grid := Invert(s.grid)) else s
  }

  /** Level 3: a fake button under the player vanishes. */
  function FakeButtonPhase(s: GameState): (s': GameState)
    requires InGrid(s.grid, s.row, s.column)
    ensures s' == s.(grid := s'.grid) && SameShape(s.grid, s'.grid)
    ensures s.level == 3 && FAKE_RED_BUTTON <= s.grid[s.row][s.column] <= FAKE_BLUE_BUTTON ==>
              s'.grid == SetCell(s.grid, s.row, s.column, EMPTY)
    ensures !(s.level == 3 && FAKE_RED_BUTTON <= s.grid[s.row][s.column] <= FAKE_BLUE_BUTTON) ==> s' == s
    ensures Shaped(s) ==> Shaped(s')
  {
    if s.level == 3 && FAKE_RED_BUTTON <= s.grid[s.row][s.column] <= FAKE_BLUE_BUTTON then
      s.(grid := SetCell(s.grid, s.row, s.column, EMPTY))
    else
      s
  }

  /** Enter closes the warning and question overlays; on the result screen it
      goes on to the free-draw level. */
  function EnterPhase(s: GameState, files: MapData): (s': GameState)
    requires Shaped(s) && MapsLoad(files)
    ensures Shaped(s')
    ensures !s'.warningMessage && !s'.questionScreen && !s'.resultOn
    ensures s.resultOn ==> s'.level == LAST_LEVEL && FreshLevel(s', files) && s'.choiceScores == s.choiceScores
    ensures !s.resultOn ==> s' == s.(warningMessage := false, questionScreen := false)
  {
    var cleared := s.(warningMessage := false, questionScreen := false);
    if cleared.resultOn then NewLevel(cleared.(level := cleared.level + 1, resultOn := false), files)
    else cleared
  }

  /** On the level after the last scoring level the result shows. */
  function ResultPhase(s: GameState): (s': GameState)
    requires |s.choiceScores| == 4
    ensures s.level == NO_OF_LEVELS + 1 ==> s'.resultOn
    ensures s.level == NO_OF_LEVELS + 1 ==>
              s'.colourResult == PersonalityColour(s.choiceScores[RED_CHOICE], s.choiceScores[GREEN_CHOICE],
                                                   s.choiceScores[BLUE_CHOICE])
    ensures s' == s.(resultOn := s'.resultOn, colourResult := s'.colourResult)
    ensures s.level != NO_OF_LEVELS + 1 ==> s' == s
  {
    if s.level == NO_OF_LEVELS + 1 then
      s.(resultOn := true,
         colourResult := PersonalityColour(s.choiceScores[RED_CHOICE], s.choiceScores[GREEN_CHOICE],
                                           s.choiceScores[BLUE_CHOICE]))
    else
      s
  }

  /** The first half of a key press: the level-6 wipe, movement and doors,
      the activate key, completion and marker pick-up. */
  function PlayPhases(s: GameState, k: Key, files: MapData): (s': GameState)
    requires Playable(s) && MapsLoad(files) && DoorScoringDefined(s, k)
    ensures Shaped(s')
  {
    var s1 := WipePhase(s);
    var s2 := MovePhase(s1, k, files);
    var s3 := if k == Space then SpacePhase(s2) else s2;
    PickUpPhase(CompletionPhase(s3))
  }

  /** The second half of a key press: reload, new game, the level-2 inverse,
      the level-3 fake buttons, Enter and the result. */
  function MenuPhases(s: GameState, k: Key, files: MapData): (s': GameState)
    requires Shaped(s) && MapsLoad(files)
    ensures Shaped(s')
    ensures s'.resultOn <==> s'.level == NO_OF_LEVELS + 1
    ensures s'.resultOn ==> s'.colourResult == PersonalityColour(s'.choiceScores[RED_CHOICE],
                                                                  s'.choiceScores[GREEN_CHOICE],
                                                                  s'.choiceScores[BLUE_CHOICE])
  {
    var s6 := if k == RestartLevel then NewLevel(s, files) else s;
    var s7 := if k == NewGame && s6.resultOn then Restart(s6, files) else s6;
    var s8 := InversePhase(s7, k);
    var s9 := FakeButtonPhase(s8);
    var s10 := if k == Enter then EnterPhase(s9, files) else s9;
    ResultPhase(s10)
  }

  /** One key press. */
  function Step(s: GameState, k: Key, files: MapData): (s': GameState)
    requires Playable(s) && MapsLoad(files) && DoorScoringDefined(s, k)
    ensures Shaped(s')
    ensures s'.resultOn <==> s'.level == NO_OF_LEVELS + 1
    ensures s'.resultOn ==> s'.colourResult == PersonalityColour(s'.choiceScores[RED_CHOICE],
                                                                  s'.choiceScores[GREEN_CHOICE],
                                                                  s'.choiceScores[BLUE_CHOICE])
  {
    MenuPhases(PlayPhases(s, k, files), k, files)
  }

  /** The repaint the window does after every key press: each dial is drawn,
      in red, green, blue order, showing its flash image once if it was just
      pressed, which ends the flash. Returns the three dial images. */
  function Repaint(s: GameState): (r: (seq<int>, GameState))
    ensures |r.0| == 3
    ensures r.0[0] == (if s.red.pressed then s.red.colour + 1 else s.red.colour)
    ensures r.0[1] == (if s.green.pressed then s.green.colour + 1 else s.green.colour)
    ensures r.0[2] == (if s.blue.pressed then s.blue.colour + 1 else s.blue.colour)
    ensures !r.1.red.pressed && !r.1.green.pressed && !r.1.blue.pressed
    ensures r.1 == s.(red := r.1.red, green := r.1.green, blue := r.1.blue)
    ensures SameDial(s.red, r.1.red) && r.1.red.currentValue == s.red.currentValue
    ensures SameDial(s.green, r.1.green) && r.1.green.currentValue == s.green.currentValue
    ensures SameDial(s.blue, r.1.blue) && r.1.blue.currentValue == s.blue.currentValue
  {
    var (redImage, red) := DrawButton(s.red);
    var (greenImage, green) := DrawButton(s.green);
    var (blueImage, blue) := DrawButton(s.blue);
    ([redImage, greenImage, blueImage], s.(red := red, green := green, blue := blue))
  }

}
