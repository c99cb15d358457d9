/**
 * What one key press does, key by key: arrow movement and collision, the
 * door gate and the choice score, the activate key's paint rules, how level
 * completion can be gained and lost, and the reload, new-game, inverse and
 * Enter keys.
 */
module KeyRules {
  import opened ButtonDial
  import opened QuestionMarker
  import opened LevelGrid
  import opened LevelConfig
  import opened GameArea
  import opened GameProperties

  predicate IsArrow(k: Key) {
    k == Left || k == Right || k == Up || k == Down
  }

  function RowStep(k: Key): int {
    if k == Up then -1 else if k == Down then 1 else 0
  }

  function ColumnStep(k: Key): int {
    if k == Left then -1 else if k == Right then 1 else 0
  }

  /** A key press reloads the level: R, N or Enter on the result screen, or an open door. */
  predicate Reloads(s: GameState, k: Key) {
    || k == RestartLevel
    || (k == NewGame && s.resultOn)
    || (k == Enter && s.resultOn)
    || OpensDoor(WipePhase(s), k)
  }

  // ---------------------------------------------------------------------------
  // Helpers: what each half of a key press leaves alone

  /** The level-6 wipe changes only the grid and keeps its shape. */
  lemma WipeFrame(s: GameState)
    requires Playable(s)
    ensures Playable(WipePhase(s)) && WipePhase(s) == s.(grid := WipePhase(s).grid)
  {
  }

  /** Completion and pick-up touch only the marker, the completion flag and the question overlay. */
  lemma CompletionAndPickUpFrame(s: GameState)
    ensures var p := PickUpPhase(CompletionPhase(s));
            && p == s.(marker := p.marker, levelCompleted := p.levelCompleted, questionScreen := p.questionScreen)
            && (s.levelCompleted ==> p.levelCompleted)
            && (p.levelCompleted && !s.levelCompleted ==> AllCorrect(s) && !s.marker.obtained)
            && (!s.levelCompleted && !(AllCorrect(s) && !s.marker.obtained) ==> p == s)
  {
  }

  /** Walking up without opening a door: into a door cell shows the warning,
      anywhere else only the row changes. */
  lemma UpWithoutDoor(s: GameState, files: MapData)
    requires Playable(s) && MapsLoad(files) && !OpensDoor(s, Up)
    requires s.grid[s.row - 1][s.column] != WALL
    ensures DoorScoringDefined(s, Up)
    ensures var t := s.(row := s.row - 1);
            MovePhase(s, Up, files) ==
              if t.row == 1 && (t.column == 11 || t.column == 13) then t.(warningMessage := true) else t
  {
    var t := s.(row := s.row - 1);
    assert |s.grid[1]| == |s.grid[s.row]|;
    assert !(t.row == 1 && (t.column == 11 || t.column == 13) && t.levelCompleted && t.marker.obtained);
  }

  /** Left and right move one column unless the target is a wall. */
  lemma MoveSideways(s: GameState, k: Key, files: MapData)
    requires Playable(s) && MapsLoad(files) && (k == Left || k == Right)
    ensures DoorScoringDefined(s, k)
    ensures MovePhase(s, k, files) ==
              if s.grid[s.row][s.column + ColumnStep(k)] != WALL then s.(column := s.column + ColumnStep(k)) else s
  {
  }

  /** Down moves one row unless the target is a wall. */
  lemma MoveDown(s: GameState, files: MapData)
    requires Playable(s) && MapsLoad(files)
    ensures MovePhase(s, Down, files) == if s.grid[s.row + 1][s.column] != WALL then s.(row := s.row + 1) else s
  {
  }

  /** Up without opening a door moves one row unless the target is a wall, and warns in a doorway. */
  lemma MoveUp(s: GameState, files: MapData)
    requires Playable(s) && MapsLoad(files) && !OpensDoor(s, Up)
    ensures DoorScoringDefined(s, Up)
    ensures var t := s.(row := s.row - 1);
            MovePhase(s, Up, files) ==
              if s.grid[s.row - 1][s.column] == WALL then s
              else if t.row == 1 && (t.column == 11 || t.column == 13) then t.(warningMessage := true)
              else t
  {
    if s.grid[s.row - 1][s.column] != WALL {
      UpWithoutDoor(s, files);
    }
  }

  /** Every other key leaves the position alone. */
  lemma MoveOther(s: GameState, k: Key, files: MapData)
    requires Playable(s) && MapsLoad(files) && !IsArrow(k)
    ensures DoorScoringDefined(s, k)
    ensures MovePhase(s, k, files) == s
  {
  }

  /** Movement that opens no door changes only the position and the warning. */
  lemma MoveFrame(s: GameState, k: Key, files: MapData)
    requires Playable(s) && MapsLoad(files) && !OpensDoor(s, k)
    ensures DoorScoringDefined(s, k)
    ensures var m := MovePhase(s, k, files);
            && m == s.(row := m.row, column := m.column, warningMessage := m.warningMessage)
            && (!IsArrow(k) ==> m == s)
  {
    if k == Left || k == Right {
      MoveSideways(s, k, files);
    } else if k == Down {
      MoveDown(s, files);
    } else if k == Up {
      MoveUp(s, files);
    } else {
      MoveOther(s, k, files);
    }
  }

  /** What a move that opens no door does to the position and the warning,
      stated against the target cell. */
  predicate MoveOutcome(s: GameState, k: Key, m: GameState)
    requires Playable(s)
  {
    var r, c := s.row + RowStep(k), s.column + ColumnStep(k);
    && InGrid(s.grid, r, c)
    && (IsArrow(k) && s.grid[r][c] != WALL ==> m.row == r && m.column == c)
    && (IsArrow(k) && s.grid[r][c] == WALL ==> m.row == s.row && m.column == s.column)
    && (m.warningMessage <==>
          s.warningMessage || (k == Up && s.grid[r][c] != WALL && r == 1 && (c == 11 || c == 13)))
  }

  lemma MoveSidewaysOutcome(s: GameState, k: Key, files: MapData)
    requires Playable(s) && MapsLoad(files) && (k == Left || k == Right)
    ensures DoorScoringDefined(s, k)
    ensures MoveOutcome(s, k, MovePhase(s, k, files))
  {
    MoveSideways(s, k, files);
  }

  lemma MoveDownOutcome(s: GameState, files: MapData)
    requires Playable(s) && MapsLoad(files)
    ensures MoveOutcome(s, Down, MovePhase(s, Down, files))
  {
    assert |s.grid[s.row + 1]| == |s.grid[s.row]|;
    MoveDown(s, files);
  }

  lemma MoveUpOutcome(s: GameState, files: MapData)
    requires Playable(s) && MapsLoad(files) && !OpensDoor(s, Up)
    ensures DoorScoringDefined(s, Up)
    ensures MoveOutcome(s, Up, MovePhase(s, Up, files))
  {
    assert |s.grid[s.row - 1]| == |s.grid[s.row]|;
    MoveUp(s, files);
  }

  lemma MoveOtherOutcome(s: GameState, k: Key, files: MapData)
    requires Playable(s) && MapsLoad(files) && !IsArrow(k)
    ensures DoorScoringDefined(s, k)
    ensures MoveOutcome(s, k, MovePhase(s, k, files))
  {
    MoveOther(s, k, files);
  }

  /** Any key that opens no door: an arrow moves one cell exactly when its
      target is not a wall, and the warning comes on only in a doorway. */
  lemma MoveOutcomeHolds(s: GameState, k: Key, files: MapData)
    requires Playable(s) && MapsLoad(files) && !OpensDoor(s, k)
    ensures DoorScoringDefined(s, k)
    ensures MoveOutcome(s, k, MovePhase(s, k, files))
  {
    if k == Left || k == Right {
      MoveSidewaysOutcome(s, k, files);
    } else if k == Down {
      MoveDownOutcome(s, files);
    } else if k == Up {
      MoveUpOutcome(s, files);
    } else {
      MoveOtherOutcome(s, k, files);
    }
  }

  /** The two halves together. */
  lemma NoDoorMove(s: GameState, k: Key, files: MapData)
    requires Playable(s) && MapsLoad(files) && !OpensDoor(s, k)
    ensures DoorScoringDefined(s, k)
    ensures var m := MovePhase(s, k, files);
            var r, c := s.row + RowStep(k), s.column + ColumnStep(k);
            && m == s.(row := m.row, column := m.column, warningMessage := m.warningMessage)
            && (!IsArrow(k) ==> m == s)
            && InGrid(s.grid, r, c)
            && (IsArrow(k) && s.grid[r][c] != WALL ==> m.row == r && m.column == c)
            && (IsArrow(k) && s.grid[r][c] == WALL ==> m.row == s.row && m.column == s.column)
            && (m.warningMessage <==>
                  s.warningMessage || (k == Up && s.grid[r][c] != WALL && r == 1 && (c == 11 || c == 13)))
  {
    MoveFrame(s, k, files);
    MoveOutcomeHolds(s, k, files);
  }

  /** Walking up through an open door scores the door and loads the next level. */
  lemma OpenDoorMove(s: GameState, files: MapData)
    requires Playable(s) && MapsLoad(files) && 1 <= s.level <= NO_OF_LEVELS && OpensDoor(s, Up)
    ensures var slot := DoorChoice(s.level, s.column == 11);
            MovePhase(s, Up, files) ==
              NewLevel(s.(row := 1, choiceScores := s.choiceScores[slot := s.choiceScores[slot] + 1],
                          level := s.level + 1), files)
  {
  }

  /** After movement (and the activate key), only completion and pick-up remain in the first half. */
  lemma PlayAfterMove(s: GameState, k: Key, files: MapData)
    requires Playable(s) && MapsLoad(files) && DoorScoringDefined(s, k)
    ensures Playable(WipePhase(s)) && DoorScoringDefined(WipePhase(s), k)
    ensures var s2 := MovePhase(WipePhase(s), k, files);
            var s3 := if k == Space then SpacePhase(s2) else s2;
            var p := PlayPhases(s, k, files);
            && p == s3.(marker := p.marker, levelCompleted := p.levelCompleted, questionScreen := p.questionScreen)
            && (s3.levelCompleted ==> p.levelCompleted)
            && (p.levelCompleted && !s3.levelCompleted ==> AllCorrect(s3) && !s3.marker.obtained)
            && (!s3.levelCompleted && !(AllCorrect(s3) && !s3.marker.obtained) ==> p == s3)
  {
    WipeFrame(s);
    var s2 := MovePhase(WipePhase(s), k, files);
    var s3 := if k == Space then SpacePhase(s2) else s2;
    CompletionAndPickUpFrame(s3);
  }

  /** For keys other than the arrows and activate, the first half of a key
      press is the wipe, completion and pick-up. */
  lemma NonMovingPlay(s: GameState, k: Key, files: MapData)
    requires Playable(s) && MapsLoad(files) && !IsArrow(k) && k != Space
    ensures PlayPhases(s, k, files) == PickUpPhase(CompletionPhase(WipePhase(s)))
  {
    WipeFrame(s);
    NoDoorMove(WipePhase(s), k, files);
  }

  /** The second half of a key press for a key other than R, N and Enter:
      only the level-2 inverse, the level-3 fake buttons and the result apply. */
  lemma PlainKeyMenu(s: GameState, k: Key, files: MapData)
    requires Shaped(s) && MapsLoad(files)
    requires k != RestartLevel && k != NewGame && k != Enter
    ensures var m := MenuPhases(s, k, files);
            && m == ResultPhase(FakeButtonPhase(InversePhase(s, k)))
            && m.grid == FakeButtonPhase(InversePhase(s, k)).grid
            && m.level == s.level && m.row == s.row && m.column == s.column
            && m.choiceScores == s.choiceScores && m.levelCompleted == s.levelCompleted
            && m.marker == s.marker && m.red == s.red && m.green == s.green && m.blue == s.blue
            && m.paint == s.paint && m.palette == s.palette
            && m.warningMessage == s.warningMessage && m.questionScreen == s.questionScreen
            && SameShape(s.grid, m.grid)
  {
  }

  /** A whole key press for a key other than R, N and Enter: the second half
      changes only the grid (inverse, fake buttons) and the result overlay. */
  lemma StepPlainKey(s: GameState, k: Key, files: MapData)
    requires Playable(s) && MapsLoad(files) && DoorScoringDefined(s, k)
    requires k != RestartLevel && k != NewGame && k != Enter
    ensures var p := PlayPhases(s, k, files);
            var s' := Step(s, k, files);
            && s'.level == p.level && s'.row == p.row && s'.column == p.column
            && s'.choiceScores == p.choiceScores && s'.levelCompleted == p.levelCompleted
            && s'.marker == p.marker && s'.red == p.red && s'.green == p.green && s'.blue == p.blue
            && s'.paint == p.paint && s'.palette == p.palette
            && s'.warningMessage == p.warningMessage && s'.questionScreen == p.questionScreen
            && s'.grid == FakeButtonPhase(InversePhase(p, k)).grid
  {
    PlainKeyMenu(PlayPhases(s, k, files), k, files);
  }

  /** The first half of a key press that opens no door: movement as the move
      rule decides it; level and tally unchanged. */
  lemma ArrowPlay(s: GameState, k: Key, files: MapData)
    requires Playable(s) && MapsLoad(files) && !OpensDoor(WipePhase(s), k)
    ensures DoorScoringDefined(s, k) && Playable(WipePhase(s))
    ensures var p := PlayPhases(s, k, files);
            && MoveOutcome(WipePhase(s), k, p)
            && p.level == s.level && p.choiceScores == s.choiceScores
  {
    WipeFrame(s);
    var s1 := WipePhase(s);
    MoveFrame(s1, k, files);
    MoveOutcomeHolds(s1, k, files);
    PlayAfterMove(s, k, files);
    var m := MovePhase(s1, k, files);
    var s3 := if k == Space then SpacePhase(m) else m;
    var p := PlayPhases(s, k, files);
    assert p.row == m.row && p.column == m.column && p.warningMessage == m.warningMessage;
  }

  // ---------------------------------------------------------------------------
  // Movement and doors

  /** The map a level shows once it is loaded: its file's grid, except that
      on level 3 a fake dial under the start cell is erased at once. */
  predicate LoadedGrid(g: Grid, files: MapData, level: int)
    requires 1 <= level <= LAST_LEVEL && MapsLoad(files)
  {
    var m := LevelGridOf(files, level);
    var cfg := ConfigOf(level);
    if level == 3 && FAKE_RED_BUTTON <= m[cfg.startRow][cfg.startColumn] <= FAKE_BLUE_BUTTON then
      g == SetCell(m, cfg.startRow, cfg.startColumn, EMPTY)
    else
      g == m
  }

  /** The end of a key press that has just loaded a level: the fake-button
      erase and the result screen leave the loaded map, paint and palette. */
  lemma LoadedMenu(n: GameState, files: MapData)
    requires Shaped(n) && MapsLoad(files) && FreshLevel(n, files)
    ensures var m := ResultPhase(FakeButtonPhase(n));
            var cfg := ConfigOf(n.level);
            && LoadedGrid(m.grid, files, n.level)
            && m.paint == cfg.paint && m.palette == cfg.palette.Palette? && !m.questionScreen
            && m.paletteRow == n.paletteRow && m.paletteColumn == n.paletteColumn
  {
  }

  /** An arrow key moves the player exactly one cell when the cell it aims at
      is not a wall (doors, paint and hidden path included), and not at all
      when it is (MoveOutcome, read against the grid after the wipe, which
      keeps the position); the level and the scores do not change. */
  lemma ArrowKeyMoves(s: GameState, k: Key, files: MapData)
    requires Playable(s) && MapsLoad(files) && IsArrow(k) && !OpensDoor(WipePhase(s), k)
    ensures DoorScoringDefined(s, k)
    ensures Playable(WipePhase(s)) && WipePhase(s).row == s.row && WipePhase(s).column == s.column
    ensures MoveOutcome(WipePhase(s), k, Step(s, k, files))
    ensures Step(s, k, files).level == s.level && Step(s, k, files).choiceScores == s.choiceScores
  {
    WipeFrame(s);
    ArrowPlay(s, k, files);
    StepPlainKey(s, k, files);
  }

  /** Walking up into a door of a level that is not finished, or whose marker
      is not taken, shows the warning; the level and the scores stay. */
  lemma LockedDoorWarns(s: GameState, files: MapData)
    requires Playable(s) && MapsLoad(files)
    requires s.row == 2 && (s.column == 11 || s.column == 13)
    requires InGrid(WipePhase(s).grid, 1, s.column) && WipePhase(s).grid[1][s.column] != WALL
    requires !(s.levelCompleted && s.marker.obtained)
    ensures DoorScoringDefined(s, Up)
    ensures var s' := Step(s, Up, files);
            && s'.warningMessage
            && s'.level == s.level && s'.choiceScores == s.choiceScores
            && s'.row == 1 && s'.column == s.column
  {
    WipeFrame(s);
    NoDoorMove(WipePhase(s), Up, files);
    ArrowPlay(s, Up, files);
    StepPlainKey(s, Up, files);
  }

  /** Where an open door leads: the next level's start cell, dials and
      marker, with the door's colour scored. (This and OpenDoorLoads are the
      two halves of OpenDoorScores, split only to keep each proof small.) */
  lemma OpenDoorArrives(s: GameState, files: MapData)
    requires Playable(s) && MapsLoad(files)
    requires 1 <= s.level <= NO_OF_LEVELS && OpensDoor(WipePhase(s), Up)
    ensures var s' := Step(s, Up, files);
            var slot := DoorChoice(s.level, s.column == 11);
            var cfg := ConfigOf(s.level + 1);
            && s'.level == s.level + 1
            && s'.choiceScores == s.choiceScores[slot := s.choiceScores[slot] + 1]
            && s'.row == cfg.startRow && s'.column == cfg.startColumn
            && s'.red == cfg.red && s'.green == cfg.green && s'.blue == cfg.blue
            && s'.marker == cfg.marker && !s'.marker.visible && !s'.marker.obtained
            && !s'.levelCompleted && !s'.warningMessage
  {
    WipeFrame(s);
    OpenDoorMove(WipePhase(s), files);
    var s2 := MovePhase(WipePhase(s), Up, files);
    assert !AllCorrect(s2);
    PlayAfterMove(s, Up, files);
    assert PlayPhases(s, Up, files) == s2;
    PlainKeyMenu(s2, Up, files);
  }

  /** What an open door shows: the next level's map, paint, palette and
      palette cell, and no question overlay. (The second half of
      OpenDoorScores.) */
  lemma OpenDoorLoads(s: GameState, files: MapData)
    requires Playable(s) && MapsLoad(files)
    requires 1 <= s.level <= NO_OF_LEVELS && OpensDoor(WipePhase(s), Up)
    ensures var s' := Step(s, Up, files);
            var cfg := ConfigOf(s.level + 1);
            && LoadedGrid(s'.grid, files, s.level + 1)
            && s'.paint == cfg.paint && s'.palette == cfg.palette.Palette? && !s'.questionScreen
            && (cfg.palette.Palette? ==>
                  s'.paletteRow == cfg.palette.row && s'.paletteColumn == cfg.palette.column)
            && (!cfg.palette.Palette? ==>
                  s'.paletteRow == s.paletteRow && s'.paletteColumn == s.paletteColumn)
  {
    WipeFrame(s);
    OpenDoorMove(WipePhase(s), files);
    var s2 := MovePhase(WipePhase(s), Up, files);
    assert !AllCorrect(s2);
    PlayAfterMove(s, Up, files);
    assert PlayPhases(s, Up, files) == s2;
    PlainKeyMenu(s2, Up, files);
    assert InversePhase(s2, Up) == s2;
    LoadedMenu(s2, files);
  }

  /** Walking up into a door of a finished level with the marker taken adds
      one to the colour of that door and starts the next level afresh: its
      start cell, dials, marker, map, paint and palette, all overlays but the
      result closed. */
  lemma OpenDoorScores(s: GameState, files: MapData)
    requires Playable(s) && MapsLoad(files)
    requires 1 <= s.level <= NO_OF_LEVELS && OpensDoor(WipePhase(s), Up)
    ensures var s' := Step(s, Up, files);
            var slot := DoorChoice(s.level, s.column == 11);
            var cfg := ConfigOf(s.level + 1);
            && s'.level == s.level + 1
            && s'.choiceScores == s.choiceScores[slot := s.choiceScores[slot] + 1]
            && s'.row == cfg.startRow && s'.column == cfg.startColumn
            && s'.red == cfg.red && s'.green == cfg.green && s'.blue == cfg.blue
            && s'.marker == cfg.marker && !s'.marker.visible && !s'.marker.obtained
            && !s'.levelCompleted && !s'.warningMessage
            && LoadedGrid(s'.grid, files, s.level + 1)
            && s'.paint == cfg.paint && s'.palette == cfg.palette.Palette? && !s'.questionScreen
            && (cfg.palette.Palette? ==>
                  s'.paletteRow == cfg.palette.row && s'.paletteColumn == cfg.palette.column)
            && (!cfg.palette.Palette? ==>
                  s'.paletteRow == s.paletteRow && s'.paletteColumn == s.paletteColumn)
  {
    OpenDoorArrives(s, files);
    OpenDoorLoads(s, files);
  }

  // ---------------------------------------------------------------------------
  // Completion

  /** The first half of a key press: an open door resets completion; otherwise
      completion is kept, and gained only with all dials on target and the
      marker not taken. */
  lemma PlayCompletion(s: GameState, k: Key, files: MapData)
    requires Playable(s) && MapsLoad(files) && DoorScoringDefined(s, k)
    ensures var p := PlayPhases(s, k, files);
            && (OpensDoor(WipePhase(s), k) ==> !p.levelCompleted && !p.resultOn)
            && (!OpensDoor(WipePhase(s), k) ==>
                  && p.level == s.level && p.resultOn == s.resultOn
                  && (s.levelCompleted ==> p.levelCompleted)
                  && (p.levelCompleted && !s.levelCompleted ==> AllCorrect(p) && !s.marker.obtained))
  {
    WipeFrame(s);
    var s1 := WipePhase(s);
    PlayAfterMove(s, k, files);
    if OpensDoor(s1, k) {
      OpenDoorMove(s1, files);
      assert !AllCorrect(MovePhase(s1, k, files));
    } else {
      NoDoorMove(s1, k, files);
    }
  }

  /** The second half of a key press: R, and N or Enter on the result screen,
      reset completion; any other key keeps it and the dials. */
  lemma MenuCompletion(s: GameState, k: Key, files: MapData)
    requires Shaped(s) && MapsLoad(files)
    ensures var m := MenuPhases(s, k, files);
            && (k == RestartLevel || (k == NewGame && s.resultOn) || (k == Enter && s.resultOn) ==>
                  !m.levelCompleted)
            && (!(k == RestartLevel || (k == NewGame && s.resultOn) || (k == Enter && s.resultOn)) ==>
                  m.levelCompleted == s.levelCompleted && m.red == s.red && m.green == s.green && m.blue == s.blue)
  {
  }

  /** Completion is lost only when the level is reloaded, and gained only
      when all three dials show their targets with the marker not yet taken. */
  lemma CompletionOnlyLostOnReload(s: GameState, k: Key, files: MapData)
    requires Playable(s) && MapsLoad(files) && DoorScoringDefined(s, k)
    ensures Reloads(s, k) ==> !Step(s, k, files).levelCompleted
    ensures !Reloads(s, k) && s.levelCompleted ==> Step(s, k, files).levelCompleted
    ensures !Reloads(s, k) && !s.levelCompleted && Step(s, k, files).levelCompleted ==>
              AllCorrect(Step(s, k, files)) && !s.marker.obtained
  {
    PlayCompletion(s, k, files);
    MenuCompletion(PlayPhases(s, k, files), k, files);
  }

  // ---------------------------------------------------------------------------
  // The activate key

  /** What the activate key does to the grid: a colour paints the player's
      cell, no paint empties it on a palette level and leaves the grid alone
      elsewhere; only the level-4 flood reaches other cells. */
  lemma SpaceGrid(s: GameState)
    requires Shaped(s)
    ensures var s3 := SpacePhase(s);
            var p := PickPaint(s.paint, s.row, s.column, s.paletteRow, s.paletteColumn);
            && SameShape(s.grid, s3.grid)
            && (IsColour(p) ==> s3.grid[s.row][s.column] == p)
            && (p == NO_PAINT && s.palette ==> s3.grid[s.row][s.column] == EMPTY)
            && (p == NO_PAINT && !s.palette ==> s3.grid == s.grid)
            && (s.level != 4 ==>
                  forall r, c :: InGrid(s.grid, r, c) && (r != s.row || c != s.column) ==> s3.grid[r][c] == s.grid[r][c])
  {
    var picked := s.(red := Press(s.red, s.row, s.column),
                     blue := Press(s.blue, s.row, s.column),
                     green := Press(s.green, s.row, s.column),
                     paint := PickPaint(s.paint, s.row, s.column, s.paletteRow, s.paletteColumn));
    var painted := PaintCell(picked);
    assert SpacePhase(s) == FloodPhase(painted);
    if IsColour(picked.paint) && FloodPhase(painted) != painted {
      assert painted.grid[s.row][s.column] != HIDDEN_PATH;
    }
  }

  /** The first half of an activate key press: the dials and the paint as
      the activate rule leaves them, the grid as it paints it. */
  lemma SpacePlay(s: GameState, files: MapData)
    requires Playable(s) && MapsLoad(files)
    ensures Shaped(WipePhase(s))
    ensures var p := PlayPhases(s, Space, files);
            var s3 := SpacePhase(WipePhase(s));
            && p.level == s.level && p.row == s.row && p.column == s.column
            && p.paint == PickPaint(s.paint, s.row, s.column, s.paletteRow, s.paletteColumn)
            && p.red == Press(s.red, s.row, s.column)
            && p.green == Press(s.green, s.row, s.column)
            && p.blue == Press(s.blue, s.row, s.column)
            && p.grid == s3.grid
  {
    WipeFrame(s);
    NoDoorMove(WipePhase(s), Space, files);
    PlayAfterMove(s, Space, files);
  }

  /** The activate key presses the three dials, takes the paint of a palette
      cell under the player, and paints the player's cell: a colour paints it,
      no paint empties it on a palette level and leaves it alone elsewhere
      (a level-3 fake button aside). Away from levels 4 and 6 no other cell
      changes. */
  lemma SpaceRules(s: GameState, files: MapData)
    requires Playable(s) && MapsLoad(files)
    ensures var s' := Step(s, Space, files);
            var p := PickPaint(s.paint, s.row, s.column, s.paletteRow, s.paletteColumn);
            && s'.level == s.level && s'.row == s.row && s'.column == s.column
            && s'.paint == p
            && s'.red == Press(s.red, s.row, s.column)
            && s'.green == Press(s.green, s.row, s.column)
            && s'.blue == Press(s.blue, s.row, s.column)
            && SameShape(s.grid, s'.grid)
            && (IsColour(p) ==> s'.grid[s.row][s.column] == p)
            && (p == NO_PAINT && s.palette ==> s'.grid[s.row][s.column] == EMPTY)
            && (p == NO_PAINT && !s.palette && s.level != 3 ==>
                  s'.grid[s.row][s.column] == WipePhase(s).grid[s.row][s.column])
            && (s.level != 4 && s.level != 6 ==>
                  forall r, c :: InGrid(s.grid, r, c) && (r != s.row || c != s.column) ==> s'.grid[r][c] == s.grid[r][c])
  {
    var s1 := WipePhase(s);
    SpacePlay(s, files);
    SpaceGrid(s1);
    var p := PlayPhases(s, Space, files);
    StepPlainKey(s, Space, files);
    assert InversePhase(p, Space) == p;
  }


  /** Painting a cell and then standing on it with no paint, on a palette
      level, leaves it empty as if it had never been painted. */
  lemma PaintThenErase(s: GameState, colour: int)
    requires InGrid(s.grid, s.row, s.column) && IsColour(colour) && s.palette
    ensures var painted := PaintCell(s.(paint := colour));
            PaintCell(painted.(paint := NO_PAINT)).grid == SetCell(s.grid, s.row, s.column, EMPTY)
  {
    var painted := PaintCell(s.(paint := colour));
    var erased := PaintCell(painted.(paint := NO_PAINT));
    var want := SetCell(s.grid, s.row, s.column, EMPTY);
    forall r | 0 <= r < |s.grid|
      ensures erased.grid[r] == want[r]
    {
      forall c | 0 <= c < |s.grid[r]|
        ensures erased.grid[r][c] == want[r][c]
      {
      }
    }
  }

  // ---------------------------------------------------------------------------
  // R, N, I and Enter

  /** For keys other than the arrows and activate, the first half of a key
      press keeps the level, the position, the tally and the overlays other
      than the question. */
  lemma NonMovingPlayFrame(s: GameState, k: Key, files: MapData)
    requires Playable(s) && MapsLoad(files) && !IsArrow(k) && k != Space
    ensures var p := PlayPhases(s, k, files);
            && Shaped(p)
            && p == s.(grid := p.grid, marker := p.marker, levelCompleted := p.levelCompleted,
                       questionScreen := p.questionScreen)
  {
    NonMovingPlay(s, k, files);
    WipeFrame(s);
    CompletionAndPickUpFrame(WipePhase(s));
  }

  /** The second half of R: the current level reloads. */
  lemma ReloadMenu(p: GameState, files: MapData)
    requires Shaped(p) && MapsLoad(files)
    ensures var m := MenuPhases(p, RestartLevel, files);
            var cfg := ConfigOf(p.level);
            && m.level == p.level && m.choiceScores == p.choiceScores
            && m.row == cfg.startRow && m.column == cfg.startColumn
            && m.red == cfg.red && m.green == cfg.green && m.blue == cfg.blue
            && m.marker == cfg.marker && !m.levelCompleted && !m.warningMessage
            && LoadedGrid(m.grid, files, p.level)
            && m.paint == cfg.paint && m.palette == cfg.palette.Palette? && !m.questionScreen
  {
    var n := NewLevel(p, files);
    assert MenuPhases(p, RestartLevel, files) == ResultPhase(FakeButtonPhase(n));
    LoadedMenu(n, files);
  }

  /** R reloads the current level: same level and scores, fresh dials and
      marker, the start cell, not complete, and the map and paint reset, so
      whatever was painted, inverted or wiped is undone. */
  lemma ReloadKey(s: GameState, files: MapData)
    requires Playable(s) && MapsLoad(files)
    ensures var s' := Step(s, RestartLevel, files);
            var cfg := ConfigOf(s.level);
            && s'.level == s.level && s'.choiceScores == s.choiceScores
            && s'.row == cfg.startRow && s'.column == cfg.startColumn
            && s'.red == cfg.red && s'.green == cfg.green && s'.blue == cfg.blue
            && s'.marker == cfg.marker && !s'.levelCompleted && !s'.warningMessage
            && LoadedGrid(s'.grid, files, s.level)
            && s'.paint == cfg.paint && s'.palette == cfg.palette.Palette? && !s'.questionScreen
  {
    NonMovingPlayFrame(s, RestartLevel, files);
    ReloadMenu(PlayPhases(s, RestartLevel, files), files);
  }

  /** The second half of N on the result screen: a new game. */
  lemma NewGameOnResult(p: GameState, files: MapData)
    requires Shaped(p) && MapsLoad(files) && p.resultOn
    ensures var m := MenuPhases(p, NewGame, files);
            && m.level == 1 && FreshLevel(m, files)
            && m.choiceScores[0] == p.choiceScores[0]
            && m.choiceScores[RED_CHOICE] == 0
            && m.choiceScores[GREEN_CHOICE] == 0
            && m.choiceScores[BLUE_CHOICE] == 0
            && m.paletteRow == p.paletteRow && m.paletteColumn == p.paletteColumn
  {
    var n := Restart(p, files);
    assert MenuPhases(p, NewGame, files) == n;
  }

  /** The second half of N elsewhere: level and tally stay. */
  lemma NewGameElsewhere(p: GameState, files: MapData)
    requires Shaped(p) && MapsLoad(files) && !p.resultOn
    ensures var m := MenuPhases(p, NewGame, files);
            && m.level == p.level && m.choiceScores == p.choiceScores
            && m.paletteRow == p.paletteRow && m.paletteColumn == p.paletteColumn
  {
    assert MenuPhases(p, NewGame, files) == ResultPhase(FakeButtonPhase(p));
  }

  /** N starts a new game only while the result shows: level 1, colour counts
      back to 0; otherwise the level and scores stay. Either way the palette
      cell stays, so level 1 after a finished game still gives paint where
      level 9's palette stood. */
  lemma NewGameKey(s: GameState, files: MapData)
    requires Playable(s) && MapsLoad(files)
    ensures var s' := Step(s, NewGame, files);
            && (s.resultOn ==>
                  && s'.level == 1 && FreshLevel(s', files)
                  && s'.choiceScores[0] == s.choiceScores[0]
                  && s'.choiceScores[RED_CHOICE] == 0
                  && s'.choiceScores[GREEN_CHOICE] == 0
                  && s'.choiceScores[BLUE_CHOICE] == 0)
            && (!s.resultOn ==> s'.level == s.level && s'.choiceScores == s.choiceScores)
            && s'.paletteRow == s.paletteRow && s'.paletteColumn == s.paletteColumn
  {
    NonMovingPlayFrame(s, NewGame, files);
    var p := PlayPhases(s, NewGame, files);
    if s.resultOn {
      NewGameOnResult(p, files);
    } else {
      NewGameElsewhere(p, files);
    }
  }

  /** The second half of Enter on the result screen: the free-draw level loads. */
  lemma EnterOnResult(p: GameState, files: MapData)
    requires Shaped(p) && MapsLoad(files) && p.resultOn
    ensures var m := MenuPhases(p, Enter, files);
            && !m.warningMessage && !m.questionScreen
            && m.level == LAST_LEVEL && FreshLevel(m, files) && m.choiceScores == p.choiceScores
  {
    assert FakeButtonPhase(p) == p;
    var e := EnterPhase(p, files);
    assert MenuPhases(p, Enter, files) == e;
  }

  /** The second half of Enter elsewhere: the overlays close. */
  lemma EnterElsewhere(p: GameState, files: MapData)
    requires Shaped(p) && MapsLoad(files) && !p.resultOn
    ensures var m := MenuPhases(p, Enter, files);
            && !m.warningMessage && !m.questionScreen
            && m.level == p.level && m.choiceScores == p.choiceScores
  {
    var f := FakeButtonPhase(p);
    assert MenuPhases(p, Enter, files) == ResultPhase(EnterPhase(f, files));
  }

  /** Enter closes the warning and question overlays; on the result screen it
      starts the free-draw level with the scores kept. */
  lemma EnterKey(s: GameState, files: MapData)
    requires Playable(s) && MapsLoad(files)
    ensures var s' := Step(s, Enter, files);
            && !s'.warningMessage && !s'.questionScreen
            && (s.resultOn ==> s'.level == LAST_LEVEL && FreshLevel(s', files) && s'.choiceScores == s.choiceScores)
            && (!s.resultOn ==> s'.level == s.level && s'.choiceScores == s.choiceScores)
  {
    NonMovingPlayFrame(s, Enter, files);
    var p := PlayPhases(s, Enter, files);
    if s.resultOn {
      EnterOnResult(p, files);
    } else {
      EnterElsewhere(p, files);
    }
  }

  /** On level 2 one press of the inverse key inverts the grid and keeps the player in place. */
  lemma InverseStep(s: GameState, files: MapData)
    requires Playable(s) && MapsLoad(files) && s.level == 2
    ensures var s' := Step(s, Inverse, files);
            && Playable(s') && s'.grid == Invert(s.grid) && s'.level == 2
  {
    NonMovingPlayFrame(s, Inverse, files);
    var p := PlayPhases(s, Inverse, files);
    assert p.grid == s.grid;
    PlainKeyMenu(p, Inverse, files);
    assert |Invert(s.grid)[s.row]| == |s.grid[s.row]|;
  }

  /** On level 2 the inverse key swaps walls and empties; pressing it twice
      restores the grid. */
  lemma InverseKeyTwice(s: GameState, files: MapData)
    requires Playable(s) && MapsLoad(files) && s.level == 2
    ensures Playable(Step(s, Inverse, files))
    ensures Step(s, Inverse, files).grid == Invert(s.grid)
    ensures Step(s, Inverse, files).level == 2
    ensures Step(Step(s, Inverse, files), Inverse, files).grid == s.grid
  {
    InverseStep(s, files);
    InverseStep(Step(s, Inverse, files), files);
    InvertInvolution(s.grid);
  }

  /** The free-draw level is never left and never completed: its targets lie
      beyond its dials' range. */
  lemma FreeDrawIsFinal(s: GameState, k: Key, files: MapData)
    requires Inv(s) && MapsLoad(files) && MapsWalled(files) && s.level == LAST_LEVEL
    ensures DoorScoringDefined(s, k)
    ensures Step(s, k, files).level == LAST_LEVEL && !Step(s, k, files).levelCompleted
  {
    assert !OpensDoor(WipePhase(s), k);
    PlayCompletion(s, k, files);
    StepPreservesInv(s, k, files);
  }
}
