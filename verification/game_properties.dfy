/**
 * The invariant every key press keeps: the player inside a walled, rectangular
 * grid, the dials and marker of the current level, a consistent marker and
 * a valid paint.
 */
module GameProperties {
  import opened ButtonDial
  import opened QuestionMarker
  import opened LevelGrid
  import opened LevelConfig
  import opened GameArea

  // ---------------------------------------------------------------------------
  // The invariant

  /** The marker shows exactly while the level is complete and the marker not
      yet taken; once taken it is hidden, and only a complete level hands it out. */
  predicate MarkerConsistent(s: GameState) {
    && (s.marker.visible <==> s.levelCompleted && !s.marker.obtained)
    && (s.marker.obtained ==> s.levelCompleted)
  }

  /** The dials, marker cell and palette flag are those of the current level. */
  predicate MatchesLevel(s: GameState)
    requires 1 <= s.level <= LAST_LEVEL
  {
    var cfg := ConfigOf(s.level);
    && SameDial(s.red, cfg.red) && SameDial(s.green, cfg.green) && SameDial(s.blue, cfg.blue)
    && SameCell(s.marker, cfg.marker)
    && s.palette == cfg.palette.Palette?
  }

  predicate PaintValid(paint: int) {
    paint == NO_PAINT || IsColour(paint)
  }

  predicate Inv(s: GameState) {
    && Playable(s)
    && Walled(s.grid)
    && MarkerConsistent(s)
    && InRange(s.red) && InRange(s.green) && InRange(s.blue)
    && PaintValid(s.paint)
    && MatchesLevel(s)
    && (s.level == LAST_LEVEL ==> !s.levelCompleted)
  }

  // ---------------------------------------------------------------------------
  // Each rule keeps the invariant

  lemma NewLevelInv(s: GameState, files: MapData)
    requires 1 <= s.level <= LAST_LEVEL && |s.choiceScores| == 4
    requires MapsLoad(files) && MapsWalled(files)
    ensures Inv(NewLevel(s, files))
  {
    assert Walled(LevelGridOf(files, s.level));
  }

  lemma InitialInv(files: MapData)
    requires MapsLoad(files) && MapsWalled(files)
    ensures Inv(InitialState(files))
  {
    var unset := NewButton(0, 0, 0, 0, 0);
    NewLevelInv(GameState(1, [], 0, 0, NO_PAINT, false, 0, 0, unset, unset, unset,
                          NewMarker(0, 0), false, false, false, false, [0, 0, 0, 0], 0), files);
  }

  /** Swapping in a walled grid of the same shape keeps the invariant. */
  lemma GridRewriteInv(s: GameState, g': Grid)
    requires Inv(s) && SameShape(s.grid, g') && Walled(g')
    ensures Inv(s.(grid := g'))
  {
  }

  lemma WipePhaseInv(s: GameState)
    requires Inv(s)
    ensures Inv(WipePhase(s))
  {
    if s.level == 6 {
      WipeKeepsWalled(s.grid);
      GridRewriteInv(s, WipeWalls(s.grid));
    }
  }

  lemma DoorPhaseInv(s: GameState, files: MapData)
    requires Shaped(s) && Walled(s.grid) && 1 <= s.row < |s.grid| - 1 && 1 <= s.column < |s.grid[s.row]| - 1
    requires MarkerConsistent(s) && InRange(s.red) && InRange(s.green) && InRange(s.blue)
    requires PaintValid(s.paint) && MatchesLevel(s) && (s.level == LAST_LEVEL ==> !s.levelCompleted)
    requires MapsLoad(files) && MapsWalled(files)
    requires s.level <= NO_OF_LEVELS ||
             !(s.row == 1 && (s.column == 11 || s.column == 13) && s.levelCompleted && s.marker.obtained)
    ensures Inv(DoorPhase(s, files))
  {
    if s.row == 1 && (s.column == 11 || s.column == 13) && !(s.levelCompleted && s.marker.obtained) {
    } else if s.levelCompleted && s.marker.obtained && s.row == 1 && (s.column == 11 || s.column == 13) {
      var slot := DoorChoice(s.level, s.column == 11);
      NewLevelInv(s.(choiceScores := s.choiceScores[slot := s.choiceScores[slot] + 1], level := s.level + 1), files);
    }
  }

  lemma MoveSidewaysInv(s: GameState, k: Key, files: MapData)
    requires Inv(s) && MapsLoad(files) && (k == Left || k == Right)
    ensures DoorScoringDefined(s, k)
    ensures Inv(MovePhase(s, k, files))
  {
    var g := s.grid;
    var c := if k == Left then s.column - 1 else s.column + 1;
    if g[s.row][c] != WALL {
      assert c != 0 && c != |g[s.row]| - 1;
      assert MovePhase(s, k, files) == s.(column := c);
    }
  }

  lemma MoveDownInv(s: GameState, files: MapData)
    requires Inv(s) && MapsLoad(files)
    ensures Inv(MovePhase(s, Down, files))
  {
    var g := s.grid;
    assert |g[s.row + 1]| == |g[s.row]| == |g[0]|;
    if g[s.row + 1][s.column] != WALL {
      assert g[0][s.column] == WALL;
      assert g[|g| - 1][s.column] == WALL;
      assert s.row + 1 != |g| - 1;
      assert MovePhase(s, Down, files) == s.(row := s.row + 1);
    }
  }

  lemma MoveUpInv(s: GameState, files: MapData)
    requires Inv(s) && MapsLoad(files) && MapsWalled(files) && DoorScoringDefined(s, Up)
    ensures Inv(MovePhase(s, Up, files))
  {
    var g := s.grid;
    assert |g[s.row - 1]| == |g[s.row]| == |g[0]|;
    if g[s.row - 1][s.column] != WALL {
      assert s.row - 1 != 0;
      assert MovePhase(s, Up, files) == DoorPhase(s.(row := s.row - 1), files);
      DoorPhaseInv(s.(row := s.row - 1), files);
    }
  }

  lemma MovePhaseInv(s: GameState, k: Key, files: MapData)
    requires Inv(s) && MapsLoad(files) && MapsWalled(files) && DoorScoringDefined(s, k)
    ensures Inv(MovePhase(s, k, files))
  {
    if k == Left || k == Right {
      MoveSidewaysInv(s, k, files);
    } else if k == Down {
      MoveDownInv(s, files);
    } else if k == Up {
      MoveUpInv(s, files);
    } else {
      assert MovePhase(s, k, files) == s;
    }
  }

  lemma PickPaintValid(paint: int, row: int, column: int, paletteRow: int, paletteColumn: int)
    requires PaintValid(paint)
    ensures PaintValid(PickPaint(paint, row, column, paletteRow, paletteColumn))
  {
  }

  lemma PressAndPickInv(s: GameState)
    requires Inv(s)
    ensures Inv(s.(red := Press(s.red, s.row, s.column),
                   blue := Press(s.blue, s.row, s.column),
                   green := Press(s.green, s.row, s.column),
                   paint := PickPaint(s.paint, s.row, s.column, s.paletteRow, s.paletteColumn)))
  {
    PickPaintValid(s.paint, s.row, s.column, s.paletteRow, s.paletteColumn);
  }

  lemma PaintCellInv(s: GameState)
    requires Inv(s)
    ensures Inv(PaintCell(s))
  {
    var painted := PaintCell(s);
    if painted.grid != s.grid {
      var v := painted.grid[s.row][s.column];
      SetCellKeepsWalled(s.grid, s.row, s.column, v);
      assert painted.grid == SetCell(s.grid, s.row, s.column, v);
      GridRewriteInv(s, painted.grid);
    }
  }

  lemma FloodPhaseInv(s: GameState)
    requires Inv(s)
    ensures Inv(FloodPhase(s))
  {
    if FloodPhase(s) != s {
      FloodKeepsWalled(s.grid, s.paint);
      GridRewriteInv(s, Flood(s.grid, s.paint));
    }
  }

  lemma SpacePhaseInv(s: GameState)
    requires Inv(s)
    ensures Inv(SpacePhase(s))
  {
    var picked := s.(red := Press(s.red, s.row, s.column),
                     blue := Press(s.blue, s.row, s.column),
                     green := Press(s.green, s.row, s.column),
                     paint := PickPaint(s.paint, s.row, s.column, s.paletteRow, s.paletteColumn));
    PressAndPickInv(s);
    PaintCellInv(picked);
    FloodPhaseInv(PaintCell(picked));
  }

  lemma CompletionPhaseInv(s: GameState)
    requires Inv(s)
    ensures Inv(CompletionPhase(s))
  {
  }

  lemma PickUpPhaseInv(s: GameState)
    requires Inv(s)
    ensures Inv(PickUpPhase(s))
  {
  }

  lemma PlayPhasesInv(s: GameState, k: Key, files: MapData)
    requires Inv(s) && MapsLoad(files) && MapsWalled(files) && DoorScoringDefined(s, k)
    ensures Inv(PlayPhases(s, k, files))
  {
    var s1 := WipePhase(s);
    WipePhaseInv(s);
    MovePhaseInv(s1, k, files);
    var s2 := MovePhase(s1, k, files);
    var s3 := if k == Space then SpacePhase(s2) else s2;
    if k == Space {
      SpacePhaseInv(s2);
    }
    CompletionPhaseInv(s3);
    PickUpPhaseInv(CompletionPhase(s3));
  }

  lemma FakeButtonPhaseInv(s: GameState)
    requires Inv(s)
    ensures Inv(FakeButtonPhase(s))
  {
    if FakeButtonPhase(s) != s {
      SetCellKeepsWalled(s.grid, s.row, s.column, EMPTY);
      GridRewriteInv(s, FakeButtonPhase(s).grid);
    }
  }

  lemma InversePhaseInv(s: GameState, k: Key)
    requires Inv(s)
    ensures Inv(InversePhase(s, k))
  {
    if s.level == 2 && k == Inverse {
      InvertKeepsWalled(s.grid);
      GridRewriteInv(s, Invert(s.grid));
    }
  }

  lemma ReloadInv(s: GameState, k: Key, files: MapData)
    requires Inv(s) && MapsLoad(files) && MapsWalled(files)
    ensures Inv(if k == RestartLevel then NewLevel(s, files) else s)
  {
    if k == RestartLevel {
      NewLevelInv(s, files);
    }
  }

  lemma NewGameInv(s: GameState, k: Key, files: MapData)
    requires Inv(s) && MapsLoad(files) && MapsWalled(files)
    ensures Inv(if k == NewGame && s.resultOn then Restart(s, files) else s)
  {
    if k == NewGame && s.resultOn {
      NewLevelInv(s.(choiceScores := [s.choiceScores[0], 0, 0, 0], level := 1, resultOn := false), files);
    }
  }

  lemma EnterPhaseInv(s: GameState, files: MapData)
    requires Inv(s) && MapsLoad(files) && MapsWalled(files)
    ensures Inv(EnterPhase(s, files))
  {
    var cleared := s.(warningMessage := false, questionScreen := false);
    if s.resultOn {
      NewLevelInv(cleared.(level := cleared.level + 1, resultOn := false), files);
    }
  }

  lemma ResultPhaseInv(s: GameState)
    requires Inv(s)
    ensures Inv(ResultPhase(s))
  {
    var r := ResultPhase(s);
    assert r == s.(resultOn := r.resultOn, colourResult := r.colourResult);
  }

  lemma MenuPhasesInv(s: GameState, k: Key, files: MapData)
    requires Inv(s) && MapsLoad(files) && MapsWalled(files)
    ensures Inv(MenuPhases(s, k, files))
  {
    var s6 := if k == RestartLevel then NewLevel(s, files) else s;
    ReloadInv(s, k, files);
    var s7 := if k == NewGame && s6.resultOn then Restart(s6, files) else s6;
    NewGameInv(s6, k, files);
    var s8 := InversePhase(s7, k);
    InversePhaseInv(s7, k);
    var s9 := FakeButtonPhase(s8);
    FakeButtonPhaseInv(s8);
    var s10 := if k == Enter then EnterPhase(s9, files) else s9;
    if k == Enter {
      EnterPhaseInv(s9, files);
    }
    ResultPhaseInv(s10);
  }

  /** Every key press keeps the invariant; in particular a taken marker is never shown. */
  lemma StepPreservesInv(s: GameState, k: Key, files: MapData)
    requires Inv(s) && MapsLoad(files) && MapsWalled(files) && DoorScoringDefined(s, k)
    ensures Inv(Step(s, k, files))
    ensures Step(s, k, files).marker.obtained ==> !Step(s, k, files).marker.visible
  {
    PlayPhasesInv(s, k, files);
    MenuPhasesInv(PlayPhases(s, k, files), k, files);
  }

  /** The repaint after a key press keeps the invariant. */
  lemma RepaintInv(s: GameState)
    requires Inv(s)
    ensures Inv(Repaint(s).1)
  {
  }

  /** A flash lasts one repaint: a second repaint shows the plain colours and
      changes nothing. */
  lemma RepaintFlashesOnce(s: GameState)
    ensures var t := Repaint(s).1;
            && Repaint(t).0 == [s.red.colour, s.green.colour, s.blue.colour]
            && Repaint(t).1 == t
  {
    DrawFlashesOnce(s.red);
    DrawFlashesOnce(s.green);
    DrawFlashesOnce(s.blue);
  }
}
