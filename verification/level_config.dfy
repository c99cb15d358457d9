/**
 * The fixed per-level data of the game: which map file each level reads, where
 * the player starts, the three dials, the marker cell and the paint palette,
 * plus the tables that turn a door choice into a personality colour.
 */
module LevelConfig {
  import opened ButtonDial
  import opened QuestionMarker
  import opened LevelGrid

  /** Levels that score a door choice; the result shows on level NO_OF_LEVELS + 1. */
  const NO_OF_LEVELS := 8
  /** The last level: free drawing after the result. */
  const LAST_LEVEL := 10

  // Personality colours: indices into the score tally (slot 0 collects "no score").
  const RED_CHOICE := 1
  const BLUE_CHOICE := 2
  const GREEN_CHOICE := 3

  /** Colour scored by the left ("yes") door of each level, indexed by level. */
  const YesChoice: seq<int> := [0, BLUE_CHOICE, RED_CHOICE, BLUE_CHOICE, GREEN_CHOICE,
                                BLUE_CHOICE, RED_CHOICE, BLUE_CHOICE, BLUE_CHOICE]
  /** Colour scored by the right ("no") door of each level, indexed by level. */
  const NoChoice: seq<int> := [0, RED_CHOICE, GREEN_CHOICE, RED_CHOICE, RED_CHOICE,
                               GREEN_CHOICE, GREEN_CHOICE, GREEN_CHOICE, 0]

  /** The map file of each level; level `l` reads entry `l - 1`. */
  const MapFiles: seq<string> := ["default.txt", "maze.txt", "pseudoButtons.txt", "canvas.txt",
                                  "default.txt", "level6.txt", "default.txt", "default.txt",
                                  "default.txt", "default.txt"]

  /** The palette column's top cell, when the level shows a palette. */
  datatype Palette = NoPalette | Palette(row: int, column: int)

  datatype Config = Config(
    startRow: int,
    startColumn: int,
    red: Button,
    green: Button,
    blue: Button,
    marker: Marker,
    palette: Palette,
    paint: int)

  /** The configuration a level starts from. */
  function ConfigOf(level: int): (cfg: Config)
    requires 1 <= level <= LAST_LEVEL
    ensures cfg.red.currentValue == 0 && cfg.green.currentValue == 0 && cfg.blue.currentValue == 0
    ensures !cfg.red.pressed && !cfg.green.pressed && !cfg.blue.pressed
    ensures InRange(cfg.red) && InRange(cfg.green) && InRange(cfg.blue)
    ensures cfg.red.colour == RED_BUTTON && cfg.green.colour == GREEN_BUTTON && cfg.blue.colour == BLUE_BUTTON
    ensures !cfg.marker.visible && !cfg.marker.obtained
    ensures cfg.palette.Palette? <==> level in {4, 8, 9, 10}
    ensures cfg.paint == (if level == 4 then RED_PAINT else NO_PAINT)
    // no dial starts on its target, so a fresh level is never complete
    ensures cfg.red.correctValue > 0 && cfg.green.correctValue > 0 && cfg.blue.correctValue > 0
    // every target is reachable except on the free-draw level, where none is
    ensures level < LAST_LEVEL ==>
              && cfg.red.correctValue <= cfg.red.maxValue
              && cfg.green.correctValue <= cfg.green.maxValue
              && cfg.blue.correctValue <= cfg.blue.maxValue
    ensures level == LAST_LEVEL ==>
              && cfg.red.correctValue > cfg.red.maxValue
              && cfg.green.correctValue > cfg.green.maxValue
              && cfg.blue.correctValue > cfg.blue.maxValue
  {
    if level == 1 || level == 3 then
      Config(5, 5,
             NewButton(10, 17, 5, 2, RED_BUTTON),
             NewButton(12, 17, 5, 1, GREEN_BUTTON),
             NewButton(14, 17, 5, 2, BLUE_BUTTON),
             NewMarker(17, 18), NoPalette, NO_PAINT)
    else if level == 2 then
      Config(2, 22,
             NewButton(8, 20, 5, 2, RED_BUTTON),
             NewButton(12, 20, 5, 5, GREEN_BUTTON),
             NewButton(16, 20, 5, 3, BLUE_BUTTON),
             NewMarker(17, 18), NoPalette, NO_PAINT)
    else if level == 4 then
      Config(8, 10,
             NewButton(10, 21, 5, 1, RED_BUTTON),
             NewButton(12, 21, 5, 3, GREEN_BUTTON),
             NewButton(14, 21, 5, 4, BLUE_BUTTON),
             NewMarker(17, 18), Palette(7, 7), RED_PAINT)
    else if level == 5 then
      Config(5, 5,
             NewButton(7, 17, 9, 5, RED_BUTTON),
             NewButton(12, 17, 9, 3, GREEN_BUTTON),
             NewButton(17, 17, 9, 7, BLUE_BUTTON),
             NewMarker(12, 5), NoPalette, NO_PAINT)
    else if level == 6 then
      Config(2, 1,
             NewButton(22, 4, 20, 5, RED_BUTTON),
             NewButton(22, 10, 20, 13, GREEN_BUTTON),
             NewButton(22, 16, 20, 8, BLUE_BUTTON),
             NewMarker(22, 5), NoPalette, NO_PAINT)
    else if level == 7 then
      Config(5, 5,
             NewButton(10, 17, 26, 18, RED_BUTTON),
             NewButton(12, 17, 26, 7, GREEN_BUTTON),
             NewButton(14, 17, 26, 2, BLUE_BUTTON),
             NewMarker(9, 8), NoPalette, NO_PAINT)
    else if level == 8 || level == 9 then
      Config(5, 5,
             NewButton(10, 17, 9, 2, RED_BUTTON),
             NewButton(12, 17, 9, 2, GREEN_BUTTON),
             NewButton(14, 17, 9, 3, BLUE_BUTTON),
             NewMarker(9, 8), Palette(5, 6), NO_PAINT)
    else
      Config(5, 5,
             NewButton(-1, 17, 99, 100, RED_BUTTON),
             NewButton(-1, 18, 99, 100, GREEN_BUTTON),
             NewButton(-1, 19, 99, 100, BLUE_BUTTON),
             NewMarker(9, 8), Palette(2, 1), NO_PAINT)
  }

  /** The tally slot the chosen door adds to; defined for the scoring levels. */
  function DoorChoice(level: int, yesDoor: bool): (slot: int)
    requires 1 <= level <= NO_OF_LEVELS
    ensures 0 <= slot < 4
    ensures slot == 0 <==> level == NO_OF_LEVELS && !yesDoor
  {
    if yesDoor then YesChoice[level] else NoChoice[level]
  }

  /** The personality colour of a tally: red needs a strict lead over both
      others, green a strict lead over blue, and blue takes every tie. */
  function PersonalityColour(red: int, green: int, blue: int): (choice: int)
    ensures choice in {RED_CHOICE, GREEN_CHOICE, BLUE_CHOICE}
  {
    if red > green && red > blue then RED_CHOICE
    else if green > blue then GREEN_CHOICE
    else BLUE_CHOICE
  }

  /** Reference definition: among the colours with the highest count, the
      last in the order red, green, blue. */
  function LastHighest(red: int, green: int, blue: int): int {
    var top := if red >= green && red >= blue then red else if green >= blue then green else blue;
    if blue == top then BLUE_CHOICE else if green == top then GREEN_CHOICE else RED_CHOICE
  }

  /** The count a tally holds for a colour. */
  function CountOf(choice: int, red: int, green: int, blue: int): int {
    if choice == RED_CHOICE then red else if choice == GREEN_CHOICE then green else blue
  }

  /** The result is a highest count, ties going to blue, then green. */
  lemma PersonalityColourIsLastHighest(red: int, green: int, blue: int)
    ensures PersonalityColour(red, green, blue) == LastHighest(red, green, blue)
    ensures var count := CountOf(PersonalityColour(red, green, blue), red, green, blue);
            count >= red && count >= green && count >= blue
  {
  }

  /** The tie-break on concrete tallies. */
  lemma PersonalityColourExamples()
    ensures PersonalityColour(2, 2, 2) == BLUE_CHOICE
    ensures PersonalityColour(3, 1, 1) == RED_CHOICE
    ensures PersonalityColour(1, 3, 3) == BLUE_CHOICE
    ensures PersonalityColour(1, 4, 2) == GREEN_CHOICE
  {
  }

  /** On every level but the last, every dial can be turned to its target. */
  lemma TargetsReachable(level: int)
    requires 1 <= level < LAST_LEVEL
    ensures var cfg := ConfigOf(level);
            && (exists n: nat :: IsCorrectValue(PressTimes(cfg.red, cfg.red.row, cfg.red.column, n)))
            && (exists n: nat :: IsCorrectValue(PressTimes(cfg.green, cfg.green.row, cfg.green.column, n)))
            && (exists n: nat :: IsCorrectValue(PressTimes(cfg.blue, cfg.blue.row, cfg.blue.column, n)))
  {
    var cfg := ConfigOf(level);
    var nr := ReachesTarget(cfg.red);
    var ng := ReachesTarget(cfg.green);
    var nb := ReachesTarget(cfg.blue);
  }
}
