/**
 * The level grid: a rectangle of tile codes read from the rows of a level
 * file, plus the cell rewrites the game applies to it. Codes are the values of
 * the game's `char` cells, kept here as `int`.
 */
module LevelGrid {

  type Grid = seq<seq<int>>

  // Tile codes.
  const EMPTY := 0
  const WALL := 1
  const DOOR := 2
  const HIDDEN_PATH := 4
  const FAKE_RED_BUTTON := 7
  const FAKE_GREEN_BUTTON := 8
  const FAKE_BLUE_BUTTON := 9

  // Paint codes; a painted cell holds the code of its paint.
  const NO_PAINT := 0
  const RED_PAINT := 10
  const GREEN_PAINT := 11
  const BLUE_PAINT := 12

  /** Number of values of a 16-bit `char` cell. */
  const CHAR_VALUES := 0x1_0000

  predicate IsColour(paint: int) {
    paint == RED_PAINT || paint == GREEN_PAINT || paint == BLUE_PAINT
  }

  /** Every row is as long as the first. */
  predicate Rectangular(g: Grid) {
    forall r :: 0 <= r < |g| ==> |g[r]| == |g[0]|
  }

  /** Same number of rows, and each row the same length. */
  predicate SameShape(g: Grid, g': Grid) {
    |g'| == |g| && forall r :: 0 <= r < |g| ==> |g'[r]| == |g[r]|
  }

  predicate InGrid(g: Grid, r: int, c: int) {
    0 <= r < |g| && 0 <= c < |g[r]|
  }

  /** At least 3 x 3, and the outer ring of cells is all wall. */
  predicate Walled(g: Grid) {
    && Rectangular(g)
    && |g| >= 3 && |g[0]| >= 3
    && (forall c :: 0 <= c < |g[0]| ==> g[0][c] == WALL && g[|g| - 1][c] == WALL)
    && (forall r :: 0 <= r < |g| ==> g[r][0] == WALL && g[r][|g[r]| - 1] == WALL)
  }

  /** The cells the level-wide rewrites visit: rows 2 .. height-2 (row 0 and
      the door row 1 are left alone) and columns 1 .. width-2. */
  predicate InInterior(g: Grid, r: int, c: int) {
    2 <= r < |g| - 1 && 1 <= c < |g[r]| - 1
  }

  // ---------------------------------------------------------------------------
  // Loading

  datatype LoadError =
    | NoFirstLine           // the file has no line to measure the width from
    | RowTooShort(row: nat) // a row shorter than the first row

  datatype LoadResult = Loaded(grid: Grid) | Malformed(error: LoadError)

  /** The cell code of one character: its distance from '0', cut to 16 bits. */
  function CellOf(ch: char): (v: int)
    ensures 0 <= v < CHAR_VALUES
    ensures '0' <= ch <= '9' ==> v == ch as int - '0' as int
  {
    (ch as int - '0' as int) % CHAR_VALUES
  }

  /** Rows `from` onwards, each cut to `width` cells; fails at the first row
      shorter than `width`. */
  function ParseRows(lines: seq<string>, from: nat, width: nat): (r: LoadResult)
    requires from <= |lines|
    ensures r.Loaded? <==> forall i :: from <= i < |lines| ==> width <= |lines[i]|
    ensures r.Loaded? ==> |r.grid| == |lines| - from
    ensures r.Loaded? ==> forall i :: 0 <= i < |r.grid| ==> |r.grid[i]| == width
    ensures r.Loaded? ==> forall i, c :: 0 <= i < |r.grid| && 0 <= c < width ==>
              r.grid[i][c] == CellOf(lines[from + i][c])
    ensures r.Malformed? ==> r.error.RowTooShort? && from <= r.error.row < |lines|
    ensures r.Malformed? ==> |lines[r.error.row]| < width
    ensures r.Malformed? ==> forall i :: from <= i < r.error.row ==> width <= |lines[i]|
    decreases |lines| - from
  {
    if from == |lines| then
      Loaded([])
    else if |lines[from]| < width then
      Malformed(RowTooShort(from))
    else
      match ParseRows(lines, from + 1, width)
      case Loaded(rest) =>
        Loaded([seq(width, c requires 0 <= c < width => CellOf(lines[from][c]))] + rest)
      case Malformed(e) => Malformed(e)
  }

  /** The level loader: the first row fixes the width, every row is read up
      to that width, and each character becomes its code. */
  function Parse(lines: seq<string>): (r: LoadResult)
    ensures |lines| == 0 ==> r == Malformed(NoFirstLine)
    ensures r.Loaded? <==> |lines| > 0 && forall i :: 0 <= i < |lines| ==> |lines[0]| <= |lines[i]|
    ensures r.Loaded? ==> Rectangular(r.grid) && |r.grid| == |lines|
    ensures r.Loaded? ==> forall i :: 0 <= i < |lines| ==> |r.grid[i]| == |lines[0]|
    ensures r.Loaded? ==> forall i, c :: 0 <= i < |lines| && 0 <= c < |lines[0]| ==>
              r.grid[i][c] == CellOf(lines[i][c])
    ensures r.Malformed? && |lines| > 0 ==> r.error.RowTooShort? && r.error.row < |lines|
    ensures r.Malformed? && |lines| > 0 ==> |lines[r.error.row]| < |lines[0]|
  {
    if |lines| == 0 then Malformed(NoFirstLine) else ParseRows(lines, 0, |lines[0]|)
  }

  /** Every cell is a digit code 0..9. */
  predicate DigitGrid(g: Grid) {
    forall r, c :: 0 <= r < |g| && 0 <= c < |g[r]| ==> 0 <= g[r][c] <= 9
  }

  /** Every character is a decimal digit. */
  predicate DigitLines(lines: seq<string>) {
    forall r, c :: 0 <= r < |lines| && 0 <= c < |lines[r]| ==> '0' <= lines[r][c] <= '9'
  }

  /** The level file a digit grid would be read from. */
  function Render(g: Grid): (lines: seq<string>)
    requires DigitGrid(g)
    ensures |lines| == |g| && forall r :: 0 <= r < |g| ==> |lines[r]| == |g[r]|
    ensures DigitLines(lines)
  {
    seq(|g|, r requires 0 <= r < |g| =>
      seq(|g[r]|, c requires 0 <= c < |g[r]| => ('0' as int + g[r][c]) as char))
  }

  /** Loading the rendering of a digit grid gives back the grid. */
  lemma ParseRender(g: Grid)
    requires |g| > 0 && Rectangular(g) && DigitGrid(g)
    ensures Parse(Render(g)) == Loaded(g)
  {
    var lines := Render(g);
    var r := Parse(lines);
    assert r.Loaded?;
    forall i | 0 <= i < |g|
      ensures r.grid[i] == g[i]
    {
      forall c | 0 <= c < |g[i]|
        ensures r.grid[i][c] == g[i][c]
      {
        assert r.grid[i][c] == CellOf(lines[i][c]);
      }
    }
  }

  /** Rendering a loaded file of equal-length digit rows gives back the file. */
  lemma RenderParse(lines: seq<string>)
    requires |lines| > 0 && DigitLines(lines)
    requires forall i :: 0 <= i < |lines| ==> |lines[i]| == |lines[0]|
    ensures Parse(lines).Loaded?
    ensures DigitGrid(Parse(lines).grid) && Render(Parse(lines).grid) == lines
  {
    var g := Parse(lines).grid;
    assert DigitGrid(g) by {
      forall r, c | 0 <= r < |g| && 0 <= c < |g[r]|
        ensures 0 <= g[r][c] <= 9
      {
        assert g[r][c] == CellOf(lines[r][c]);
      }
    }
    var back := Render(g);
    forall i | 0 <= i < |lines|
      ensures back[i] == lines[i]
    {
      forall c | 0 <= c < |lines[i]|
        ensures back[i][c] == lines[i][c]
      {
        assert g[i][c] == CellOf(lines[i][c]);
      }
    }
  }

  // ---------------------------------------------------------------------------
  // Rewrites

  /** The grid with `f` applied to every interior cell. */
  function RewriteInterior(g: Grid, f: int -> int): (g': Grid)
    ensures SameShape(g, g')
    ensures forall r, c :: 0 <= r < |g| && 0 <= c < |g[r]| ==>
              g'[r][c] == (if InInterior(g, r, c) then f(g[r][c]) else g[r][c])
  {
    seq(|g|, r requires 0 <= r < |g| =>
      seq(|g[r]|, c requires 0 <= c < |g[r]| =>
        if InInterior(g, r, c) then f(g[r][c]) else g[r][c]))
  }

  /** The grid with one cell replaced. */
  function SetCell(g: Grid, r: int, c: int, v: int): (g': Grid)
    requires InGrid(g, r, c)
    ensures SameShape(g, g')
    ensures g'[r][c] == v
    ensures forall i, j :: InGrid(g, i, j) && (i != r || j != c) ==> g'[i][j] == g[i][j]
  {
    g[r := g[r][c := v]]
  }

  /** Level 6: every interior wall becomes empty. */
  function WipeWalls(g: Grid): (g': Grid)
    ensures SameShape(g, g')
    ensures forall r, c :: InGrid(g, r, c) ==>
              (g'[r][c] != g[r][c] <==> InInterior(g, r, c) && g[r][c] == WALL)
    ensures forall r, c :: InGrid(g, r, c) && g'[r][c] != g[r][c] ==> g'[r][c] == EMPTY
    ensures forall r, c :: InGrid(g, r, c) && InInterior(g, r, c) ==> g'[r][c] != WALL
  {
    RewriteInterior(g, v => if v == WALL then EMPTY else v)
  }

  /** Level 2: interior empties and walls trade places; other codes stay. */
  function Invert(g: Grid): (g': Grid)
    ensures SameShape(g, g')
    ensures forall r, c :: InGrid(g, r, c) && InInterior(g, r, c) && g[r][c] == EMPTY ==> g'[r][c] == WALL
    ensures forall r, c :: InGrid(g, r, c) && InInterior(g, r, c) && g[r][c] == WALL ==> g'[r][c] == EMPTY
    ensures forall r, c :: InGrid(g, r, c) && !(InInterior(g, r, c) && (g[r][c] == EMPTY || g[r][c] == WALL)) ==>
              g'[r][c] == g[r][c]
  {
    RewriteInterior(g, v => if v == EMPTY then WALL else if v == WALL then EMPTY else v)
  }

  /** Level 4: every interior cell except the hidden path takes the paint. */
  function Flood(g: Grid, paint: int): (g': Grid)
    ensures SameShape(g, g')
    ensures forall r, c :: InGrid(g, r, c) && g[r][c] == HIDDEN_PATH ==> g'[r][c] == HIDDEN_PATH
    ensures forall r, c :: InGrid(g, r, c) && InInterior(g, r, c) && g[r][c] != HIDDEN_PATH ==> g'[r][c] == paint
    ensures forall r, c :: InGrid(g, r, c) && !InInterior(g, r, c) ==> g'[r][c] == g[r][c]
  {
    RewriteInterior(g, v => if v != HIDDEN_PATH then paint else v)
  }

  /** Inverting twice restores the grid. */
  lemma InvertInvolution(g: Grid)
    ensures Invert(Invert(g)) == g
  {
    var g1 := Invert(g);
    var g2 := Invert(g1);
    forall r | 0 <= r < |g|
      ensures g2[r] == g[r]
    {
      forall c | 0 <= c < |g[r]|
        ensures g2[r][c] == g[r][c]
      {
        assert InInterior(g1, r, c) == InInterior(g, r, c);
      }
    }
  }

  /** Wiping a wiped grid changes nothing more. */
  lemma WipeIdempotent(g: Grid)
    ensures WipeWalls(WipeWalls(g)) == WipeWalls(g)
  {
    var g1 := WipeWalls(g);
    var g2 := WipeWalls(g1);
    forall r | 0 <= r < |g|
      ensures g2[r] == g1[r]
    {
      forall c | 0 <= c < |g[r]|
        ensures g2[r][c] == g1[r][c]
      {
        assert InInterior(g1, r, c) == InInterior(g, r, c);
      }
    }
  }

  /** The cell lies on the outer ring of the grid. */
  predicate OnRing(g: Grid, r: int, c: int)
    requires InGrid(g, r, c)
  {
    r == 0 || r == |g| - 1 || c == 0 || c == |g[r]| - 1
  }

  /** A rewrite of the same shape that leaves the outer ring alone keeps the wall ring. */
  lemma RingKeptKeepsWalled(g: Grid, g': Grid)
    requires Walled(g) && SameShape(g, g')
    requires forall r, c :: InGrid(g, r, c) && OnRing(g, r, c) ==> g'[r][c] == g[r][c]
    ensures Walled(g')
  {
    assert |g'[0]| == |g[0]|;
    forall r | 0 <= r < |g'|
      ensures |g'[r]| == |g'[0]|
    {
    }
    forall c | 0 <= c < |g'[0]|
      ensures g'[0][c] == WALL && g'[|g'| - 1][c] == WALL
    {
      assert OnRing(g, 0, c) && OnRing(g, |g| - 1, c);
    }
    forall r | 0 <= r < |g'|
      ensures g'[r][0] == WALL && g'[r][|g'[r]| - 1] == WALL
    {
      assert OnRing(g, r, 0) && OnRing(g, r, |g[r]| - 1);
    }
  }

  /** An interior rewrite leaves the outer ring alone. */
  lemma RewriteKeepsRing(g: Grid, g': Grid)
    requires SameShape(g, g')
    requires forall r, c :: InGrid(g, r, c) && !InInterior(g, r, c) ==> g'[r][c] == g[r][c]
    ensures forall r, c :: InGrid(g, r, c) && OnRing(g, r, c) ==> g'[r][c] == g[r][c]
  {
    forall r, c | InGrid(g, r, c) && OnRing(g, r, c)
      ensures g'[r][c] == g[r][c]
    {
      assert !InInterior(g, r, c);
    }
  }

  lemma WipeKeepsWalled(g: Grid)
    requires Walled(g)
    ensures Walled(WipeWalls(g))
  {
    var g' := WipeWalls(g);
    forall r, c | InGrid(g, r, c) && !InInterior(g, r, c)
      ensures g'[r][c] == g[r][c]
    {
    }
    RewriteKeepsRing(g, g');
    RingKeptKeepsWalled(g, g');
  }

  lemma InvertKeepsWalled(g: Grid)
    requires Walled(g)
    ensures Walled(Invert(g))
  {
    var g' := Invert(g);
    RewriteKeepsRing(g, g');
    RingKeptKeepsWalled(g, g');
  }

  lemma FloodKeepsWalled(g: Grid, paint: int)
    requires Walled(g)
    ensures Walled(Flood(g, paint))
  {
    var g' := Flood(g, paint);
    RewriteKeepsRing(g, g');
    RingKeptKeepsWalled(g, g');
  }

  lemma SetCellKeepsWalled(g: Grid, r: int, c: int, v: int)
    requires Walled(g) && 1 <= r < |g| - 1 && 1 <= c < |g[r]| - 1
    ensures Walled(SetCell(g, r, c, v))
  {
    var g' := SetCell(g, r, c, v);
    forall i, j | InGrid(g, i, j) && OnRing(g, i, j)
      ensures g'[i][j] == g[i][j]
    {
    }
    RingKeptKeepsWalled(g, g');
  }
}
