/**
 * The numbered dial of the game: a counter bound to one grid cell, turned by
 * the activate key while the player stands on that cell. It counts up to its
 * maximum and then starts again at zero.
 */
module ButtonDial {

  /** Colour tags handed to the constructor. The renderer shows image `colour`
      for an idle button and image `colour + 1` for a button just pressed. */
  const RED_BUTTON := 1
  const GREEN_BUTTON := 3
  const BLUE_BUTTON := 5

  datatype Button = Button(
    column: int,
    row: int,
    currentValue: int,
    maxValue: int,
    correctValue: int,
    pressed: bool,
    colour: int)

  /** The parts of a button fixed at construction: cell, range, target and colour. */
  predicate SameDial(a: Button, b: Button) {
    && a.column == b.column
    && a.row == b.row
    && a.maxValue == b.maxValue
    && a.correctValue == b.correctValue
    && a.colour == b.colour
  }

  /** The dial shows a value between 0 and its maximum. */
  predicate InRange(b: Button) {
    0 <= b.currentValue <= b.maxValue
  }

  /** The dial shows its target value. */
  predicate IsCorrectValue(b: Button) {
    b.currentValue == b.correctValue
  }

  /** The player's cell is the button's cell. */
  predicate StandsOn(b: Button, row: int, column: int) {
    column == b.column && row == b.row
  }

  /** A new button: showing 0 and not pressed. */
  function NewButton(column: int, row: int, maxValue: int, correctValue: int, colour: int): (b: Button)
    ensures b.column == column && b.row == row && b.colour == colour
    ensures b.maxValue == maxValue && b.correctValue == correctValue
    ensures b.currentValue == 0 && !b.pressed
    ensures 0 <= maxValue ==> InRange(b)
  {
    Button(column, row, 0, maxValue, correctValue, false, colour)
  }

  /** One press with the player at (row, column). It counts only on the
      button's own cell; there it raises the flash flag and moves the dial one
      step, from the maximum (or above it) back to 0. */
  function Press(b: Button, row: int, column: int): (b': Button)
    ensures SameDial(b, b')
    ensures !StandsOn(b, row, column) ==> b' == b
    ensures StandsOn(b, row, column) ==> b'.pressed
    ensures StandsOn(b, row, column) && b.currentValue < b.maxValue ==> b'.currentValue == b.currentValue + 1
    ensures StandsOn(b, row, column) && b.currentValue >= b.maxValue ==> b'.currentValue == 0
    ensures InRange(b) ==> InRange(b')
  {
    if StandsOn(b, row, column) then
      b.(pressed := true,
         currentValue := if b.currentValue < b.maxValue then b.currentValue + 1 else 0)
    else
      b
  }

  /** `n` presses in a row from the same cell. */
  function PressTimes(b: Button, row: int, column: int, n: nat): (b': Button)
    ensures SameDial(b, b')
    ensures InRange(b) ==> InRange(b')
  {
    if n == 0 then b else Press(PressTimes(b, row, column, n - 1), row, column)
  }

  /** Clears the flash flag. */
  function Unpress(b: Button): (b': Button)
    ensures !b'.pressed
    ensures SameDial(b, b') && b'.currentValue == b.currentValue
  {
    b.(pressed := false)
  }

  /** The image the renderer shows for the button, and the button afterwards:
      reading a pressed button yields the flash image and clears the flag. */
  function DrawButton(b: Button): (r: (int, Button))
    ensures r.0 == (if b.pressed then b.colour + 1 else b.colour)
    ensures !r.1.pressed
    ensures SameDial(b, r.1) && r.1.currentValue == b.currentValue
    ensures !b.pressed ==> r.1 == b
  {
    if !b.pressed then (b.colour, b) else (b.colour + 1, Unpress(b))
  }

  /** Below the maximum each press adds exactly one. */
  lemma {:induction false} PressTimesClimbs(b: Button, n: nat)
    requires 0 <= b.currentValue && b.currentValue + n <= b.maxValue
    ensures PressTimes(b, b.row, b.column, n).currentValue == b.currentValue + n
  {
    if n > 0 {
      PressTimesClimbs(b, n - 1);
    }
  }

  /** Presses compose: m presses then n presses are m + n presses. */
  lemma {:induction false} PressTimesAdd(b: Button, row: int, column: int, m: nat, n: nat)
    ensures PressTimes(b, row, column, m + n) == PressTimes(PressTimes(b, row, column, m), row, column, n)
  {
    if n > 0 {
      PressTimesAdd(b, row, column, m, n - 1);
    }
  }

  /** maxValue + 1 presses from the button's cell bring the dial back to where it was. */
  lemma PressCycle(b: Button)
    requires InRange(b)
    ensures PressTimes(b, b.row, b.column, b.maxValue + 1).currentValue == b.currentValue
  {
    var c, m := b.currentValue, b.maxValue;
    PressTimesClimbs(b, m - c);
    var top := PressTimes(b, b.row, b.column, m - c);
    var zero := PressTimes(b, b.row, b.column, m - c + 1);
    assert zero == Press(top, b.row, b.column);
    assert zero.currentValue == 0 && SameDial(b, zero);
    PressTimesClimbs(zero, c);
    PressTimesAdd(b, b.row, b.column, m - c + 1, c);
  }

  /** Every target inside the dial's range is reached within maxValue presses. */
  lemma ReachesTarget(b: Button) returns (n: nat)
    requires InRange(b) && 0 <= b.correctValue <= b.maxValue
    ensures n <= b.maxValue
    ensures IsCorrectValue(PressTimes(b, b.row, b.column, n))
  {
    var c, m, t := b.currentValue, b.maxValue, b.correctValue;
    if c <= t {
      n := t - c;
      PressTimesClimbs(b, n);
    } else {
      PressTimesClimbs(b, m - c);
      var zero := PressTimes(b, b.row, b.column, m - c + 1);
      assert zero.currentValue == 0 && SameDial(b, zero);
      PressTimesClimbs(zero, t);
      PressTimesAdd(b, b.row, b.column, m - c + 1, t);
      n := m - c + 1 + t;
    }
  }

  /** A target outside the dial's range is never shown, however often the button is pressed. */
  lemma TargetOutOfRangeNeverReached(b: Button, row: int, column: int, n: nat)
    requires InRange(b) && (b.correctValue < 0 || b.correctValue > b.maxValue)
    ensures !IsCorrectValue(PressTimes(b, row, column, n))
  {
  }

  /** The flash shows once: drawing again shows the idle image and changes nothing. */
  lemma DrawFlashesOnce(b: Button)
    ensures DrawButton(DrawButton(b).1) == (b.colour, DrawButton(b).1)
  {
  }
}
