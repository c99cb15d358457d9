/**
 * The question-mark marker of a level: a fixed cell and two flags, whether it
 * is shown and whether the player has picked it up.
 */
module QuestionMarker {

  datatype Marker = Marker(column: int, row: int, visible: bool, obtained: bool)

  /** Both markers sit on the same cell. */
  predicate SameCell(a: Marker, b: Marker) {
    a.column == b.column && a.row == b.row
  }

  /** A new marker at (column, row): hidden and not picked up. */
  function NewMarker(column: int, row: int): (m: Marker)
    ensures m.column == column && m.row == row
    ensures !m.visible && !m.obtained
  {
    Marker(column, row, false, false)
  }

  function MakeVisible(m: Marker): (m': Marker)
    ensures m'.visible
    ensures m'.obtained == m.obtained && SameCell(m, m')
  {
    m.(visible := true)
  }

  function MakeInvisible(m: Marker): (m': Marker)
    ensures !m'.visible
    ensures m'.obtained == m.obtained && SameCell(m, m')
  {
    m.(visible := false)
  }

  function Obtain(m: Marker): (m': Marker)
    ensures m'.obtained
    ensures m'.visible == m.visible && SameCell(m, m')
  {
    m.(obtained := true)
  }

  function Unobtain(m: Marker): (m': Marker)
    ensures !m'.obtained
    ensures m'.visible == m.visible && SameCell(m, m')
  {
    m.(obtained := false)
  }

  /** Each setter applied twice is the setter applied once. */
  lemma SettersIdempotent(m: Marker)
    ensures MakeVisible(MakeVisible(m)) == MakeVisible(m)
    ensures MakeInvisible(MakeInvisible(m)) == MakeInvisible(m)
    ensures Obtain(Obtain(m)) == Obtain(m)
    ensures Unobtain(Unobtain(m)) == Unobtain(m)
  {
  }

  /** Picking the marker up hides it and then marks it taken; done in the
      other order the result is the same: a hidden, taken marker in the same
      cell. */
  lemma PickUpOrder(m: Marker)
    ensures var p := Obtain(MakeInvisible(m));
            && p == MakeInvisible(Obtain(m))
            && !p.visible && p.obtained && SameCell(p, m)
  {
  }
}
