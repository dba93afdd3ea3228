/** One square of the board (src/reversi/cell.rs). */
module Cells {

  import opened Options
  import opened Colors

  /** A square is empty or holds exactly one stone. */
  datatype Cell = Cell(color: Option<Color>)

  /** The default square is empty. */
  function Default(): Cell
  {
    Cell(None)
  }

  /** Removes any stone. */
  function Clear(c: Cell): Cell
  {
    Cell(None)
  }

  /** Places a stone only on an empty square; the flag reports whether it did. */
  function Put(c: Cell, color: Color): (r: (Cell, bool))
    ensures r.1 <==> c.color == None
    ensures r.1 ==> r.0.color == Some(color)
    ensures !r.1 ==> r.0 == c
  {
    if c.color.Some? then (c, false) else (Cell(Some(color)), true)
  }

  /** Places a stone whatever the square held before. */
  function Set(c: Cell, color: Color): Cell
  {
    Cell(Some(color))
  }

  /** The stone on the square, if any. */
  function GetColor(c: Cell): Option<Color>
  {
    c.color
  }

  /** Put and Set agree on an empty square, and Put leaves an occupied one alone
      where Set would overwrite it. */
  lemma PutVersusSet(c: Cell, color: Color)
    ensures GetColor(Default()) == None && GetColor(Clear(c)) == None
    ensures GetColor(Set(c, color)) == Some(color)
    ensures c.color == None ==> Put(c, color) == (Set(c, color), true)
    ensures c.color != None ==> Put(c, color) == (c, false) && GetColor(Put(c, color).0) == GetColor(c)
  {
  }
}
