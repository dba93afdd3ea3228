/** The 8x8 board and its rules code, as written in src/reversi/board.rs.
    A mutating Rust method `fn m(&mut self, ..) -> bool` becomes a function
    returning the new board together with the flag. */
module Boards {

  import opened Options
  import opened Colors
  import Cells
  import opened Directions

  predicate Shaped(cells: seq<seq<Cells.Cell>>)
  {
    |cells| == Size && forall i | 0 <= i < |cells| :: |cells[i]| == Size
  }

  function Blank(): seq<seq<Cells.Cell>>
  {
    seq(Size, _ => seq(Size, _ => Cells.Default()))
  }

  /** `cells[x][y]`: Size columns of Size cells each. */
  type Board = cells: seq<seq<Cells.Cell>> | Shaped(cells) witness Blank()

  /** The derived default board. */
  function Default(): (r: Board)
    ensures forall p :: ColorAt(r, p) == None
  {
    Blank()
  }

  predicate IsInside(x: nat, y: nat)
  {
    Inside(Pos(x, y))
  }

  /** The stone at (x, y); None when the square is empty or off the board. */
  function GetColor(b: Board, x: nat, y: nat): (r: Option<Color>)
    ensures !IsInside(x, y) ==> r == None
  {
    if !IsInside(x, y) then None else Cells.GetColor(b[x][y])
  }

  /** GetColor at a square given as a Pos, None for negative coordinates. */
  function ColorAt(b: Board, p: Pos): Option<Color>
  {
    if p.x < 0 || p.y < 0 then None else GetColor(b, p.x, p.y)
  }

  /** The board with the cell at p replaced. */
  function ReplaceCell(b: Board, p: Pos, c: Cells.Cell): (r: Board)
    requires Inside(p)
    ensures forall q :: ColorAt(r, q) == if q == p then c.color else ColorAt(b, q)
  {
    var column := b[p.x][p.y := c];
    var cells := b[p.x := column];
    assert forall i | 0 <= i < |cells| :: |cells[i]| == Size;
    cells
  }

  /** `cells[x][y].set(color)`. */
  function SetCell(b: Board, p: Pos, color: Color): (r: Board)
    requires Inside(p)
    ensures forall q :: ColorAt(r, q) == if q == p then Some(color) else ColorAt(b, q)
  {
    ReplaceCell(b, p, Cells.Set(b[p.x][p.y], color))
  }

  /** Overwrites one square, without flipping; off the board it refuses and
      changes nothing. */
  function Set(b: Board, x: nat, y: nat, color: Color): (r: (Board, bool))
    ensures r.1 <==> IsInside(x, y)
    ensures !r.1 ==> r.0 == b
    ensures forall q :: ColorAt(r.0, q) == if r.1 && q == Pos(x, y) then Some(color) else ColorAt(b, q)
  {
    if !IsInside(x, y) then (b, false) else (SetCell(b, Pos(x, y), color), true)
  }

  /** Empties every square. */
  function Clear(b: Board): (r: Board)
    ensures forall q :: ColorAt(r, q) == None
  {
    var cells := seq(Size, i requires 0 <= i < Size => seq(Size, j requires 0 <= j < Size => Cells.Clear(b[i][j])));
    assert Shaped(cells);
    cells
  }

  /** Two boards showing the same colour on every square are the same board. */
  lemma SameColorsSameBoard(a: Board, b: Board)
    requires forall p :: ColorAt(a, p) == ColorAt(b, p)
    ensures a == b
  {
    forall i, j | 0 <= i < Size && 0 <= j < Size
      ensures a[i][j] == b[i][j]
    {
      assert ColorAt(a, Pos(i, j)) == ColorAt(b, Pos(i, j));
    }
    forall i | 0 <= i < Size
      ensures a[i] == b[i]
    {
    }
  }

  // ---------------------------------------------------------------------------
  // can_put_at

  /** The inner loop of can_put_at: p holds an opponent stone on the ray from o
      along d; walk on over opponent stones and report whether an own stone
      is reached before an empty square or the edge. */
  function ScanFrom(b: Board, o: Pos, d: Dir, color: Color, p: Pos): bool
    requires d in Diffs && Inside(o) && OnRay(o, d, p)
    decreases Size - RayIndex(o, d, p)
  {
    match Neighbour(p, d)
    case None => false
    case Some(p2) =>
      match ColorAt(b, p2)
      case None => false
      case Some(next) =>
        if next == color then true
        else
          NextOnRay(o, d, p);
          ScanFrom(b, o, d, color, p2)
  }

  /** One iteration of can_put_at's direction loop: the neighbour along d must
      hold the opponent's colour, and the walk beyond it must reach an own stone. */
  function DirCaptures(b: Board, o: Pos, d: Dir, color: Color): bool
    requires d in Diffs && Inside(o)
  {
    match Neighbour(o, d)
    case None => false
    case Some(p) =>
      match ColorAt(b, p)
      case None => false
      case Some(next) =>
        if next == Rev(color) then
          StepIndex(o, d, 1);
          ScanFrom(b, o, d, color, p)
        else false
  }

  /** can_put_at's loop over Diffs[i..]. */
  function AnyDirFrom(b: Board, o: Pos, color: Color, i: nat): bool
    requires Inside(o) && i <= |Diffs|
    decreases |Diffs| - i
  {
    if i == |Diffs| then false
    else DirCaptures(b, o, Diffs[i], color) || AnyDirFrom(b, o, color, i + 1)
  }

  /** Whether `color` may be played at (x, y). */
  function CanPutAt(b: Board, x: nat, y: nat, color: Color): (r: bool)
    ensures r ==> IsInside(x, y) && GetColor(b, x, y) == None
  {
    if !IsInside(x, y) then false
    else if GetColor(b, x, y).Some? then false
    else AnyDirFrom(b, Pos(x, y), color, 0)
  }

  // ---------------------------------------------------------------------------
  // put

  /** The walk back of put: paints p1 and every square behind it down to (but
      not including) the origin o. Each step back is `relative_pos(..).unwrap()`;
      the requires make that unwrap total. */
  function Backtrack(b: Board, o: Pos, d: Dir, color: Color, p1: Pos): Board
    requires d in Diffs && Inside(o) && OnRay(o, d, p1) && Inside(p1)
    decreases RayIndex(o, d, p1)
  {
    var b1 := SetCell(b, p1, color);
    PrevOnRay(o, d, p1);
    var q := Neighbour(p1, Neg(d)).value;
    if q == o then b1 else Backtrack(b1, o, d, color, q)
  }

  /** The inner loop of put: like ScanFrom, but on reaching an own stone it
      walks back and reports success. */
  function FlipScan(b: Board, o: Pos, d: Dir, color: Color, p1: Pos): (Board, bool)
    requires d in Diffs && Inside(o) && OnRay(o, d, p1) && Inside(p1)
    decreases Size - RayIndex(o, d, p1)
  {
    match Neighbour(p1, d)
    case None => (b, false)
    case Some(p2) =>
      match ColorAt(b, p2)
      case None => (b, false)
      case Some(next) =>
        if next == color then (Backtrack(b, o, d, color, p1), true)
        else
          NextOnRay(o, d, p1);
          FlipScan(b, o, d, color, p2)
  }

  /** One iteration of put's direction loop. */
  function FlipDir(b: Board, o: Pos, d: Dir, color: Color): (Board, bool)
    requires d in Diffs && Inside(o)
  {
    match Neighbour(o, d)
    case None => (b, false)
    case Some(p) =>
      match ColorAt(b, p)
      case None => (b, false)
      case Some(next) =>
        if next == Rev(color) then
          StepIndex(o, d, 1);
          FlipScan(b, o, d, color, p)
        else (b, false)
  }

  /** put's loop over Diffs[i..], each direction working on the board the
      previous ones left; `success` accumulates "some direction flipped". */
  function FlipDirsFrom(b: Board, o: Pos, color: Color, i: nat, success: bool): (Board, bool)
    requires Inside(o) && i <= |Diffs|
    decreases |Diffs| - i
  {
    if i == |Diffs| then (b, success)
    else
      var (b1, flipped) := FlipDir(b, o, Diffs[i], color);
      FlipDirsFrom(b1, o, color, i + 1, success || flipped)
  }

  /** Plays `color` at (x, y) with flips. Illegal moves return false at once;
      otherwise every direction is flipped in turn and then the stone is put
      on (x, y) with Cell::put, whose own flag is dropped. */
  function Put(b: Board, x: nat, y: nat, color: Color): (r: (Board, bool))
  {
    if !CanPutAt(b, x, y, color) then (b, false)
    else
      var (b1, success) := FlipDirsFrom(b, Pos(x, y), color, 0, false);
      var (cell, _) := Cells.Put(b1[x][y], color);
      (ReplaceCell(b1, Pos(x, y), cell), success)
  }

  // ---------------------------------------------------------------------------
  // can_put, as written and as documented

  /** can_put's inner loop over x in [x, Size) for one row y: false at the first
      square where `color` cannot be played. */
  function ColsFrom(b: Board, color: Color, y: nat, x: nat): (r: bool)
    decreases Size - x
    ensures r <==> forall x' :: x <= x' < Size ==> CanPutAt(b, x', y, color)
  {
    if x >= Size then true
    else CanPutAt(b, x, y, color) && ColsFrom(b, color, y, x + 1)
  }

  /** can_put's outer loop over rows y in [y, Size). */
  function RowsFrom(b: Board, color: Color, y: nat): (r: bool)
    decreases Size - y
    ensures r <==> forall x: nat, y': nat :: x < Size && y <= y' < Size ==> CanPutAt(b, x, y', color)
  {
    if y >= Size then true
    else
      var row := ColsFrom(b, color, y, 0);
      var rest := RowsFrom(b, color, y + 1);
      assert row && rest ==> forall x: nat, y': nat :: x < Size && y <= y' < Size ==> CanPutAt(b, x, y', color) by {
        if row && rest {
          forall x: nat, y': nat | x < Size && y <= y' < Size
            ensures CanPutAt(b, x, y', color)
          {
            if y' == y {
            }
          }
        }
      }
      row && rest
  }

  /** can_put as written: true only when `color` can be played on every square. */
  function CanPut(b: Board, color: Color): (r: bool)
    ensures r <==> forall x: nat, y: nat :: x < Size && y < Size ==> CanPutAt(b, x, y, color)
  {
    RowsFrom(b, color, 0)
  }

  /** The documented can_put ("can it be placed anywhere?"): the same two loops
      with the test inverted, returning true at the first playable square. */
  function SomeColFrom(b: Board, color: Color, y: nat, x: nat): (r: bool)
    decreases Size - x
    ensures r <==> exists x' :: x <= x' < Size && CanPutAt(b, x', y, color)
  {
    if x >= Size then false
    else CanPutAt(b, x, y, color) || SomeColFrom(b, color, y, x + 1)
  }

  function SomeRowFrom(b: Board, color: Color, y: nat): (r: bool)
    decreases Size - y
    ensures r <==> exists x: nat, y': nat :: x < Size && y <= y' < Size && CanPutAt(b, x, y', color)
  {
    if y >= Size then false
    else
      var row := SomeColFrom(b, color, y, 0);
      var rest := SomeRowFrom(b, color, y + 1);
      assert row ==> exists x: nat, y': nat :: x < Size && y <= y' < Size && CanPutAt(b, x, y', color) by {
        if row {
          var x :| 0 <= x < Size && CanPutAt(b, x, y, color);
          assert x < Size && y <= y < Size && CanPutAt(b, x, y, color);
        }
      }
      row || rest
  }

  function CanPutSomewhere(b: Board, color: Color): (r: bool)
    ensures r <==> exists x: nat, y: nat :: x < Size && y < Size && CanPutAt(b, x, y, color)
  {
    SomeRowFrom(b, color, 0)
  }
}
