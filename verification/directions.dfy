/** Geometry of the 8x8 board: squares, the eight unit directions (DIFFS)
    and the neighbour lookup `relative_pos` of src/reversi/board.rs. */
module Directions {

  import opened Options

  /** Both dimensions of the board. */
  const Size: int := 8

  /** A square, addressed (x, y) = (column index into cells, index within it). */
  datatype Pos = Pos(x: int, y: int)

  /** A step vector. */
  datatype Dir = Dir(dx: int, dy: int)

  predicate Inside(p: Pos)
  {
    0 <= p.x < Size && 0 <= p.y < Size
  }

  /** The eight directions, in the order the scans visit them. */
  const Diffs: seq<Dir> := [Dir(0, 1), Dir(0, -1), Dir(1, 0), Dir(-1, 0),
                            Dir(1, 1), Dir(1, -1), Dir(-1, 1), Dir(-1, -1)]

  function Neg(d: Dir): Dir
  {
    Dir(-d.dx, -d.dy)
  }

  /** The square one step from p along d, if that square is on the board. */
  function Neighbour(p: Pos, d: Dir): (r: Option<Pos>)
    ensures r.Some? <==> Inside(Pos(p.x + d.dx, p.y + d.dy))
    ensures r.Some? ==> r.value.x - p.x == d.dx && r.value.y - p.y == d.dy
  {
    var x2 := p.x + d.dx;
    var y2 := p.y + d.dy;
    if x2 < 0 || y2 < 0 then None
    else if !Inside(Pos(x2, y2)) then None
    else Some(Pos(x2, y2))
  }

  /** k * u for a direction component u in {-1, 0, 1}, without multiplication. */
  function Scale(k: int, u: int): int
  {
    if u > 0 then k else if u < 0 then -k else 0
  }

  /** The square k steps from o along d. */
  function Step(o: Pos, d: Dir, k: int): Pos
  {
    Pos(o.x + Scale(k, d.dx), o.y + Scale(k, d.dy))
  }

  /** How many steps along d lead from o to p, assuming p lies on that line. */
  function RayIndex(o: Pos, d: Dir, p: Pos): int
  {
    if d.dx != 0 then Scale(p.x - o.x, d.dx) else Scale(p.y - o.y, d.dy)
  }

  /** p is one of the squares 1, 2, ... steps from o along d. */
  predicate OnRay(o: Pos, d: Dir, p: Pos)
  {
    RayIndex(o, d, p) >= 1 && p == Step(o, d, RayIndex(o, d, p))
  }

  /** p is one of the squares 1 .. k steps from o along d. */
  predicate Within(o: Pos, d: Dir, p: Pos, k: int)
  {
    OnRay(o, d, p) && RayIndex(o, d, p) <= k
  }

  /** Every entry of Diffs is a unit vector: components in {-1, 0, 1}, not both zero;
      and the eight entries are distinct. */
  lemma DiffsAreUnits()
    ensures |Diffs| == 8
    ensures forall d :: d in Diffs <==> (-1 <= d.dx <= 1 && -1 <= d.dy <= 1 && d != Dir(0, 0))
    ensures forall i, j :: 0 <= i < j < |Diffs| ==> Diffs[i] != Diffs[j]
  {
  }

  /** RayIndex inverts Step. */
  lemma StepIndex(o: Pos, d: Dir, k: int)
    requires d in Diffs
    ensures RayIndex(o, d, Step(o, d, k)) == k
    ensures k >= 1 ==> OnRay(o, d, Step(o, d, k))
  {
  }

  lemma ScaleShift(k: int, u: int)
    requires -1 <= u <= 1
    ensures Scale(k + 1, u) == Scale(k, u) + u
    ensures Scale(k - 1, u) == Scale(k, u) - u
  {
  }

  /** Walking one more step along d from the k-th square reaches the (k+1)-th. */
  lemma NeighbourStep(o: Pos, d: Dir, k: int)
    requires d in Diffs
    ensures Neighbour(Step(o, d, k), d) == if Inside(Step(o, d, k + 1)) then Some(Step(o, d, k + 1)) else None
    ensures Neighbour(Step(o, d, k), Neg(d)) == if Inside(Step(o, d, k - 1)) then Some(Step(o, d, k - 1)) else None
  {
    DiffsAreUnits();
    ScaleShift(k, d.dx);
    ScaleShift(k, d.dy);
    var p := Step(o, d, k);
    assert Step(o, d, k + 1) == Pos(p.x + d.dx, p.y + d.dy);
    assert Step(o, d, k - 1) == Pos(p.x + Neg(d).dx, p.y + Neg(d).dy);
  }

  /** A square between two on-board squares of one line is on the board. */
  lemma StepBetween(o: Pos, d: Dir, j: int, k: int)
    requires d in Diffs && Inside(o) && Inside(Step(o, d, k)) && 0 <= j <= k
    ensures Inside(Step(o, d, j))
  {
  }

  /** From an on-board square, at most Size - 1 steps stay on the board. */
  lemma StepBound(o: Pos, d: Dir, k: int)
    requires d in Diffs && Inside(o) && Inside(Step(o, d, k)) && k >= 0
    ensures k < Size
  {
  }

  /** No square of a ray is its origin. */
  lemma StepNotOrigin(o: Pos, d: Dir, k: int)
    requires d in Diffs && k != 0
    ensures Step(o, d, k) != o
  {
  }

  /** The eight rays leaving one square share no square: a square reached along
      two directions is reached along the same direction at the same distance. */
  lemma RaysDisjoint(o: Pos, d: Dir, e: Dir, j: int, k: int)
    requires d in Diffs && e in Diffs && j >= 1 && k >= 1
    requires Step(o, d, j) == Step(o, e, k)
    ensures d == e && j == k
  {
  }

  /** Walking on from the k-th square of a ray reaches the (k+1)-th, which is
      still at most Size - 1 steps out. */
  lemma NextOnRay(o: Pos, d: Dir, p: Pos)
    requires d in Diffs && Inside(o) && OnRay(o, d, p) && Neighbour(p, d).Some?
    ensures OnRay(o, d, Neighbour(p, d).value)
    ensures RayIndex(o, d, Neighbour(p, d).value) == RayIndex(o, d, p) + 1 < Size
  {
    var k := RayIndex(o, d, p);
    NeighbourStep(o, d, k);
    StepIndex(o, d, k + 1);
    StepBound(o, d, k + 1);
  }

  /** Walking back from the k-th square of a ray (k >= 1) never leaves the
      board: it reaches the origin when k == 1 and the (k-1)-th square otherwise. */
  lemma PrevOnRay(o: Pos, d: Dir, p: Pos)
    requires d in Diffs && Inside(o) && OnRay(o, d, p) && Inside(p)
    ensures Neighbour(p, Neg(d)).Some?
    ensures Neighbour(p, Neg(d)).value == o <==> RayIndex(o, d, p) == 1
    ensures Neighbour(p, Neg(d)).value != o ==>
              && OnRay(o, d, Neighbour(p, Neg(d)).value)
              && RayIndex(o, d, Neighbour(p, Neg(d)).value) == RayIndex(o, d, p) - 1
  {
    var k := RayIndex(o, d, p);
    StepBetween(o, d, k - 1, k);
    NeighbourStep(o, d, k);
    StepIndex(o, d, k - 1);
    if k - 1 != 0 {
      StepNotOrigin(o, d, k - 1);
    }
  }
}
