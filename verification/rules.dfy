/** The capture rule stated declaratively, and the proofs that the scans of
    Boards decide it and that Boards.Put carries it out. */
module Rules {

  import opened Options
  import opened Colors
  import Cells
  import opened Directions
  import opened Boards

  /** Along d from o, the squares 1 .. k-1 hold the opponent's colour and the
      square k holds `color`: k brackets a run of at least one opponent stone. */
  ghost predicate RunTo(b: Board, o: Pos, d: Dir, color: Color, k: int)
  {
    && 2 <= k
    && (forall j :: 1 <= j < k ==> ColorAt(b, Step(o, d, j)) == Some(Rev(color)))
    && ColorAt(b, Step(o, d, k)) == Some(color)
  }

  /** Direction d is capturing for a stone of `color` at o. */
  ghost predicate Capturing(b: Board, o: Pos, d: Dir, color: Color)
  {
    exists k :: RunTo(b, o, d, color, k)
  }

  /** A legal move: on the board, on an empty square, and capturing along at
      least one of the eight directions. */
  ghost predicate Legal(b: Board, x: nat, y: nat, color: Color)
  {
    && IsInside(x, y)
    && GetColor(b, x, y) == None
    && exists i :: 0 <= i < |Diffs| && Capturing(b, Pos(x, y), Diffs[i], color)
  }

  /** p lies strictly between o and the own stone that brackets a capturing run along d. */
  ghost predicate Flanked(b: Board, o: Pos, d: Dir, color: Color, p: Pos)
  {
    exists j, k :: 1 <= j < k && RunTo(b, o, d, color, k) && p == Step(o, d, j)
  }

  /** p is flanked along one of the directions Diffs[0 .. n). */
  ghost predicate FlankedBefore(b: Board, o: Pos, color: Color, p: Pos, n: int)
  {
    exists i :: 0 <= i < n && i < |Diffs| && Flanked(b, o, Diffs[i], color, p)
  }

  /** p is captured by playing `color` at o. */
  ghost predicate Captured(b: Board, o: Pos, color: Color, p: Pos)
  {
    FlankedBefore(b, o, color, p, |Diffs|)
  }

  // ---------------------------------------------------------------------------
  // Facts about runs

  /** A capturing direction has exactly one bracketing stone. */
  lemma RunToUnique(b: Board, o: Pos, d: Dir, color: Color, k1: int, k2: int)
    requires RunTo(b, o, d, color, k1) && RunTo(b, o, d, color, k2)
    ensures k1 == k2
  {
    assert k1 < k2 ==> ColorAt(b, Step(o, d, k1)) == Some(Rev(color));
    assert k2 < k1 ==> ColorAt(b, Step(o, d, k2)) == Some(Rev(color));
  }

  /** The first square of a capturing direction holds the opponent's colour. */
  lemma CapturingStartsWithOpponent(b: Board, o: Pos, d: Dir, color: Color)
    requires Capturing(b, o, d, color)
    ensures ColorAt(b, Step(o, d, 1)) == Some(Rev(color))
  {
    var m :| RunTo(b, o, d, color, m);
    assert 1 < m;
  }

  /** Once the squares 1 .. k hold the opponent's colour and the square k+1
      holds neither colour, d is not capturing. */
  lemma RunBroken(b: Board, o: Pos, d: Dir, color: Color, k: int)
    requires k >= 1
    requires forall j :: 1 <= j <= k ==> ColorAt(b, Step(o, d, j)) == Some(Rev(color))
    requires ColorAt(b, Step(o, d, k + 1)) == None
    ensures !Capturing(b, o, d, color)
  {
    forall m
      ensures !RunTo(b, o, d, color, m)
    {
      if 1 <= m <= k {
        assert ColorAt(b, Step(o, d, m)) == Some(Rev(color));
      } else if m > k + 1 {
        assert 1 <= k + 1 < m;
      }
    }
  }

  /** Capturing and Flanked along d read only the squares of the ray along d. */
  lemma RayLocal(a: Board, b: Board, o: Pos, d: Dir, color: Color)
    requires forall j :: j >= 1 ==> ColorAt(a, Step(o, d, j)) == ColorAt(b, Step(o, d, j))
    ensures Capturing(a, o, d, color) == Capturing(b, o, d, color)
    ensures forall p :: Flanked(a, o, d, color, p) == Flanked(b, o, d, color, p)
  {
    forall k
      ensures RunTo(a, o, d, color, k) == RunTo(b, o, d, color, k)
    {
    }
  }

  // ---------------------------------------------------------------------------
  // can_put_at decides Legal

  /** The walk of can_put_at, started inside an opponent run, reports exactly
      whether the direction is capturing. */
  lemma {:induction false} ScanFromCapturing(b: Board, o: Pos, d: Dir, color: Color, p: Pos)
    requires d in Diffs && Inside(o) && OnRay(o, d, p)
    requires forall j :: 1 <= j <= RayIndex(o, d, p) ==> ColorAt(b, Step(o, d, j)) == Some(Rev(color))
    ensures ScanFrom(b, o, d, color, p) == Capturing(b, o, d, color)
    decreases Size - RayIndex(o, d, p)
  {
    var k := RayIndex(o, d, p);
    NeighbourStep(o, d, k);
    var next := Step(o, d, k + 1);
    if !Inside(next) {
      RunBroken(b, o, d, color, k);
    } else {
      match ColorAt(b, next)
      case None =>
        RunBroken(b, o, d, color, k);
      case Some(c) =>
        if c == color {
          assert RunTo(b, o, d, color, k + 1);
        } else {
          OtherIsRev(color, c);
          NextOnRay(o, d, p);
          ScanFromCapturing(b, o, d, color, next);
        }
    }
  }

  /** One iteration of can_put_at's direction loop decides Capturing. */
  lemma DirCapturesCapturing(b: Board, o: Pos, d: Dir, color: Color)
    requires d in Diffs && Inside(o)
    ensures DirCaptures(b, o, d, color) == Capturing(b, o, d, color)
  {
    NeighbourStep(o, d, 0);
    var first := Step(o, d, 1);
    if !Inside(first) || ColorAt(b, first) != Some(Rev(color)) {
      if Capturing(b, o, d, color) {
        CapturingStartsWithOpponent(b, o, d, color);
      }
    } else {
      StepIndex(o, d, 1);
      ScanFromCapturing(b, o, d, color, first);
    }
  }

  lemma {:induction false} AnyDirFromCapturing(b: Board, o: Pos, color: Color, i: nat)
    requires Inside(o) && i <= |Diffs|
    ensures AnyDirFrom(b, o, color, i) <==> exists m :: i <= m < |Diffs| && Capturing(b, o, Diffs[m], color)
    decreases |Diffs| - i
  {
    if i < |Diffs| {
      DirCapturesCapturing(b, o, Diffs[i], color);
      AnyDirFromCapturing(b, o, color, i + 1);
    }
  }

  /** can_put_at is true exactly for legal moves: on the board, on an empty
      square, and with at least one capturing direction. */
  lemma CanPutAtIsLegal(b: Board, x: nat, y: nat, color: Color)
    ensures CanPutAt(b, x, y, color) == Legal(b, x, y, color)
  {
    if IsInside(x, y) {
      AnyDirFromCapturing(b, Pos(x, y), color, 0);
    }
  }

  // ---------------------------------------------------------------------------
  // put performs the captures

  /** The walk back paints exactly the squares 1 .. k of the ray, where k is
      where it starts. */
  lemma {:induction false} BacktrackPaints(b: Board, o: Pos, d: Dir, color: Color, p1: Pos)
    requires d in Diffs && Inside(o) && OnRay(o, d, p1) && Inside(p1)
    ensures forall q :: ColorAt(Backtrack(b, o, d, color, p1), q)
                        == if Within(o, d, q, RayIndex(o, d, p1)) then Some(color) else ColorAt(b, q)
    decreases RayIndex(o, d, p1)
  {
    var k := RayIndex(o, d, p1);
    var b1 := SetCell(b, p1, color);
    PrevOnRay(o, d, p1);
    var q1 := Neighbour(p1, Neg(d)).value;
    if q1 == o {
      forall q ensures Within(o, d, q, k) <==> q == p1 {
      }
    } else {
      BacktrackPaints(b1, o, d, color, q1);
      forall q ensures Within(o, d, q, k) <==> Within(o, d, q, k - 1) || q == p1 {
      }
    }
  }

  /** Under RunTo(k), the flanked squares along d are the squares 1 .. k-1. */
  lemma FlankedIsWithin(b: Board, o: Pos, d: Dir, color: Color, k: int)
    requires d in Diffs && RunTo(b, o, d, color, k)
    ensures forall q :: Flanked(b, o, d, color, q) <==> Within(o, d, q, k - 1)
  {
    forall q
      ensures Flanked(b, o, d, color, q) <==> Within(o, d, q, k - 1)
    {
      if Flanked(b, o, d, color, q) {
        var j, m :| 1 <= j < m && RunTo(b, o, d, color, m) && q == Step(o, d, j);
        RunToUnique(b, o, d, color, k, m);
        StepIndex(o, d, j);
      }
      if Within(o, d, q, k - 1) {
        var j := RayIndex(o, d, q);
        assert 1 <= j < k && RunTo(b, o, d, color, k) && q == Step(o, d, j);
      }
    }
  }

  /** Nothing is flanked along a direction that is not capturing. */
  lemma NotCapturingFlanksNothing(b: Board, o: Pos, d: Dir, color: Color)
    requires !Capturing(b, o, d, color)
    ensures forall q :: !Flanked(b, o, d, color, q)
  {
  }

  /** put's walk along d, started inside an opponent run, flips exactly the
      flanked squares and reports whether d is capturing. */
  lemma {:induction false} FlipScanFlips(b: Board, o: Pos, d: Dir, color: Color, p: Pos)
    requires d in Diffs && Inside(o) && OnRay(o, d, p) && Inside(p)
    requires forall j :: 1 <= j <= RayIndex(o, d, p) ==> ColorAt(b, Step(o, d, j)) == Some(Rev(color))
    ensures FlipScan(b, o, d, color, p).1 == Capturing(b, o, d, color)
    ensures forall q :: ColorAt(FlipScan(b, o, d, color, p).0, q)
                        == if Flanked(b, o, d, color, q) then Some(color) else ColorAt(b, q)
    decreases Size - RayIndex(o, d, p)
  {
    var k := RayIndex(o, d, p);
    NeighbourStep(o, d, k);
    var next := Step(o, d, k + 1);
    if !Inside(next) || ColorAt(b, next).None? {
      RunBroken(b, o, d, color, k);
      NotCapturingFlanksNothing(b, o, d, color);
    } else {
      var c := ColorAt(b, next).value;
      if c == color {
        assert RunTo(b, o, d, color, k + 1);
        BacktrackPaints(b, o, d, color, p);
        FlankedIsWithin(b, o, d, color, k + 1);
      } else {
        OtherIsRev(color, c);
        NextOnRay(o, d, p);
        FlipScanFlips(b, o, d, color, next);
      }
    }
  }

  /** One iteration of put's direction loop flips exactly the squares flanked
      along that direction. */
  lemma FlipDirFlips(b: Board, o: Pos, d: Dir, color: Color)
    requires d in Diffs && Inside(o)
    ensures FlipDir(b, o, d, color).1 == Capturing(b, o, d, color)
    ensures forall q :: ColorAt(FlipDir(b, o, d, color).0, q)
                        == if Flanked(b, o, d, color, q) then Some(color) else ColorAt(b, q)
  {
    NeighbourStep(o, d, 0);
    var first := Step(o, d, 1);
    if !Inside(first) || ColorAt(b, first) != Some(Rev(color)) {
      if Capturing(b, o, d, color) {
        CapturingStartsWithOpponent(b, o, d, color);
      }
      NotCapturingFlanksNothing(b, o, d, color);
    } else {
      StepIndex(o, d, 1);
      FlipScanFlips(b, o, d, color, first);
    }
  }

  /** A square on the ray along Diffs[i] is not flanked along any other direction. */
  lemma OtherRaysUntouched(b0: Board, o: Pos, color: Color, i: nat, j: int)
    requires i < |Diffs| && j >= 1
    ensures !FlankedBefore(b0, o, color, Step(o, Diffs[i], j), i)
  {
    if FlankedBefore(b0, o, color, Step(o, Diffs[i], j), i) {
      var m :| 0 <= m < i && Flanked(b0, o, Diffs[m], color, Step(o, Diffs[i], j));
      var j', k :| 1 <= j' < k && RunTo(b0, o, Diffs[m], color, k) && Step(o, Diffs[i], j) == Step(o, Diffs[m], j');
      RaysDisjoint(o, Diffs[i], Diffs[m], j, j');
      DiffsAreUnits();
    }
  }

  /** put's direction loop: if the board so far shows the original board b0 with
      the squares flanked along Diffs[0 .. i) flipped, the loop ends with every
      flanked square flipped, and success says whether some direction captured.
      Flips along one direction never disturb the scan of another, because the
      rays from one square are disjoint. */
  lemma {:induction false} FlipDirsFromFlips(b0: Board, b: Board, o: Pos, color: Color, i: nat, success: bool)
    requires Inside(o) && i <= |Diffs|
    requires forall q :: ColorAt(b, q) == if FlankedBefore(b0, o, color, q, i) then Some(color) else ColorAt(b0, q)
    requires success <==> exists m :: 0 <= m < i && Capturing(b0, o, Diffs[m], color)
    ensures FlipDirsFrom(b, o, color, i, success).1
            <==> exists m :: 0 <= m < |Diffs| && Capturing(b0, o, Diffs[m], color)
    ensures forall q :: ColorAt(FlipDirsFrom(b, o, color, i, success).0, q)
                        == if Captured(b0, o, color, q) then Some(color) else ColorAt(b0, q)
    decreases |Diffs| - i
  {
    if i < |Diffs| {
      var d := Diffs[i];
      forall j | j >= 1
        ensures ColorAt(b, Step(o, d, j)) == ColorAt(b0, Step(o, d, j))
      {
        OtherRaysUntouched(b0, o, color, i, j);
      }
      RayLocal(b, b0, o, d, color);
      FlipDirFlips(b, o, d, color);
      var (b1, flipped) := FlipDir(b, o, d, color);
      forall q
        ensures ColorAt(b1, q) == if FlankedBefore(b0, o, color, q, i + 1) then Some(color) else ColorAt(b0, q)
      {
        if Flanked(b0, o, d, color, q) {
          assert FlankedBefore(b0, o, color, q, i + 1);
        }
      }
      FlipDirsFromFlips(b0, b1, o, color, i + 1, success || flipped);
    }
  }

  /** The origin of the rays is never flanked. */
  lemma OriginNotCaptured(b: Board, o: Pos, color: Color)
    ensures !Captured(b, o, color, o)
  {
    forall i, j | 0 <= i < |Diffs| && 1 <= j
      ensures Step(o, Diffs[i], j) != o
    {
      StepNotOrigin(o, Diffs[i], j);
    }
  }

  /** The direction loop of a legal put leaves (x, y) empty and reports success. */
  lemma FlipLoopOfLegalMove(b: Board, x: nat, y: nat, color: Color)
    requires Legal(b, x, y, color)
    ensures FlipDirsFrom(b, Pos(x, y), color, 0, false).1
    ensures Cells.GetColor(FlipDirsFrom(b, Pos(x, y), color, 0, false).0[x][y]) == None
  {
    var o := Pos(x, y);
    FlipDirsFromFlips(b, b, o, color, 0, false);
    OriginNotCaptured(b, o, color);
    assert ColorAt(FlipDirsFrom(b, o, color, 0, false).0, o) == None;
  }

  /** The final `cells[x][y].put(color)` of a legal put always succeeds: the
      flips never touch (x, y), which can_put_at found empty. */
  lemma FinalPutSucceeds(b: Board, x: nat, y: nat, color: Color)
    requires CanPutAt(b, x, y, color)
    ensures Cells.Put(FlipDirsFrom(b, Pos(x, y), color, 0, false).0[x][y], color).1
  {
    CanPutAtIsLegal(b, x, y, color);
    FlipLoopOfLegalMove(b, x, y, color);
  }

  /** An illegal move is refused and leaves the board as it was. */
  lemma PutIllegal(b: Board, x: nat, y: nat, color: Color)
    requires !Legal(b, x, y, color)
    ensures Put(b, x, y, color) == (b, false)
  {
    CanPutAtIsLegal(b, x, y, color);
  }

  /** A legal move succeeds, puts `color` on (x, y), turns every captured stone
      to `color` and leaves every other square as it was. */
  lemma PutLegal(b: Board, x: nat, y: nat, color: Color)
    requires Legal(b, x, y, color)
    ensures Put(b, x, y, color).1
    ensures GetColor(Put(b, x, y, color).0, x, y) == Some(color)
    ensures forall q :: q != Pos(x, y) ==>
              ColorAt(Put(b, x, y, color).0, q) == if Captured(b, Pos(x, y), color, q) then Some(color) else ColorAt(b, q)
  {
    var o := Pos(x, y);
    CanPutAtIsLegal(b, x, y, color);
    FlipDirsFromFlips(b, b, o, color, 0, false);
    FlipLoopOfLegalMove(b, x, y, color);
    assert ColorAt(Put(b, x, y, color).0, o) == Some(color);
  }

  /** put succeeds exactly on legal moves, and a failed put changes nothing. */
  lemma PutSucceedsIffLegal(b: Board, x: nat, y: nat, color: Color)
    ensures Put(b, x, y, color).1 <==> Legal(b, x, y, color)
    ensures !Put(b, x, y, color).1 ==> Put(b, x, y, color).0 == b
  {
    if Legal(b, x, y, color) {
      PutLegal(b, x, y, color);
    } else {
      PutIllegal(b, x, y, color);
    }
  }

  // ---------------------------------------------------------------------------
  // can_put

  /** can_put as written never returns true: if some square is occupied that
      square is illegal, and if all are empty nothing can be captured at (0, 0). */
  lemma CanPutNeverTrue(b: Board, color: Color)
    ensures !CanPut(b, color)
  {
    CanPutAtIsLegal(b, 0, 0, color);
    if CanPutAt(b, 0, 0, color) {
      var i :| 0 <= i < |Diffs| && Capturing(b, Pos(0, 0), Diffs[i], color);
      CapturingStartsWithOpponent(b, Pos(0, 0), Diffs[i], color);
      var p := Step(Pos(0, 0), Diffs[i], 1);
      assert p.x >= 0 && p.y >= 0 && GetColor(b, p.x, p.y).Some?;
      assert !CanPutAt(b, p.x, p.y, color);
    }
  }

  /** The documented can_put: true exactly when some square is a legal move. */
  lemma CanPutSomewhereIsLegal(b: Board, color: Color)
    ensures CanPutSomewhere(b, color) <==> exists x: nat, y: nat :: x < Size && y < Size && Legal(b, x, y, color)
  {
    forall x: nat, y: nat {
      CanPutAtIsLegal(b, x, y, color);
    }
  }
}
