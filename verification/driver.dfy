/** The opening moves the demo driver of src/main.rs plays, and the two places
    where the code departs from its documented intent. */
module Driver {

  import opened Options
  import opened Colors
  import opened Directions
  import opened Boards
  import opened Rules
  import opened Contexts

  /** The session the driver starts from: a default session after Init. */
  function Start(): Context
  {
    Init(Contexts.Default())
  }

  /** A session showing the opening layout with Black to move. */
  ghost predicate AtOpening(g: Context)
  {
    g.turn == Black && forall p :: ColorAt(g.board, p) == Opening(p)
  }

  lemma StartAtOpening()
    ensures AtOpening(Start())
  {
  }

  /** Black's first move (2, 4) is legal: it brackets the White stone at (3, 4)
      against the Black stone at (4, 4). */
  lemma FirstMoveLegal(g: Context)
    requires AtOpening(g)
    ensures Legal(g.board, 2, 4, Black)
  {
    var o := Pos(2, 4);
    assert ColorAt(g.board, o) == Opening(o);
    assert Step(o, Diffs[2], 1) == Pos(3, 4) && Step(o, Diffs[2], 2) == Pos(4, 4);
    assert RunTo(g.board, o, Diffs[2], Black, 2);
  }

  /** What the first move captures, on any board showing the opening: (3, 4),
      but neither (4, 3), which no ray from (2, 4) reaches, nor the empty (2, 5). */
  lemma FirstMoveCaptures(b: Board)
    requires forall p :: ColorAt(b, p) == Opening(p)
    ensures Captured(b, Pos(2, 4), Black, Pos(3, 4))
    ensures !Captured(b, Pos(2, 4), Black, Pos(4, 3))
    ensures !Captured(b, Pos(2, 4), Black, Pos(2, 5))
  {
    var o := Pos(2, 4);
    assert Step(o, Diffs[2], 1) == Pos(3, 4) && Step(o, Diffs[2], 2) == Pos(4, 4);
    assert RunTo(b, o, Diffs[2], Black, 2);
    assert Flanked(b, o, Diffs[2], Black, Pos(3, 4));
    forall i, j | 0 <= i < |Diffs| && j >= 1
      ensures Step(o, Diffs[i], j) != Pos(4, 3)
    {
    }
    forall i, j | 0 <= i < |Diffs| && j >= 1 && Step(o, Diffs[i], j) == Pos(2, 5)
      ensures i == 0 && j == 1
    {
    }
    assert ColorAt(b, Step(o, Diffs[0], 1)) == None;
    if Capturing(b, o, Diffs[0], Black) {
      CapturingStartsWithOpponent(b, o, Diffs[0], Black);
    }
  }

  /** Playing (2, 4) from the opening succeeds, turns (3, 4) Black, keeps (4, 4)
      Black and passes the move to White; (4, 3) stays White and (2, 5) empty. */
  lemma FirstMove(g: Context)
    requires AtOpening(g)
    ensures Contexts.Put(g, 2, 4).1
    ensures var g1 := Contexts.Put(g, 2, 4).0;
            && GetColor(g1.board, 2, 4) == Some(Black)
            && GetColor(g1.board, 3, 4) == Some(Black)
            && GetColor(g1.board, 4, 4) == Some(Black)
            && GetColor(g1.board, 4, 3) == Some(White)
            && GetColor(g1.board, 2, 5) == None
            && g1.turn == White
  {
    var b := g.board;
    var o := Pos(2, 4);
    FirstMoveLegal(g);
    PutMoveEffect(g, 2, 4);
    FirstMoveCaptures(b);
    var b1 := Contexts.Put(g, 2, 4).0.board;
    assert ColorAt(b1, Pos(3, 4)) == Some(Black);
    assert ColorAt(b1, Pos(4, 4)) == Some(Black) by {
      assert ColorAt(b, Pos(4, 4)) == Some(Black);
    }
    assert ColorAt(b1, Pos(4, 3)) == Some(White) by {
      assert ColorAt(b, Pos(4, 3)) == Some(White);
    }
    assert ColorAt(b1, Pos(2, 5)) == None by {
      assert ColorAt(b, Pos(2, 5)) == None;
    }
  }

  /** After the first move White can answer at (2, 5), the driver's second
      move: it brackets the now Black stone at (3, 4) against White's (4, 3). */
  lemma SecondMoveLegal(g: Context)
    requires AtOpening(g)
    ensures Legal(Contexts.Put(g, 2, 4).0.board, 2, 5, White)
  {
    FirstMove(g);
    var b := Contexts.Put(g, 2, 4).0.board;
    var p := Pos(2, 5);
    assert Step(p, Diffs[5], 1) == Pos(3, 4) && Step(p, Diffs[5], 2) == Pos(4, 3);
    assert ColorAt(b, Pos(3, 4)) == Some(Black) && ColorAt(b, Pos(4, 3)) == Some(White);
    assert RunTo(b, p, Diffs[5], White, 2);
  }

  /** The driver's first two moves, from Start(), both succeed. */
  lemma DriverOpening()
    ensures Contexts.Put(Start(), 2, 4).1
    ensures Contexts.Put(Contexts.Put(Start(), 2, 4).0, 2, 5).1
  {
    StartAtOpening();
    FirstMove(Start());
    SecondMoveLegal(Start());
  }

  /** The universal can_put already fails at the opening, although Black has a
      legal move there; the existential version sees it. */
  lemma CanPutMissesOpeningMove()
    ensures !Contexts.CanPut(Start())
    ensures CanMove(Start())
  {
    StartAtOpening();
    FirstMoveLegal(Start());
    assert Legal(Start().board, 2, 4, Start().turn);
  }

  /** Init after a move keeps White to move, where a fresh
      game starts with Black; Reset restores that. */
  lemma InitKeepsStaleTurn()
    ensures Init(Contexts.Put(Start(), 2, 4).0).turn == White
    ensures Reset(Contexts.Put(Start(), 2, 4).0).turn == Black
    ensures Reset(Contexts.Put(Start(), 2, 4).0) == Start()
  {
    StartAtOpening();
    FirstMove(Start());
    InitForgetsBoard(Contexts.Put(Start(), 2, 4).0, Contexts.Default());
  }
}
