/** The game session: a board and the colour to move (src/reversi/context.rs;
    `Game` in src/main.rs). */
module Contexts {

  import opened Options
  import opened Colors
  import opened Directions
  import opened Boards
  import opened Rules

  datatype Context = Context(board: Board, turn: Color)

  /** A fresh session: empty board, Black to move. */
  function Default(): (r: Context)
    ensures r.turn == Black
    ensures forall p :: ColorAt(r.board, p) == None
  {
    Context(Boards.Default(), Black)
  }

  /** The four centre stones of the opening. */
  function Opening(p: Pos): Option<Color>
  {
    if p == Pos(3, 3) || p == Pos(4, 4) then Some(Black)
    else if p == Pos(3, 4) || p == Pos(4, 3) then Some(White)
    else None
  }

  /** Resets the board to the opening. The turn is left as it was. */
  function Init(ctx: Context): (r: Context)
    ensures r.turn == ctx.turn
    ensures forall p :: ColorAt(r.board, p) == Opening(p)
  {
    var b0 := Clear(ctx.board);
    var (b1, _) := Set(b0, 3, 3, Black);
    var (b2, _) := Set(b1, 4, 4, Black);
    var (b3, _) := Set(b2, 3, 4, White);
    var (b4, _) := Set(b3, 4, 3, White);
    Context(b4, ctx.turn)
  }

  /** Init as a new game needs it: the opening layout with Black, the first
      player, to move. */
  function Reset(ctx: Context): (r: Context)
    ensures r.turn == Black
    ensures forall p :: ColorAt(r.board, p) == Opening(p)
  {
    Context(Init(ctx).board, Black)
  }

  function GetTurn(ctx: Context): Color
  {
    ctx.turn
  }

  /** can_put for the colour to move, as written: never true. */
  function CanPut(ctx: Context): (r: bool)
    ensures !r
  {
    CanPutNeverTrue(ctx.board, ctx.turn);
    Boards.CanPut(ctx.board, ctx.turn)
  }

  /** The documented can_put for the colour to move: some square is a legal move. */
  function CanMove(ctx: Context): (r: bool)
    ensures r <==> exists x: nat, y: nat :: x < Size && y < Size && Legal(ctx.board, x, y, ctx.turn)
  {
    CanPutSomewhereIsLegal(ctx.board, ctx.turn);
    CanPutSomewhere(ctx.board, ctx.turn)
  }

  /** Whether the colour to move may play at (x, y). */
  function CanPutAt(ctx: Context, x: nat, y: nat): (r: bool)
    ensures r <==> Legal(ctx.board, x, y, ctx.turn)
  {
    CanPutAtIsLegal(ctx.board, x, y, ctx.turn);
    Boards.CanPutAt(ctx.board, x, y, ctx.turn)
  }

  /** Plays the colour to move at (x, y). On success the turn passes to the
      opponent; on failure the session keeps the board Board::put left, which
      is the board it had. */
  function Put(ctx: Context, x: nat, y: nat): (r: (Context, bool))
    ensures r.1 <==> Legal(ctx.board, x, y, ctx.turn)
    ensures !r.1 ==> r.0 == ctx
    ensures r.1 ==> r.0.turn == Rev(ctx.turn) && r.0.board == Boards.Put(ctx.board, x, y, ctx.turn).0
  {
    PutSucceedsIffLegal(ctx.board, x, y, ctx.turn);
    var (board, ok) := Boards.Put(ctx.board, x, y, ctx.turn);
    if !ok then (Context(board, ctx.turn), false)
    else (Context(board, Rev(ctx.turn)), true)
  }

  /** The turn is a two-state machine: a move flips it exactly when it succeeds. */
  lemma TurnAlternates(ctx: Context, x: nat, y: nat)
    ensures GetTurn(Put(ctx, x, y).0) == if Put(ctx, x, y).1 then Rev(GetTurn(ctx)) else GetTurn(ctx)
    ensures GetTurn(Put(Put(ctx, x, y).0, x, y).0) != GetTurn(ctx) ==> Put(ctx, x, y).1 != Put(Put(ctx, x, y).0, x, y).1
  {
    RevInvolution(ctx.turn);
  }

  /** Init yields the same board whatever the session held before, so it is idempotent. */
  lemma InitForgetsBoard(a: Context, b: Context)
    ensures Init(a).board == Init(b).board
    ensures Init(Init(a)) == Init(a)
  {
    SameColorsSameBoard(Init(a).board, Init(b).board);
    SameColorsSameBoard(Init(Init(a)).board, Init(a).board);
  }

  /** A successful move leaves the other colour to move and changes only the
      placed square and the captured ones. */
  lemma PutMoveEffect(ctx: Context, x: nat, y: nat)
    requires Legal(ctx.board, x, y, ctx.turn)
    ensures Put(ctx, x, y).1
    ensures GetColor(Put(ctx, x, y).0.board, x, y) == Some(ctx.turn)
    ensures forall q :: q != Pos(x, y) ==>
              ColorAt(Put(ctx, x, y).0.board, q)
              == if Captured(ctx.board, Pos(x, y), ctx.turn, q) then Some(ctx.turn) else ColorAt(ctx.board, q)
  {
    PutLegal(ctx.board, x, y, ctx.turn);
  }
}
