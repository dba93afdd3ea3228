# Reversi rules engine — Dafny model

A model of the rules engine of the `reverust` Reversi game: the stone colour
(`Color`), a square (`Cell`), the fixed 8×8 board (`Board`) with its
legality test `can_put_at`, its scan-then-backtrack flip `put` and its
whole-board query `can_put`, and the game session (`Context`, called `Game`
in `src/main.rs`) that owns a board and the colour to move.

Every Rust method that mutates `self` and returns a flag is modelled as a pure
function returning the new value together with that flag, so
`board.put(x, y, c) -> bool` becomes `Boards.Put(b, x, y, c): (Board, bool)`.
The loops are written as recursive functions that follow the source's
branches one for one (`ScanFrom`, `FlipScan`, `Backtrack`, `DirCaptures`,
`FlipDir`, ...).

Files and modules:

| file | module | models |
|---|---|---|
| options.dfy | `Options` | Rust's `Option` |
| color.dfy | `Colors` | `src/reversi/color.rs` |
| cell.dfy | `Cells` | `src/reversi/cell.rs` |
| directions.dfy | `Directions` | `DIFFS`, `relative_pos` and the geometry of rays from `src/reversi/board.rs` |
| board.dfy | `Boards` | `src/reversi/board.rs`, as written |
| rules.dfy | `Rules` | the capture rule stated declaratively, and the proofs that `Boards` decides and performs it |
| context.dfy | `Contexts` | `src/reversi/context.rs` |
| driver.dfy | `Driver` | the first moves of the demo driver in `src/main.rs`, and the two defects below |

The rule is stated independently of the scans: `Rules.RunTo(b, o, d, c, k)`
says that the squares 1 .. k-1 steps from `o` along `d` hold the opponent's
colour and square k holds `c`; a direction is `Capturing` when some such k
exists; a move is `Legal` when the square is on the board, empty, and some
direction of `DIFFS` is capturing; a square is `Captured` when it lies
strictly between the new stone and the bracketing stone of a capturing
direction. The main results are `Rules.CanPutAtIsLegal` (the scan decides
`Legal`) and `Rules.PutLegal` / `Rules.PutIllegal` (the flip does exactly the
captures). The flip proof rests on `Directions.RaysDisjoint`: the eight rays
from one square share no square, so the flips of one direction cannot change
the scan of a later one, and the new stone is written only after all of them.

`src/main.rs` holds a verbatim copy of the four types (`Context` renamed
`Game`); the same members model both. Line correspondence:

| `src/reversi/` | `src/main.rs` |
|---|---|
| color.rs:1-14 | 4-17 |
| cell.rs:3-44 | 32-73 |
| board.rs:4-192 | 78-266 |
| context.rs:3-46 | 272-315 |

In two places the code does not do what its documentation and its use
suggest: `can_put` has a universal short-circuit where its doc comment asks
"can it be placed anywhere?", and `init` does not hand the move back to Black.
The model follows the code in both, and reports them under Findings with a
corrected version beside each.

## Model

| member | source | states |
|---|---|---|
| `Colors.Rev` | src/reversi/color.rs:9-14 | the complement is never the colour itself |
| `Colors.RevInvolution` | src/reversi/color.rs:9-14 | turning a stone over twice gives back its colour |
| `Colors.OtherIsRev` | src/reversi/color.rs:2-14 | a colour differs from `c` exactly when it is `rev(c)`, so "not mine" means "the opponent's" in the scans |
| `Colors.RevInjective` | src/reversi/color.rs:9-14 | distinct colours have distinct complements |
| `Cells.Put` | src/reversi/cell.rs:13-20 | succeeds exactly on an empty cell and then holds the colour; on an occupied cell fails and leaves it as it was |
| `Cells.PutVersusSet` | src/reversi/cell.rs:9-44 | default and cleared cells are empty; `set` always leaves the colour; `put` equals `set` on an empty cell and is a no-op on an occupied one |
| `Directions.Neighbour` | src/reversi/board.rs:50-60 | the neighbour exists exactly when it is on the board, and then lies one step along the direction |
| `Directions.DiffsAreUnits` | src/reversi/board.rs:62-71 | `DIFFS` is exactly the eight non-zero unit vectors, each once |
| `Directions.RaysDisjoint` | src/reversi/board.rs:62-71 | two rays from one square meet only if they are the same direction at the same distance |
| `Directions.NextOnRay` | src/reversi/board.rs:89-91 | walking on along a ray stays on that ray, one step further, still fewer than 8 steps out |
| `Directions.PrevOnRay` | src/reversi/board.rs:98-106 | walking back from the k-th square of a ray always has a neighbour, which is the origin exactly when k = 1: the `unwrap` cannot fail |
| `Boards.Default` | src/reversi/board.rs:4-7 | the derived default board is empty |
| `Boards.GetColor` | src/reversi/board.rs:35-40 | off the board the answer is `None` |
| `Boards.Set` | src/reversi/board.rs:42-48 | off the board: false and no change; on the board: true and exactly that square now holds the colour |
| `Boards.Clear` | src/reversi/board.rs:186-192 | every square is empty afterwards |
| `Boards.SameColorsSameBoard` | src/reversi/board.rs:4-7 | a board is determined by the colours on its squares |
| `Boards.CanPutAt` | src/reversi/board.rs:129-137 | never true off the board or on an occupied square |
| `Boards.ColsFrom` | src/reversi/board.rs:178-182 | the inner loop of `can_put` is true iff every remaining square of the row is playable |
| `Boards.RowsFrom` | src/reversi/board.rs:177-183 | the outer loop of `can_put` is true iff every square of the remaining rows is playable |
| `Boards.CanPut` | src/reversi/board.rs:176-185 | true iff the colour can be played on every one of the 64 squares |
| `Boards.SomeColFrom` | src/reversi/board.rs:178-182 | the corrected inner loop is true iff some remaining square of the row is playable |
| `Boards.SomeRowFrom` | src/reversi/board.rs:177-183 | the corrected outer loop is true iff some square of the remaining rows is playable |
| `Boards.CanPutSomewhere` | src/reversi/board.rs:175-185 | the documented "can it be placed anywhere?": true iff some square is playable |
| `Rules.RunToUnique` | src/reversi/board.rs:147-158 | a capturing direction has a single bracketing stone |
| `Rules.CapturingStartsWithOpponent` | src/reversi/board.rs:140-146 | the first square of a capturing direction holds the opponent's colour |
| `Rules.RunBroken` | src/reversi/board.rs:147-167 | a run of opponent stones that ends at an empty square or the edge does not capture |
| `Rules.RayLocal` | src/reversi/board.rs:138-170 | whether a direction captures, and what it flanks, depends only on the squares of that ray |
| `Rules.ScanFromCapturing` | src/reversi/board.rs:147-167 | the walk of `can_put_at` over an opponent run reports exactly whether the direction captures |
| `Rules.DirCapturesCapturing` | src/reversi/board.rs:140-170 | one iteration of the direction loop reports exactly whether that direction captures |
| `Rules.AnyDirFromCapturing` | src/reversi/board.rs:138-173 | the direction loop is true iff some remaining direction captures |
| `Rules.CanPutAtIsLegal` | src/reversi/board.rs:129-173 | `can_put_at` is true iff the square is on the board, empty, and some direction captures |
| `Rules.BacktrackPaints` | src/reversi/board.rs:98-106 | the walk back paints exactly the squares 1 .. k of the ray and nothing else |
| `Rules.FlankedIsWithin` | src/reversi/board.rs:94-106 | when square k brackets the run, the flanked squares are exactly squares 1 .. k-1 |
| `Rules.NotCapturingFlanksNothing` | src/reversi/board.rs:112-119 | a direction that does not capture flanks no square |
| `Rules.FlipScanFlips` | src/reversi/board.rs:88-120 | the walk of `put` flips exactly the flanked squares of its direction and reports whether it captures |
| `Rules.FlipDirFlips` | src/reversi/board.rs:81-123 | one iteration of `put`'s direction loop flips exactly the squares flanked along it |
| `Rules.OtherRaysUntouched` | src/reversi/board.rs:79-124 | a square of one ray is never flanked along an earlier direction |
| `Rules.FlipDirsFromFlips` | src/reversi/board.rs:78-124 | after the direction loop every captured square holds the colour, all others are as before, and `success` says whether any direction captured |
| `Rules.OriginNotCaptured` | src/reversi/board.rs:79-124 | the flips never touch the square being played |
| `Rules.FlipLoopOfLegalMove` | src/reversi/board.rs:78-124 | on a legal move the loop reports success and leaves the played square empty |
| `Rules.FinalPutSucceeds` | src/reversi/board.rs:125 | the closing `cells[x][y].put(color)` of a legal move always succeeds |
| `Rules.PutIllegal` | src/reversi/board.rs:73-77 | an illegal move returns false and leaves the board unchanged |
| `Rules.PutLegal` | src/reversi/board.rs:73-127 | a legal move returns true, puts the stone, turns exactly the captured stones and leaves every other square unchanged |
| `Rules.PutSucceedsIffLegal` | src/reversi/board.rs:73-127 | `put` succeeds iff the move is legal, and a failed `put` changes nothing |
| `Rules.CanPutNeverTrue` | src/reversi/board.rs:176-185 | `can_put` as written is false on every board and for both colours |
| `Rules.CanPutSomewhereIsLegal` | src/reversi/board.rs:175-185 | the corrected query is true iff some square is a legal move |
| `Contexts.Default` | src/reversi/context.rs:39-46 | a fresh session has an empty board and Black to move |
| `Contexts.Init` | src/reversi/context.rs:11-17 | whatever the prior board, (3,3) and (4,4) hold Black, (3,4) and (4,3) White, all else empty; the turn is unchanged |
| `Contexts.InitForgetsBoard` | src/reversi/context.rs:11-17 | the board after `init` does not depend on the board before, so `init` is idempotent |
| `Contexts.Reset` | src/reversi/context.rs:11-17 | the corrected `init`: the opening layout with Black to move |
| `Contexts.CanPut` | src/reversi/context.rs:23-25 | `can_put` for the colour to move, delegating to the board, is always false |
| `Contexts.CanMove` | src/reversi/context.rs:23-25 | the corrected query is true iff the colour to move has a legal move |
| `Contexts.CanPutAt` | src/reversi/context.rs:27-29 | true iff the move is legal for the colour to move |
| `Contexts.Put` | src/reversi/context.rs:31-37 | succeeds iff the move is legal; on failure board and turn are unchanged; on success the board is the board `put` and the turn passes |
| `Contexts.TurnAlternates` | src/reversi/context.rs:19-37 | the turn changes exactly on a successful move, to the other colour |
| `Contexts.PutMoveEffect` | src/reversi/context.rs:31-37 | a legal move puts the mover's stone, turns exactly the captured stones and leaves everything else as it was |
| `Driver.StartAtOpening` | src/main.rs:329-330 | the driver's starting session shows the opening with Black to move |
| `Driver.FirstMoveLegal` | src/main.rs:332 | Black may play (2,4) from the opening |
| `Driver.FirstMoveCaptures` | src/main.rs:332 | from the opening, (2,4) captures (3,4) but neither (4,3) nor (2,5) |
| `Driver.FirstMove` | src/main.rs:344-347 | after (2,4): (2,4), (3,4) and (4,4) are Black, (4,3) White, (2,5) empty, White to move |
| `Driver.SecondMoveLegal` | src/main.rs:333 | White may then answer at (2,5) |
| `Driver.DriverOpening` | src/main.rs:329-351 | the driver's first two moves both succeed |
| `Driver.CanPutMissesOpeningMove` | src/reversi/board.rs:175-185 | at the opening `can_put` says Black cannot move although the corrected query finds a move |
| `Driver.InitKeepsStaleTurn` | src/reversi/context.rs:11-17 | `init` after Black's first move leaves White to move; `Reset` gives back the starting session |

## Left out

- The `Display` impls of all four types (text rendering; they print `cells[x]` as one line, so the picture is transposed relative to (x, y)).
- The console output of the `main()` driver; only its first two moves are stated, as lemmas.
- `len_x` / `len_y`: the array type fixes both at 8, so the model uses the constant `Size` = 8.
- The `usize` / `i32` casts in `relative_pos`: coordinates are unbounded integers and a neighbour exists only inside [0,8)²; every caller checks the bounds first, so wrap-around cannot arise.
- In-place mutation: every mutating method is a function returning the new value, so aliasing is not modelled.
- `Context::get_turn` is the field access `Contexts.GetTurn`; it has no contract of its own and is covered by `Contexts.TurnAlternates`.
- Game-over detection and scoring, which the code does not have.

## Findings

| source | as written | input that shows it | evidently intended | confidence | as-written member | corrected member |
|---|---|---|---|---|---|---|
| src/reversi/board.rs:176-185 | returns false at the first square where `can_put_at` fails, so it asks whether every square is playable, which never holds | the opening position with Black to move: (0,0) is not playable, yet (2,4) is | true iff some square is playable, as the doc comment "どこかに置けるか？" ("can it be placed anywhere?") says | high; not executed | `Rules.CanPutNeverTrue` | `Boards.CanPutSomewhere` |
| src/reversi/context.rs:11-17 | resets the board but not `turn` | `init` after Black's first move (2,4) leaves White to move on a fresh opening | a new game starts with Black to move | medium (the doc comment only promises to reset the board); not executed | `Driver.InitKeepsStaleTurn` | `Contexts.Reset` |
