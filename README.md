# Kalah board, minimax player and game loop in Dafny

This project models the engine of a Kalah (Mancala) game written in Rust.
The engine has two rows of numbered pits, one per side (North and South), and
one pot per side, called hole 0. The model covers four parts:

- **The board** (`src/board.rs`): reading and writing pits and pots, sweeping a
  pit into a pot, summing beans, and sowing. Sowing takes every bean from one
  pit and drops them one at a time around a ring of `2 * holes + 1` slots. The
  ring holds both rows of pits and the sower's own pot. The opponent's pot is
  skipped.
- **The minimax search** (`src/smart_player.rs`): `evaluate_board` and
  `SmartPlayer::choose_move`. The search tries every legal hole and applies the
  capture rule. A chain of extra turns is followed on a work stack. Finished
  turns are scored one level down for the opponent, and the scores are combined
  by max for South and by min for North.
- **The game loop** (`src/game.rs`): `make_move` either sows the chosen hole, or
  sweeps the opponent's pits and ends the game. `play` alternates sides,
  starting with South.
- **The naive player** (`src/bad_player.rs`): it plays the first pit that holds
  a bean.

The board is a value (`Boards.Board`), because the search copies boards as it
branches. `set_beans` and `move_to_pot` are functions that return a success
flag and the new board. `sow`, `beans_in_play` and `total_beans` are methods
whose loops are proved equal to specification functions (`SowResult`, `Sum`,
`Total`). The search is specified by functions on board values (`Finished`,
`Evaluation`). The methods `CollectFinished`, `ScoreAll`, `SelectBest` and
`Evaluate` follow the source's loops and its explicit stack, and each is proved
equal to its specification. The game is a class whose `MakeMove` and `Play`
update the board, `isOver` and `winner` in place. A player is reduced to its
`choose_move`, given as a function value.

Files: `wrappers.dfy` (Option), `board.dfy`, `sowing.dfy`, `sow_examples.dfy`
(the board's two unit tests), `smart_player.dfy`, `game.dfy`, `bad_player.dfy`
and `findings.dfy`.

Notes on the code's behaviour, which the model follows:

- The search credits a whole chain of extra turns to the chain's first hole. It
  does not spend depth on an extra turn.
- When picking the best score, the search starts from the last candidate and
  replaces it only with a strictly better one. So the last candidate is kept
  when no candidate beats it, and otherwise the earliest candidate with the
  best score wins.
- At depth 0 the score is the plain pot difference, with no saturation.
- The comment on `make_move` (src/game.rs:85-91) asks for a complete move: any
  extra turns taken and any capture completed. The code does neither. It sows
  the chosen hole once, with no capture rule and no extra turn, and the model
  does the same.

## Model

| member | source | states |
|---|---|---|
| `Boards.Opponent` | src/board.rs:7-14 | the opponent is always the other side |
| `Boards.NewBoard` | src/board.rs:25-35 | a non-positive hole count becomes 1; every pit of both sides holds the initial count; both pots are 0 |
| `Boards.NewBoardTotal` | src/board.rs:25-35 | a new board holds `2 * holes * initial` beans, an even number |
| `Boards.Beans` | src/board.rs:40-58 | a hole below 0 or above `holes()` reads as the sentinel -1 |
| `Boards.BeansNonNegative` | src/board.rs:40-58 | with no negative count on the board, a read is non-negative exactly when the hole is in `[0, holes()]`, so -1 is never a real count |
| `Boards.SetBeans` | src/board.rs:109-137 | succeeds exactly when the hole is in `[0, holes()]` and the count is non-negative; on failure the board is unchanged; on success that one slot holds the count and every other slot is unchanged |
| `Boards.SetBeansTotal` | src/board.rs:109-137 | the total changes by exactly the difference written, and counts stay non-negative |
| `Boards.MoveToPot` | src/board.rs:82-108 | succeeds exactly for a pit `1..holes()` (never a pot); the pit becomes 0; the owner's pot gains the pit's old count; nothing else changes |
| `Boards.MoveToPotConserves` | src/board.rs:82-108 | moving a pit into a pot keeps `total_beans` and non-negativity |
| `Boards.BeansInPlay` | src/board.rs:59-70 | the accumulation loop returns the sum of the side's pits, pot excluded |
| `Boards.TotalBeans` | src/board.rs:71-81 | the loops return the sum of both rows and both pots |
| `Boards.InPlayPositiveIffLegalMove` | src/board.rs:59-70 | `beans_in_play(s) > 0` exactly when some pit of `s` holds a bean |
| `Sowing.NextLocation` | src/board.rs:164-201 | the next location is a hole in `[0, holes()]`, and it is hole 0 only on the sower's own side, so the opponent's pot is never entered |
| `Sowing.RingStep` | src/board.rs:171-199 | for a fixed sower each step advances one slot on a ring of `2 * holes + 1` slots |
| `Sowing.RingPeriod` | src/board.rs:171-199 | `2 * holes + 1` steps from any reachable location return to it |
| `Sowing.SowResult` | src/board.rs:139-162 | sow is rejected exactly for a hole outside `1..holes()`; otherwise it ends on a location of the sower's ring |
| `Sowing.Sow` | src/board.rs:139-162 | the counting-down loop produces exactly the board and end location of `SowResult` |
| `Sowing.SowConserves` | src/board.rs:139-162 | a sow keeps `total_beans` and non-negative counts |
| `Sowing.SowSkipsOpponentPot` | src/board.rs:152-156 | a sow never changes the opponent's pot |
| `Sowing.SowSkipsOpponentPotAll` | src/board.rs:139-162 | for any requested hole, the opponent's pot is unchanged |
| `Sowing.SowEmptyPit` | src/board.rs:146-152 | sowing an empty pit changes nothing and ends at the source pit |
| `Sowing.SowEndsInOwnPot` | src/board.rs:152-159 | a sow that ends in a pot ends in the sower's own pot, which has grown |
| `Sowing.SowDistribution` | src/board.rs:146-156 | with k beans taken, every ring location gains `k / (2n+1)` beans, plus 1 if it is within the last partial lap; the source pit starts from 0 |
| `Sowing.SowLastLocation` | src/board.rs:152-159 | the last bean lands `(k-1) % (2n+1) + 1` slots past the source, or at the source when k is 0 |
| `SowExamples.SowFourByFour` | src/board.rs:211-228 | `new(4,4)`: sowing South hole 0 is rejected; sowing South hole 1 ends in South's pot with pot 1, hole 1 at 0, holes 2-4 at 5, North in play 16, South in play 15, total 32 |
| `SowExamples.SowManyLaps` | src/board.rs:231-248 | `new(2,61)`: sowing South hole 1 ends at South hole 2; South pot 12, holes 12 and 74; North pot 0, holes 73 and 73; in play 86 and 146; total 244 |
| `SmartPlayer.PlayHoleAt` | src/smart_player.rs:52-74 | sowing a cloned board and then applying the capture test gives exactly `PlayHole` |
| `SmartPlayer.PlayHoleConserves` | src/smart_player.rs:52-74 | a sow followed by its capture keeps the total and non-negative counts |
| `SmartPlayer.PlayHoleCapture` | src/smart_player.rs:58-74 | when the last bean lands in the mover's own empty pit and the opposite pit is non-empty, both pits are emptied into the mover's pot and every other pit and the opponent's pot are unchanged; otherwise the sown board is kept unchanged |
| `SmartPlayer.PlayHoleExtraTurn` | src/smart_player.rs:56-82 | a move ending at hole 0 ended in the mover's own pot, captured nothing, and grew that pot |
| `SmartPlayer.ExpandInto` | src/smart_player.rs:49-89 | the loop over one popped board's holes appends the finished candidates and pushes the extra-turn boards of `Expand`, in hole order |
| `SmartPlayer.ExpandGood` | src/smart_player.rs:76-87 | every pushed extra-turn board has strictly fewer beans outside the mover's pot, which is the model's termination measure for the stack loop |
| `SmartPlayer.DrainAppend` | src/smart_player.rs:47-48 | pushing boards on the stack means they are popped and expanded before the boards beneath them |
| `SmartPlayer.PopAndExpand` | src/smart_player.rs:47-89 | one pop-and-expand step keeps the set of boards still to finish, and strictly shrinks the remaining work |
| `SmartPlayer.CollectFinished` | src/smart_player.rs:37-90 | the stack loop collects exactly the finished turns `Finished(b, side, None)` |
| `SmartPlayer.FinishedSources` | src/smart_player.rs:76-87 | every turn finished after a chain started at hole `first` is credited to `first` |
| `SmartPlayer.RootSources` | src/smart_player.rs:49-51 | every finished turn from the root is credited to a hole in `1..holes()` holding a bean on the input board |
| `SmartPlayer.ExpandNoMoves` | src/smart_player.rs:49-51 | a side with no bean in any pit expands to nothing |
| `SmartPlayer.ScoreAll` | src/smart_player.rs:92-98 | the scoring loop builds `Scores`: each candidate scored one level down for the opponent |
| `SmartPlayer.ScoresAt` | src/smart_player.rs:92-98 | candidate i's score is `evaluate_board(child_i, depth-1, opponent).eval`, credited to candidate i's source |
| `SmartPlayer.TruncDiv` | src/smart_player.rs:106 | Rust's `/` truncates toward zero: the remainder is in `[0, d)` for a non-negative dividend and in `(-d, 0]` for a negative one |
| `SmartPlayer.TerminalEval` | src/smart_player.rs:100-128 | the terminal branch computes `TerminalScore`: the mover's pot compared with `total_beans / 2` |
| `SmartPlayer.TerminalVerdict` | src/smart_player.rs:100-128 | with an even total, the terminal score is `i32::MAX` exactly when South ends with more beans, `i32::MIN` when North does, and 0 on a tie |
| `SmartPlayer.ScanOutcome` | src/smart_player.rs:133-139 | the strict-improvement scan returns a score nothing beats: the starting one when nothing is strictly better, otherwise the earliest candidate with the best score |
| `SmartPlayer.PickBestChoice` | src/smart_player.rs:131-154 | the chosen evaluation is a candidate and no candidate is better; it is the popped last one unless some candidate beats it, and otherwise the earliest candidate with the best score |
| `SmartPlayer.SelectBest` | src/smart_player.rs:131-154 | the pop-then-scan loops compute `PickBest` |
| `SmartPlayer.EvaluationStatic` | src/smart_player.rs:30-35 | at depth 0 the score is South's pot minus North's pot, unsaturated, with hole 1 |
| `SmartPlayer.EvaluationNoMove` | src/smart_player.rs:100-128 | a side with no legal move finishes nothing and gets the terminal score with hole -1 |
| `SmartPlayer.EvaluationMove` | src/smart_player.rs:29-154 | past depth 0, hole -1 is returned exactly when no turn finishes, and then with the terminal score; otherwise the hole is legal on the input board |
| `SmartPlayer.EvaluationAttained` | src/smart_player.rs:92-154 | when turns finish, the result's score is some candidate's score one level down, and its hole is that candidate's source |
| `SmartPlayer.EvaluationOptimal` | src/smart_player.rs:131-154 | no finished candidate scores better for the mover (higher for South, lower for North) than the result |
| `SmartPlayer.Evaluate` | src/smart_player.rs:29-155 | the stack, scoring and selection loops with depth recursion compute exactly `Evaluation` |
| `SmartPlayer.ChooseMove` | src/smart_player.rs:166-183 | -1 when no pit of `s` holds a bean; otherwise the depth-5 search's hole, which is a legal hole whenever it is not -1 |
| `SmartPlayer.FixedChoice` | src/smart_player.rs:166-177 | corrected choose_move: -1 exactly when `s` has no legal move; otherwise a legal hole, and the search's hole whenever the search credits one |
| `SmartPlayer.ChooseMoveFixed` | src/smart_player.rs:166-183 | the corrected method returns `FixedChoice` |
| `Games.Game.constructor` | src/game.rs:18-26 | a new game holds the given board and players, is not over and has no winner |
| `Games.SweepEffect` | src/game.rs:113-115 | the sweep empties every swept pit into that side's own pot, adds their sum to it, and leaves the other side's pits and pot unchanged |
| `Games.SweepAll` | src/game.rs:113-115 | after the full sweep the opponent has no bean in play, its pot gained exactly its beans in play, and the mover's pits and pot are untouched |
| `Games.SweepConserves` | src/game.rs:113-115 | the sweep keeps the total and non-negative counts |
| `Games.TakeTurn` | src/game.rs:84-146 | the game ends exactly on choice -1; a hole the board rejects changes nothing; a legal sow leaves the opponent's pot alone |
| `Games.TakeTurnConserves` | src/game.rs:101-145 | both branches of make_move keep `total_beans` and non-negative counts |
| `Games.GameOverVerdict` | src/game.rs:113-128 | when the mover really has no move, after the sweep every bean is in a pot, and the winner is North or South exactly when that side holds more than half, None exactly on a tie |
| `Games.EarlyEndStrandsBeans` | src/game.rs:101-115 | when the player answers -1 while it still has beans, the game ends with beans left outside both pots |
| `Games.Game.MakeMove` | src/game.rs:84-146 | on -1 the opponent's pits are swept, the game is over with the pot-comparison winner, and the answer is false; otherwise exactly one sow and the answer true |
| `Games.RunConserves` | src/game.rs:148-158 | a whole game of alternating turns keeps the total and non-negative counts |
| `Games.RunVerdict` | src/game.rs:148-158 | between honest players a finished game has every bean in a pot and the majority holder as winner |
| `Games.Game.Play` | src/game.rs:148-158 | South moves first, sides alternate after every true answer, and play stops at the first false |
| `BadPlayer.FirstLegalFrom` | src/bad_player.rs:27-33 | returns -1 exactly when every pit from `from` on is empty; otherwise a legal hole with every pit before it empty |
| `BadPlayer.ChooseMove` | src/bad_player.rs:24-34 | -1 exactly when no pit holds a bean; otherwise a legal hole with every lower pit empty, i.e. the first legal move |
| `BadPlayer.ChoiceNoneIffNothingInPlay` | src/bad_player.rs:27-33 | the answer is -1 exactly when `beans_in_play(s) == 0` |
| `BadPlayer.AsPlayerHonest` | src/bad_player.rs:24-34 | the naive player answers -1 exactly when its side has no legal move |
| `BadPlayer.BadGameVerdict` | src/bad_player.rs:27-33 | a finished game between two naive players puts every bean in a pot and names the majority holder |
| `Findings.ForcedMoveDropped` | src/smart_player.rs:100-128 | on a fresh one-hole, one-bean board South has a legal hole, yet the search finishes no turn and answers `(i32::MIN, -1)` |
| `Findings.NewBoardForcedMoveDropped` | src/smart_player.rs:166-183 | `Board::new(1, 1)` is such a board: choose_move answers -1 with a legal move available |
| `Findings.WrittenPlayerNotHonest` | src/smart_player.rs:166-183 | choose_move as written can answer -1 while a legal move exists |
| `Findings.FixedPlayerHonest` | src/smart_player.rs:166-177 | the corrected choose_move answers -1 exactly when no legal move exists |
| `Findings.FixedGameVerdict` | src/game.rs:148-158 | a finished game between corrected smart players puts every bean in a pot and names the majority holder |

## Findings

| source | as written | input that shows it | evidently intended | confidence | as-written member | corrected member |
|---|---|---|---|---|---|---|
| src/smart_player.rs:166-183 | choose_move checks for a legal move and then returns the search's `best_move`. The search answers -1 when no finished turn exists, which happens when every legal move ends in the mover's pot and the extra turn has no move left. | `Board::new(1, 1)`, South to move: hole 1 is legal, its single bean lands in South's pot, and South then has no bean left. The search answers `(i32::MIN, -1)`, so choose_move answers -1. `make_move` then sweeps North's bean into North's pot and ends the game, with South's bean still in its pit. | -1 only when the side has no legal move (the comment at line 167) | not executed | `Findings.ForcedMoveDropped` | `SmartPlayer.FixedChoice` |

## Left out

- `src/human_player.rs`: interactive reading and parsing of a hole number from standard input.
- `Game::display`, `SmartPlayer`'s and `BadPlayer`'s console messages, and the winner announcement in `play`: console output only.
- `src/main.rs` (wiring of concrete players) and `src/player.rs`'s `get_name` and `is_interactive`. A player is only its `choose_move`, given as a function value.
- `Game::beans`, `Game::status` and `Board::holes`: plain reads of a field, which the model reads directly. `Game::status` is also never called.
- Rust's 32-bit integers: bean counts and sums are unbounded `int`, so overflow of the accumulators and of the pot difference is not modelled. `i32::MAX` and `i32::MIN` are named constants.
- Update in place: `set_beans`, `move_to_pot` and `sow` return a new board value instead of mutating one. The source never shares a board between owners, so no aliasing is lost. `Board::clone` becomes copying a value.
- The running time and the exponential size of the search: only its results are modelled.
- `SmartPlayer.Evaluate`: requires a board with no negative count. The model's termination measure for the extra-turn loop (beans outside the mover's pot) needs it, although the source's loop ends on every board. Boards built by `Board::new` with a negative initial count are not covered.
- `SmartPlayer.ChooseMove`: requires a board with no negative count, because it runs `Evaluate`. The same boards are not covered.
- `Games.Game.Play`: takes a bound on the number of turns, because an arbitrary player need never answer -1. A run that reaches the bound reports that it did not end.
