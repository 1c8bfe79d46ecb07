# Minefield memory: a verified model of the game's state machine

The game is played on a square grid of `squares` cells, `side = sqrt(squares)` per row,
numbered row by row from 0 (top left) to `squares - 1` (bottom right). Each round runs in
three stages:

1. A leader walks from cell 0 to the final cell, one timed tick at a time. On the right
   edge it is forced down. Otherwise, on the bottom row it is forced right. Anywhere else a
   coin toss decides between right and down. Every cell it stands on gets a `data-path`
   marker.
2. The player then retraces the trail, with the arrow keys on wide screens or by clicking
   the right or lower neighbour on narrow ones.
3. Reaching the final cell wins the round. The restart scores a point and shortens the turn
   by 5 %. Stepping on any other unmarked cell loses.

The model has six modules:

- `Board` gives the geometry: the four inline edge tests, row and column, and the floor
  square root used for `Math.sqrt`.
- `Difficulties` holds the difficulty catalog, the per-win speed decay and the pick of a
  victory message.
- `Leader` models `determineLeaderPosition` as the pure step `Next`. It also has the
  leader's paths and the walk for a given sequence of coin tosses.
- `Moves` covers the keyboard guards, the click targets, the move a click makes, and the
  verdict of `winOrLose`.
- `GameModel` models the page state as a class `Game`. Its fields are `leaderPos`,
  `playerPos`, the trail `array<bool>`, `score`, `movementEnabled` and the selected
  difficulty. It also has a `phase` that says which scheduled callback comes next. Each
  callback or input handler is one method:
  - `StartGame`, `LeaderTick` and `BeginPlayerTurn` for the turn flow;
  - `KeyDown` and `Click` for input, with `MovePlayer` as `updateCharacterPosition`
    followed by `winOrLose`;
  - `FinishWin` for the delayed restart after a win.
- `Scenarios` plays two rounds on the Easy board through those methods, with the coin
  tosses fixed.

`Game.Valid()` is the invariant every method keeps:

- the trail marks exactly the cells of the leader's path so far;
- that path starts at 0 and takes only right and down steps;
- once the path is complete it ends on the final cell;
- the selected difficulty is the catalog entry decayed once per point scored.

## Model

`goRight` is the branch `randomNumber === 0` (`assets/js/main.js:180-181`). So a leader that
always goes right marks 0, 1, 2, 3, 7, 11, 15, and one that always goes down marks
0, 4, 8, 12, 13, 14, 15; the two members of `Scenarios` play those rounds.

| member | source | states |
|---|---|---|
| Board.SqrtFrom | assets/js/main.js:49 | the result `r` is the floor square root: `r*r <= n < (r+1)*(r+1)` |
| Board.SqrtOfSquare | assets/js/main.js:170 | `Math.sqrt` of a perfect square `k*k` is exactly `k` |
| Board.CoordsOf | assets/js/main.js:170 | every cell has a row and a column in `[0, side)` and is `row*side + col` |
| Board.CellAt | assets/js/main.js:170 | every in-grid row and column names a cell on the board and gives them back |
| Board.EdgesAt | assets/js/main.js:170-173 | the inline `%` and range tests say "last column", "first column", "last row" and "first row", in both directions |
| Board.FinalAt | assets/js/main.js:147 | the final cell `squares-1` is the cell in the last row and the last column, and no other |
| Board.StepRight | assets/js/main.js:206-209 | `+1` from any column but the last stays in the row and moves one column right |
| Board.StepLeft | assets/js/main.js:211-214 | `-1` from any column but the first stays in the row and moves one column left |
| Board.StepDown | assets/js/main.js:216-219 | `+side` from any row but the last stays in the column and moves one row down |
| Board.StepUp | assets/js/main.js:221-224 | `-side` from any row but the first stays in the column and moves one row up |
| Board.GuardedMovesStayOnBoard | assets/js/main.js:205-224 | each of the four guarded moves lands on the board |
| Difficulties.BoardOf | assets/js/main.js:49 | a well-formed difficulty gives a board with `side*side == squares` and `side >= 2` |
| Difficulties.CatalogWellFormed | assets/js/main.js:29-41 | the catalog has three entries, each a perfect square with an exact side of at least 4 and a positive speed |
| Difficulties.Decay | assets/js/main.js:108 | the factor after `wins` wins lies in `(0, 1]`, and is below 1 once a round is won |
| Difficulties.DecayShrinks | assets/js/main.js:108 | more wins never lengthen the turn; at least one more win strictly shortens it, and it stays positive |
| Difficulties.Decayed | assets/js/main.js:108 | one decay keeps the mode and the square count and strictly shortens a positive turn |
| Difficulties.AfterWins | assets/js/main.js:108 | the entry after `wins` wins keeps its mode and size, is the entry itself before any win, never has a longer turn than the entry, and has a strictly shorter one once a round is won |
| Difficulties.DecayedAfterWins | assets/js/main.js:108 | decaying the entry after `w` wins gives the entry after `w+1` wins |
| Difficulties.MessageIndex | assets/js/main.js:76 | `floor(u * 5)` for `u` in `[0, 1)` is a valid index into the five victory messages |
| Leader.RemainingBounds | assets/js/main.js:304 | the distance to the final cell is `2(side-1)` at cell 0, never negative, and zero only on the final cell |
| Leader.StepFacts | assets/js/main.js:166-187 | a right or down step lands on the board at a larger cell, keeps the row or the column, and shortens the distance by exactly one |
| Leader.MoveRoom | assets/js/main.js:170-176 | off the final cell, no cell is both on the right edge and on the bottom row, so the two forced branches never clash |
| Leader.Next | assets/js/main.js:166-187 | the leader's next cell is on the board and is a right step (not from the right edge) or a down step (not from the bottom row) |
| Leader.NextNearer | assets/js/main.js:166-187 | every leader move brings it one step closer to the final cell |
| Leader.NextChoosesSteps | assets/js/main.js:166-187 | the cells the policy can choose (either coin) are exactly the allowed right and down steps |
| Leader.NextInGrid | assets/js/main.js:170-186 | in grid terms: down in the last column, otherwise right in the last row, otherwise the coin's direction |
| Leader.ExtendPath | assets/js/main.js:311-312 | a tick off the final cell extends a leader path by a valid step |
| Leader.PathRemaining | assets/js/main.js:299-318 | the i-th cell of a leader path is `2(side-1) - i` steps from the final cell |
| Leader.PathLength | assets/js/main.js:304-309 | a leader path is at most `2*side - 1` long, reaches the final cell exactly at that length, and never passes it earlier |
| Leader.PathIncreasing | assets/js/main.js:157 | cells along a leader path strictly increase, and consecutive cells are right- or down-adjacent |
| Leader.Walk | assets/js/main.js:299-318 | for any coin tosses, the walk ends on the final cell after exactly as many moves as the start's distance, on board and by valid steps |
| Leader.WalkFromStart | assets/js/main.js:299-318 | from cell 0 every sequence of `2(side-1)` tosses gives a complete leader path of `2*side - 1` cells |
| Moves.ArrowMove | assets/js/main.js:205-228 | a key that moves at all moves by `+1`, `-1`, `+side` or `-side` and stays on the board |
| Moves.ArrowTargetIsGridNeighbour | assets/js/main.js:205-228 | the key handler's guards find exactly the grid neighbour in the key's direction, and ignore the key where there is none or it is not an arrow |
| Moves.ClickTargets | assets/js/main.js:243-268 | every clickable cell is on the board and one right or down step away; the set is empty exactly on the final cell |
| Moves.ClickTargetsAreLeaderMoves | assets/js/main.js:284-285 | the clickable cells are exactly the cells the leader could have moved to from the same cell |
| Moves.ClickMove | assets/js/main.js:272-276 | a click on a clickable cell moves the player onto that cell |
| Moves.LeaderStepIsPlayable | assets/js/main.js:252-266 | any leader step can be replayed by a click and by the right or down arrow |
| Moves.Judge | assets/js/main.js:145-152 | the final cell wins whether or not it is marked; any other unmarked cell loses; any other marked cell continues |
| GameModel.Game.constructor | assets/js/main.js:16-23 | the page as loaded: both characters on 0, score 0, movement off, no round under way |
| GameModel.Game.GenerateSquares | assets/js/main.js:45-53 | a fresh board of `squares` cells, none marked, every other field unchanged |
| GameModel.Game.StartGame | assets/js/main.js:321-330 | the board is rebuilt, cell 0 is the only marked cell, and the first tick has moved the leader to `Next(0)` |
| GameModel.Game.LeaderTick | assets/js/main.js:299-318 | the leader's cell is marked and nothing else in the trail changes; the leader moves by `Next` or, on the final cell, stays and the player's turn is pending |
| GameModel.Game.BeginPlayerTurn | assets/js/main.js:291-296 | movement is switched on, and the leader has by now made exactly `2(side-1)` moves |
| GameModel.Game.MovePlayer | assets/js/main.js:155-163 | the player moves by `move`; the verdict of `Judge` sets the phase, and movement is off exactly after a loss; score, trail and leader unchanged |
| GameModel.Game.KeyDown | assets/js/main.js:197-229 | with movement off, on the final cell, or for a key that is not an arrow or would cross an edge, nothing changes; otherwise exactly `ArrowMove` and the verdict follow; score and trail never change |
| GameModel.Game.Click | assets/js/main.js:270-281 | outside the player's turn or off the clickable cells nothing changes; otherwise the player lands on the clicked cell and the verdict follows |
| GameModel.Game.FinishWin | assets/js/main.js:125-133 | score + 1, both characters on 0, one 0.95 decay, movement off, a fresh trail marking only 0, the first leader tick taken |
| Scenarios.EasyRoundWon | assets/js/main.js:299-330 | on Easy, a leader that always goes right marks 0, 1, 2, 3, 7, 11, 15; replaying it wins, and the restart gives score 1 and a 1.425-second turn |
| Scenarios.EasyRoundLost | assets/js/main.js:145-152 | on Easy, a leader that always goes down marks exactly 0, 4, 8, 12, 13, 14, 15; down then right lands on the unmarked cell 5 and loses with score 0; after a later key the player is still on 5 |

## Left out

- DOM construction and styling are not modelled: square elements and their widths, clearing `innerHTML`, CSS class toggles, the difficulty buttons, and the score and message text. Only the square count and the `data-path` markers (the `trail` array) matter to the logic.
- The leader icon and the player icon are not modelled; `generateCharacter` is kept only for its trail marking.
- `setTimeout` delays are not modelled. Each scheduled callback is a method the caller invokes explicitly, and `phase` records which one is due.
- Speed is a Dafny `real`. `startingSpeed * 0.95` is exact here, so nothing is claimed about JavaScript floating-point values or the `* 1000` milliseconds.
- `Math.random` is not modelled. The leader's coin is the `goRight` parameter (`randomNumber === 0` means right), and the message pick is `MessageIndex(u)` for a given `u` in `[0, 1)`.
- The input mode is not chosen by viewport width. Both handlers are offered, so nothing covers a width of exactly 992, where neither branch installs input.
- Listener bookkeeping and `keyListenerActive` are not modelled. `Click` instead accepts exactly the cells in `ClickTargets` during the player's turn, which is where the listeners sit. After a loss the board is hidden, so no click can reach it. This holds within one input mode only. The key listener of `assets/js/main.js:232-235` stays installed for every later round. So if the window is narrowed after a keyboard round, keys and clicks are both live. A key move then does not re-place the click listeners, and a click on a stale target moves by `+side` (`assets/js/main.js:272-275`). The model does not capture that mixed mode.
- The `reset` flag is never set to true, so its guard is always open and is left out.
- `resetGame` reloads the page, which is the same as constructing a new `Game`.
- Square counts that are not perfect squares are not modelled. `Math.sqrt` is taken as the floor square root, and a board needs `side >= 2`; every catalog entry meets both.

