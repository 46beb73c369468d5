# Tic-tac-toe turn-and-result engine

This project models the engine of `Game` in `Assets/Game.cs`. `Game` is a Unity component for a
tic-tac-toe game played on an N x N board (N-in-a-row). The engine has three parts:

- the slot marks, `slots[x, y]`, where x is the column and y the row;
- the turn counter, `turnCount`;
- the interactable flag of every slot's button.

`OnClick(x, y)` does three things:

1. It writes `X` on even turns and `O` on odd turns.
2. It counts the turn.
3. It re-evaluates the whole board. It scans rows, then columns, then the main diagonal, then the
   anti-diagonal.

A win, or the MAX_TURNS-th click with no winner, ends the game, and every button becomes
non-clickable. The draw test is on the counter alone. The engine itself writes a cell without
checking it, so direct engine calls can announce a draw on a board that still has empty slots.
For clicks the host delivers, only empty slots are clickable. There the counter equals the number
of marked slots, and a draw is announced exactly when the board is full with no line
(`Engine.DrawExactlyWhenFull`).
The board side `LENGTH` is 5 in the source. Here it is a parameter `n`, from 2 to 46340 as the
comment at `Assets/Game.cs:6` allows.

The project has five modules:

- `Grid` (grid.dfy) defines marks (`Empty`, `X`, `O` in place of the strings `""`, `"X"`, `"O"`)
  and n x n boards as values. It also defines what it means for a row, a column or a diagonal to
  be complete, and it counts a board's empty cells.
- `Rules` (rules.dfy) holds the result rule as written: `Horizontal`, `Vertical`, `Diagonal` and
  `Result`. Lemmas characterise exactly what each scan reports, including its early stops.
  The module also holds the rule the code evidently intended, and boards on which the two differ.
- `Engine` (engine.dfy) is the state machine on values. A `Snapshot` holds the marks,
  `turnCount` and the clickable flags.
  - `Click` is `Game.OnClick`.
  - `SlotClick` is `Slot.OnClick`.
  - `Press` is a click as the host delivers it: a button that is not clickable does not fire.
  - `Run` and `Play` apply a sequence of clicks.
  - The lemmas state the turn, alternation and no-overwrite properties, that the counter equals
    the number of marked slots in every reachable state, and that a game is final
    once frozen.
- `Scene` (scene.dfy) is the class `Game`. The slot texts are an `array2<Mark>`, the button flags
  an `array2<bool>`, and `turnCount` is a field. Its methods are the source's loops: the three
  scans, `GetResult`, the flag-clearing loop of `SetResult`, `OnClick`, `Slot.OnClick` and the
  setup loops. Each method is proved against the functions of `Rules` and `Engine`.
- `Scenarios` (scenarios.dfy) plays whole games on the 3 x 3 board, click by click.

`Slot` is not a separate class here. `Slot.GetText`, `Slot.SetText` and `Slot.SetClickable` are
element reads and writes of `slots` and `clickable`. A `null` result of the scans is `Empty`.
This loses nothing, because a non-null result is always a non-empty mark.

The model follows the code:

- `OnClick` has no bounds check and no occupied-cell check, and returns no error. Bounds are a
  precondition. Occupancy is protected only by the buttons: a clicked slot stops being clickable.
  The engine itself overwrites a marked cell. The code has no out-of-bounds, occupied-cell or
  finished-game error results.
- After a win the engine still accepts clicks if they reach it. Only the frozen buttons stop the
  game (`FrozenIsFinal`).
- The clicks (0,0), (1,0), (2,0), (0,1), (1,1), (2,1), (1,2), (0,2), (2,2) fill the 3 x 3 board
  without a line only with marks assigned out of turn. With the marks `OnClick` alternates, X
  completes the main diagonal on the ninth click (`Scenarios.NinthClickDiagonalWin`).
  `Scenarios.DrawGame` plays an order that ends in a draw.
- The early stop of the row and column scans is not harmless (see Findings).

## Model

| member | source | states |
|---|---|---|
| `Rules.HorizontalFrom` | Assets/Game.cs:89-111 | The row scan from row y: a non-empty result is a mark that fills some row at or after y. |
| `Rules.Horizontal` | Assets/Game.cs:87-114 | A non-empty result of GetHorizontalResult is a mark that fills some whole row. |
| `Rules.HorizontalExact` | Assets/Game.cs:87-114 | GetHorizontalResult returns the non-empty m exactly when a row is complete with m and every earlier row has a non-empty leading cell and is not complete. This covers both directions. |
| `Rules.HorizontalStopsAtGap` | Assets/Game.cs:91-94 | Rows after the first row whose leading cell is empty never affect the result. |
| `Rules.HorizontalEmptyCorner` | Assets/Game.cs:91-94 | An empty slots[0, 0] makes GetHorizontalResult return nothing. |
| `Rules.VerticalFrom` | Assets/Game.cs:118-140 | The column scan from column x: a non-empty result is a mark that fills some column at or after x. |
| `Rules.Vertical` | Assets/Game.cs:116-143 | A non-empty result of GetVerticalResult is a mark that fills some whole column. |
| `Rules.VerticalIsTransposedHorizontal` | Assets/Game.cs:116-143 | The column scan is the row scan of the transposed board, so it is the exact mirror, early stop included. |
| `Rules.VerticalExact` | Assets/Game.cs:116-143 | GetVerticalResult returns the non-empty m exactly when a column is complete with m and every earlier column has a non-empty top cell and is not complete. |
| `Rules.Diagonal` | Assets/Game.cs:145-195 | A non-empty result fills the main diagonal or the anti-diagonal. A complete non-empty main diagonal is always reported. Otherwise a complete non-empty anti-diagonal is reported. An empty result means neither diagonal is complete with a mark. |
| `Rules.Result` | Assets/Game.cs:81-85 | GetResult gives the horizontal result if any, else the vertical, else the diagonal. A non-empty result fills a whole line. |
| `Rules.IntendedResultExact` | Assets/Game.cs:87-143 | The corrected rule, which skips rather than stops at an empty leading cell. It reports a mark exactly when some line is complete with a non-empty mark, and the mark it reports fills a line. |
| `Rules.RowWinMissed` | Assets/Game.cs:93-94 | On a concrete 3 x 3 board, row 1 is all X but GetResult reports nothing, while the corrected rule reports X. |
| `Rules.ColumnWinMissed` | Assets/Game.cs:122-123 | On a concrete 3 x 3 board, column 1 is all X but GetResult reports nothing, while the corrected rule reports X. |
| `Engine.Initial` | Assets/Game.cs:34-60 | The start state: turnCount is 0, every slot is empty and every slot is clickable. |
| `Engine.PlayerMark` | Assets/Game.cs:239 | The mark to place is never empty, and it is X exactly on even turns. |
| `Engine.Click` | Assets/Game.cs:234-253 | Once turnCount has reached MAX_TURNS, nothing changes and nothing is announced. Otherwise only cell (x, y) changes, to the current player's mark. turnCount rises by exactly 1 and stays within MAX_TURNS. A win is announced only for GetResult's mark, which fills a line. A draw is announced only when GetResult is empty and turnCount has reached MAX_TURNS. Any announcement clears every flag. Otherwise the flags are unchanged. |
| `Engine.SlotClick` | Assets/Game.cs:317-324 | The clicked slot ends non-clickable. Marks, counter and verdict are those of Game.OnClick. The other flags are kept unless a verdict clears them all. |
| `Engine.PressKeepsMarks` | Assets/Game.cs:317-324 | A click on a clickable slot never overwrites a mark and keeps every marked slot non-clickable. |
| `Engine.PressKeepsOpen` | Assets/Game.cs:244-252 | While undecided, a slot is clickable exactly when it is empty. A click on an empty slot keeps this, or it announces a verdict and freezes every slot. |
| `Engine.FrozenPressIgnored` | Assets/Game.cs:205-211 | Once every flag is cleared, a delivered click changes nothing. |
| `Engine.RunCountsTurns` | Assets/Game.cs:236-242 | From the start, each of up to MAX_TURNS clicks counts exactly one turn. |
| `Engine.KthClickMark` | Assets/Game.cs:239-242 | Turns alternate: the k-th click from the start writes X when k is even and O when k is odd. |
| `Engine.RunBoundsTurns` | Assets/Game.cs:236-242 | However many clicks reach the engine, turnCount never decreases, never exceeds MAX_TURNS, and rises by at most one per click. |
| `Engine.PlayKeepsMarks` | Assets/Game.cs:317-324 | Along any sequence of delivered clicks, marks are never overwritten and marked slots stay non-clickable. |
| `Engine.MarksAreNeverOverwritten` | Assets/Game.cs:317-324 | From the start, whatever clicks the host delivers, no placed mark is ever removed or replaced. |
| `Engine.FrozenIsFinal` | Assets/Game.cs:205-211 | After a verdict, no sequence of delivered clicks changes any cell, the counter or any flag. |
| `Engine.PressKeepsConsistent` | Assets/Game.cs:234-253 | A delivered click keeps turnCount plus the empty slots at MAX_TURNS. The game stays either open with turns left or frozen, and any verdict freezes it. |
| `Engine.PlayConsistent` | Assets/Game.cs:234-253 | Every state the host's clicks reach from the start has turnCount plus the empty slots equal to MAX_TURNS. It is open with turns left or frozen, and frozen whenever the last click announced a verdict. |
| `Engine.TurnsCountMarks` | Assets/Game.cs:239-242 | In every state the host's clicks reach, turnCount is the number of marked slots. |
| `Engine.DrawExactlyWhenFull` | Assets/Game.cs:244-252 | A click on a clickable slot of a reachable state announces a draw exactly when the new board is full and GetResult reports no line. |
| `Engine.TurnsFitInt32` | Assets/Game.cs:6-8 | For sides 2 to 46340, turnCount stays within a 32-bit signed int. |
| `Scene.Game.constructor` | Assets/Game.cs:34-60 | Start: turnCount is 0, every slot is empty, and every button is clickable. |
| `Scene.Game.GetHorizontalResult` | Assets/Game.cs:87-114 | The nested loops with their early break and return compute Rules.Horizontal of the current slots. |
| `Scene.Game.GetVerticalResult` | Assets/Game.cs:116-143 | The nested loops, with the inner loop starting at row 0, compute Rules.Vertical of the current slots. |
| `Scene.Game.GetDiagonalResult` | Assets/Game.cs:145-195 | The two diagonal loops compute Rules.Diagonal of the current slots. |
| `Scene.Game.GetResult` | Assets/Game.cs:81-85 | The chained scans compute Rules.Result of the current slots. |
| `Scene.Game.SetResult` | Assets/Game.cs:205-211 | Every button becomes non-clickable, and the slot texts are untouched. |
| `Scene.Game.OnClick` | Assets/Game.cs:234-253 | The new marks, counter, flags and verdict are exactly Engine.Click of the old state. |
| `Scene.Game.SlotOnClick` | Assets/Game.cs:317-324 | The new marks, counter, flags and verdict are exactly Engine.SlotClick of the old state. |
| `Scenarios.HorizontalWin` | Assets/Game.cs:234-253 | On 3 x 3, X takes the top row on turns 0, 2 and 4. The fifth click announces Win(X) and freezes every slot. |
| `Scenarios.DiagonalWin` | Assets/Game.cs:234-253 | On 3 x 3, X takes the main diagonal on turns 0, 2 and 4. The fifth click announces Win(X). |
| `Scenarios.DrawGame` | Assets/Game.cs:249-252 | On 3 x 3, nine alternating clicks fill the board with no line. The ninth click announces a draw and freezes every slot. |
| `Scenarios.NinthClickDiagonalWin` | Assets/Game.cs:239-248 | The clicks (0,0), (1,0), (2,0), (0,1), (1,1), (2,1), (1,2), (0,2), (2,2) fill the board without a line only with marks assigned out of turn. With the marks OnClick alternates, X completes the main diagonal on the ninth click and Win(X) is announced. |
| `Scenarios.MissedRowWin` | Assets/Game.cs:87-114 | In a legal game, X completes row 1 unreported, and O's next click is announced as the winner. |

## Findings

| source | as written | input that shows it | evidently intended | confidence | as-written member | corrected member |
|---|---|---|---|---|---|---|
| Assets/Game.cs:93-94 | An empty leading cell `slots[0, y]` ends the whole row scan (`break`), so a complete row below it is never seen. | A 3 x 3 board with X at (0,1), (1,1), (2,1), O at (1,0), (2,0), and (0,0) empty. Row 1 is all X, yet GetResult returns "". In play, O then wins by taking (0,0). | Skip that row (`continue`), so that every complete row is reported. | not executed; proved on the model | `Rules.RowWinMissed` | `Rules.IntendedResultExact` |
| Assets/Game.cs:122-123 | An empty top cell `slots[x, 0]` ends the whole column scan, so a complete column to its right is never seen. | A 3 x 3 board with X at (1,0), (1,1), (1,2), O at (0,1), (2,0), and (0,0) empty. Column 1 is all X, yet GetResult returns "". | Skip that column, so that every complete column is reported. | not executed; proved on the model | `Rules.ColumnWinMissed` | `Rules.IntendedResultExact` |

The class `Scene.Game` and the engine `Engine.Click` keep the scan as written, because they model
the code. `Rules.IntendedResult` is the corrected rule, and `Rules.IntendedResultExact` proves
that it reports a mark exactly when a line is complete.

## Left out

- Unity UI construction (`SetupGrid`, `Slot.SetupButton`, `Slot.SetupText`, `Slot.SetParent`)
  is engine plumbing with no game logic.
- `LateUpdate` / `UpdateGrid` do floating-point layout of the cell size.
- The timed callbacks (`Invoke`) and `OnShowResult` are host scheduling and panel visibility.
- `OnRestart` reloads the scene through a foreign engine call. There is no reset operation in the
  code, so none is modelled.
- The result text (`"<mark> WIN !!!"`, `"DRAWWW !!!"`) and its write to a `Text` component are
  modelled as the `Engine.Verdict` that `OnClick` returns; `SetResult` keeps only its
  flag-clearing loop.
- `Slot` objects, and the `null` check of `iSlotClick` in `Slot.OnClick`: the listener is always
  set by `SetupSlot`, so the slots are modelled as array elements.
- Unity's rule that a non-interactable button does not fire is an assumption of `Engine.Press`,
  not code in the repository.
- Error results for out-of-bounds, occupied-cell or finished-game clicks do not exist in the code.
  Coordinates are a precondition of `OnClick`.
