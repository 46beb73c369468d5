/** The turn-and-result engine of Game.cs as a state machine on values:
    the state OnClick reads and writes (the slot marks, turnCount and every
    slot's clickable flag), one click of the engine (Game.OnClick), one click
    of a slot (Slot.OnClick) and a click as the host delivers it (only on a
    clickable slot). The class in module Scene is proved against Click and
    SlotClick. */
module Engine {
  import opened Grid
  import opened Rules

  /** MAX_TURNS = LENGTH * LENGTH. */
  function MaxTurns(n: nat): nat
  {
    n * n
  }

  /** The engine's state: `cells[x][y]` is the text of slot (x, y),
      `turns` is turnCount and `clickable[x][y]` the slot's button flag. */
  datatype Snapshot = Snapshot(cells: seq<seq<Mark>>, turns: int, clickable: seq<seq<bool>>)

  /** What OnClick hands to SetResult: nothing, a win for a mark
      ("<mark> WIN !!!") or a draw ("DRAWWW !!!"). */
  datatype Verdict = Undecided | Win(winner: Mark) | Draw

  /** A state of an n x n game: both grids are n x n and turnCount lies
      between 0 and MAX_TURNS. */
  predicate Wf(n: nat, s: Snapshot)
  {
    IsSquare(s.cells, n) && IsSquare(s.clickable, n) && 0 <= s.turns <= MaxTurns(n)
  }

  /** The state after SetupRule and SetupSlot: turnCount is 0, every slot's
      text is empty and every button is clickable. */
  function Initial(n: nat): (s: Snapshot)
    ensures Wf(n, s) && s.turns == 0
    ensures forall x, y :: 0 <= x < n && 0 <= y < n ==> s.cells[x][y] == Empty && s.clickable[x][y]
  {
    Snapshot(Filled(n, Empty), 0, Filled(n, true))
  }

  /** The mark of the player whose turn it is: "X" on even turns, "O" on odd. */
  function PlayerMark(turns: int): (m: Mark)
    ensures m != Empty
    ensures m == X <==> turns % 2 == 0
  {
    if turns % 2 == 0 then X else O
  }

  /** The verdict OnClick reaches on board g after turnCount has become `turns`. */
  function Evaluate(g: seq<seq<Mark>>, n: nat, turns: int): (v: Verdict)
    requires IsSquare(g, n) && n > 0
  {
    var r := Result(g, n);
    if r != Empty then Win(r)
    else if turns >= MaxTurns(n) then Draw
    else Undecided
  }

  /** Game.OnClick(x, y). Once turnCount has reached MAX_TURNS nothing changes.
      Otherwise the current player's mark is written into slot (x, y), whatever
      it held, turnCount goes up by one, and the board is evaluated; a win or a
      draw makes every slot non-clickable. */
  function Click(n: nat, s: Snapshot, x: int, y: int): (r: (Snapshot, Verdict))
    requires Wf(n, s) && 0 <= x < n && 0 <= y < n
    ensures Wf(n, r.0)
    ensures s.turns >= MaxTurns(n) ==> r == (s, Undecided)
    ensures s.turns < MaxTurns(n) ==>
              && r.0.turns == s.turns + 1
              && r.0.cells[x][y] == PlayerMark(s.turns)
              && forall i, j :: 0 <= i < n && 0 <= j < n && (i != x || j != y) ==> r.0.cells[i][j] == s.cells[i][j]
    ensures r.1.Win? ==> r.1.winner != Empty && r.1.winner == Result(r.0.cells, n) && HasLine(r.0.cells, n, r.1.winner)
    ensures r.1 == Draw ==> Result(r.0.cells, n) == Empty && r.0.turns == MaxTurns(n)
    ensures r.1 == Undecided && s.turns < MaxTurns(n) ==> Result(r.0.cells, n) == Empty && r.0.turns < MaxTurns(n)
    ensures r.1 != Undecided ==> forall i, j :: 0 <= i < n && 0 <= j < n ==> !r.0.clickable[i][j]
    ensures r.1 == Undecided ==> r.0.clickable == s.clickable
  {
    if s.turns >= MaxTurns(n) then (s, Undecided)
    else
      var cells := Put(s.cells, n, x, y, PlayerMark(s.turns));
      var turns := s.turns + 1;
      var v := Evaluate(cells, n, turns);
      var flags := if v == Undecided then s.clickable else Filled(n, false);
      (Snapshot(cells, turns, flags), v)
  }

  /** Click on an accepted click, unfolded: the new board, the next turn
      count, the verdict on that board, and the flags that verdict leaves. It
      states nothing beyond the definition of Click; it only spares the
      verifier that unfolding inside Scene.Game.OnClick. */
  lemma ClickAccepted(n: nat, s: Snapshot, x: int, y: int, v: Verdict)
    requires Wf(n, s) && 0 <= x < n && 0 <= y < n && s.turns < MaxTurns(n)
    requires v == Evaluate(Put(s.cells, n, x, y, PlayerMark(s.turns)), n, s.turns + 1)
    ensures Click(n, s, x, y) ==
              (Snapshot(Put(s.cells, n, x, y, PlayerMark(s.turns)), s.turns + 1,
                        if v == Undecided then s.clickable else Filled(n, false)), v)
  {
  }

  /** Slot.OnClick: the slot's button becomes non-clickable, then the click is
      forwarded to Game.OnClick. */
  function SlotClick(n: nat, s: Snapshot, x: int, y: int): (r: (Snapshot, Verdict))
    requires Wf(n, s) && 0 <= x < n && 0 <= y < n
    ensures Wf(n, r.0)
    ensures !r.0.clickable[x][y]
    ensures r.1 == Click(n, s, x, y).1
    ensures r.0.cells == Click(n, s, x, y).0.cells && r.0.turns == Click(n, s, x, y).0.turns
    ensures r.1 == Undecided ==>
              forall i, j :: 0 <= i < n && 0 <= j < n && (i != x || j != y) ==> r.0.clickable[i][j] == s.clickable[i][j]
    ensures r.1 != Undecided ==> forall i, j :: 0 <= i < n && 0 <= j < n ==> !r.0.clickable[i][j]
  {
    Click(n, s.(clickable := Put(s.clickable, n, x, y, false)), x, y)
  }

  /** A click as the host delivers it: a button that is not clickable does not
      fire, so only a clickable slot reaches Slot.OnClick. */
  function Press(n: nat, s: Snapshot, x: int, y: int): (r: (Snapshot, Verdict))
    requires Wf(n, s) && 0 <= x < n && 0 <= y < n
  {
    if s.clickable[x][y] then SlotClick(n, s, x, y) else (s, Undecided)
  }

  // ---------------------------------------------------------------------------
  // Invariants of the host's clicks
  // ---------------------------------------------------------------------------

  /** Every marked slot is non-clickable. */
  predicate Protected(n: nat, s: Snapshot)
    requires Wf(n, s)
  {
    forall x, y :: 0 <= x < n && 0 <= y < n && s.cells[x][y] != Empty ==> !s.clickable[x][y]
  }

  /** A slot is clickable exactly when it is empty: the state of a game
      that no verdict has ended yet. */
  predicate Open(n: nat, s: Snapshot)
    requires Wf(n, s)
  {
    forall x, y :: 0 <= x < n && 0 <= y < n ==> (s.clickable[x][y] <==> s.cells[x][y] == Empty)
  }

  /** No slot is clickable: the state after SetResult. */
  predicate Frozen(n: nat, s: Snapshot)
    requires Wf(n, s)
  {
    forall x, y :: 0 <= x < n && 0 <= y < n ==> !s.clickable[x][y]
  }

  /** A click the host delivers never overwrites a mark and keeps every marked
      slot non-clickable. */
  lemma PressKeepsMarks(n: nat, s: Snapshot, x: int, y: int)
    requires Wf(n, s) && 0 <= x < n && 0 <= y < n && Protected(n, s)
    ensures var t := Press(n, s, x, y).0;
            Wf(n, t) && Protected(n, t) &&
            forall i, j :: 0 <= i < n && 0 <= j < n && s.cells[i][j] != Empty ==> t.cells[i][j] == s.cells[i][j]
  {
    var t := Press(n, s, x, y).0;
    if s.clickable[x][y] && s.turns < MaxTurns(n) {
      assert s.cells[x][y] == Empty;
      forall i, j | 0 <= i < n && 0 <= j < n && t.cells[i][j] != Empty
        ensures !t.clickable[i][j]
      {
        if (i, j) != (x, y) && Press(n, s, x, y).1 == Undecided {
          assert s.cells[i][j] == t.cells[i][j];
        }
      }
    }
  }

  /** While no verdict has been announced, a slot stays clickable exactly when
      it is empty: a host click on an empty slot either keeps the game open or
      announces a verdict and freezes every slot. */
  lemma PressKeepsOpen(n: nat, s: Snapshot, x: int, y: int)
    requires Wf(n, s) && 0 <= x < n && 0 <= y < n && Open(n, s) && s.turns < MaxTurns(n)
    requires s.cells[x][y] == Empty
    ensures var (t, v) := Press(n, s, x, y);
            if v == Undecided then Open(n, t) else Frozen(n, t)
  {
    var (t, v) := Press(n, s, x, y);
    if v == Undecided {
      forall i, j | 0 <= i < n && 0 <= j < n
        ensures t.clickable[i][j] <==> t.cells[i][j] == Empty
      {
        if i != x || j != y {
          assert t.cells[i][j] == s.cells[i][j];
        }
      }
    }
  }

  /** A frozen game ignores every click the host delivers. */
  lemma FrozenPressIgnored(n: nat, s: Snapshot, x: int, y: int)
    requires Wf(n, s) && 0 <= x < n && 0 <= y < n && Frozen(n, s)
    ensures Press(n, s, x, y) == (s, Undecided)
  {
  }

  // ---------------------------------------------------------------------------
  // Sequences of clicks
  // ---------------------------------------------------------------------------

  /** Every click of the sequence is inside the board. */
  predicate InBounds(n: nat, moves: seq<(int, int)>)
  {
    forall k :: 0 <= k < |moves| ==> 0 <= moves[k].0 < n && 0 <= moves[k].1 < n
  }

  /** The engine after the clicks `moves` reach Game.OnClick one after another. */
  function Run(n: nat, s: Snapshot, moves: seq<(int, int)>): (t: Snapshot)
    requires Wf(n, s) && InBounds(n, moves)
    ensures Wf(n, t)
    decreases |moves|
  {
    if moves == [] then s
    else
      var last := moves[|moves| - 1];
      Click(n, Run(n, s, moves[..|moves| - 1]), last.0, last.1).0
  }

  /** The engine after the host has delivered the clicks `moves`, with the
      verdict of the last of them (Undecided when there is none). */
  function Play(n: nat, s: Snapshot, moves: seq<(int, int)>): (r: (Snapshot, Verdict))
    requires Wf(n, s) && InBounds(n, moves)
    ensures Wf(n, r.0)
    decreases |moves|
  {
    if moves == [] then (s, Undecided)
    else
      var last := moves[|moves| - 1];
      Press(n, Play(n, s, moves[..|moves| - 1]).0, last.0, last.1)
  }

  /** Each click that reaches the engine before MAX_TURNS counts one turn. */
  lemma {:induction false} RunCountsTurns(n: nat, moves: seq<(int, int)>)
    requires InBounds(n, moves) && |moves| <= MaxTurns(n)
    ensures Run(n, Initial(n), moves).turns == |moves|
    decreases |moves|
  {
    if moves != [] {
      RunCountsTurns(n, moves[..|moves| - 1]);
    }
  }

  /** Turns alternate: the k-th click (counting from 0) writes X when k is even
      and O when k is odd. */
  lemma KthClickMark(n: nat, moves: seq<(int, int)>, k: nat)
    requires InBounds(n, moves) && k < |moves| <= MaxTurns(n)
    ensures var t := Run(n, Initial(n), moves[..k + 1]);
            t.cells[moves[k].0][moves[k].1] == (if k % 2 == 0 then X else O)
  {
    var prefix := moves[..k + 1];
    assert prefix[..k] == moves[..k];
    RunCountsTurns(n, moves[..k]);
  }

  /** turnCount never passes MAX_TURNS, however many clicks reach the engine. */
  lemma {:induction false} RunBoundsTurns(n: nat, s: Snapshot, moves: seq<(int, int)>)
    requires Wf(n, s) && InBounds(n, moves)
    ensures var t := Run(n, s, moves);
            s.turns <= t.turns <= MaxTurns(n) && t.turns <= s.turns + |moves|
    decreases |moves|
  {
    if moves != [] {
      RunBoundsTurns(n, s, moves[..|moves| - 1]);
    }
  }

  /** Clicks the host delivers never overwrite a mark. */
  lemma {:induction false} PlayKeepsMarks(n: nat, s: Snapshot, moves: seq<(int, int)>)
    requires Wf(n, s) && InBounds(n, moves) && Protected(n, s)
    ensures var t := Play(n, s, moves).0;
            Protected(n, t) &&
            forall i, j :: 0 <= i < n && 0 <= j < n && s.cells[i][j] != Empty ==> t.cells[i][j] == s.cells[i][j]
    decreases |moves|
  {
    if moves != [] {
      var before := moves[..|moves| - 1];
      var last := moves[|moves| - 1];
      PlayKeepsMarks(n, s, before);
      PressKeepsMarks(n, Play(n, s, before).0, last.0, last.1);
    }
  }

  /** From the initial state, whatever the host delivers, no mark is ever
      overwritten and every marked slot is non-clickable. */
  lemma MarksAreNeverOverwritten(n: nat, moves: seq<(int, int)>, more: seq<(int, int)>)
    requires InBounds(n, moves) && InBounds(n, more)
    ensures var s := Play(n, Initial(n), moves).0;
            var t := Play(n, s, more).0;
            Protected(n, s) &&
            forall i, j :: 0 <= i < n && 0 <= j < n && s.cells[i][j] != Empty ==> t.cells[i][j] == s.cells[i][j]
  {
    PlayKeepsMarks(n, Initial(n), moves);
    PlayKeepsMarks(n, Play(n, Initial(n), moves).0, more);
  }

  /** Once a verdict has frozen the slots, no further click the host delivers
      changes anything: no mark, no counter, no flag. */
  lemma {:induction false} FrozenIsFinal(n: nat, s: Snapshot, moves: seq<(int, int)>)
    requires Wf(n, s) && InBounds(n, moves) && Frozen(n, s)
    ensures Play(n, s, moves) == (s, Undecided)
    decreases |moves|
  {
    if moves != [] {
      FrozenIsFinal(n, s, moves[..|moves| - 1]);
    }
  }

  /** A state the host's clicks reach from the start: turnCount counts the
      marked slots (it and the empty slots add up to MAX_TURNS), and the game
      is either open with turns left or frozen. */
  predicate Consistent(n: nat, s: Snapshot)
    requires Wf(n, s)
  {
    s.turns + EmptyCells(s.cells) == MaxTurns(n) &&
    ((Open(n, s) && s.turns < MaxTurns(n)) || Frozen(n, s))
  }

  /** A delivered click keeps a state consistent, and any verdict it
      announces leaves every slot frozen. */
  lemma PressKeepsConsistent(n: nat, s: Snapshot, x: int, y: int)
    requires Wf(n, s) && 0 <= x < n && 0 <= y < n && Consistent(n, s)
    ensures var (t, v) := Press(n, s, x, y);
            Consistent(n, t) && (v != Undecided ==> Frozen(n, t))
  {
    if s.clickable[x][y] {
      assert Open(n, s) && s.turns < MaxTurns(n);
      var (t, v) := Press(n, s, x, y);
      var g := Put(s.cells, n, x, y, PlayerMark(s.turns));
      SquareExt(t.cells, g, n);
      PutFillsOne(s.cells, n, x, y, PlayerMark(s.turns));
      PressKeepsOpen(n, s, x, y);
    }
  }

  /** Every state the host's clicks reach from the start is consistent, and
      when the last click announced a verdict the game is frozen. */
  lemma {:induction false} PlayConsistent(n: nat, moves: seq<(int, int)>)
    requires InBounds(n, moves)
    ensures var (t, v) := Play(n, Initial(n), moves);
            Consistent(n, t) && (v != Undecided ==> Frozen(n, t))
    decreases |moves|
  {
    if moves == [] {
      EmptyBoardCount(n);
    } else {
      var prefix := moves[..|moves| - 1];
      PlayConsistent(n, prefix);
      var last := moves[|moves| - 1];
      PressKeepsConsistent(n, Play(n, Initial(n), prefix).0, last.0, last.1);
    }
  }

  /** turnCount is the number of marked slots in every state the host's
      clicks reach. */
  lemma TurnsCountMarks(n: nat, moves: seq<(int, int)>)
    requires InBounds(n, moves)
    ensures var t := Play(n, Initial(n), moves).0;
            t.turns == MaxTurns(n) - EmptyCells(t.cells)
  {
    PlayConsistent(n, moves);
  }

  /** A click the host accepts (on a clickable slot) announces a draw exactly
      when it leaves the board full with no line reported. */
  lemma DrawExactlyWhenFull(n: nat, moves: seq<(int, int)>, x: int, y: int)
    requires InBounds(n, moves) && 0 <= x < n && 0 <= y < n
    requires Play(n, Initial(n), moves).0.clickable[x][y]
    ensures InBounds(n, moves + [(x, y)])
    ensures var (t, v) := Play(n, Initial(n), moves + [(x, y)]);
            v == Draw <==> Full(t.cells, n) && Result(t.cells, n) == Empty
  {
    var next := moves + [(x, y)];
    assert next[..|moves|] == moves && next[|moves|] == (x, y);
    var s := Play(n, Initial(n), moves).0;
    PlayConsistent(n, moves);
    assert Open(n, s) && s.turns < MaxTurns(n);
    PressKeepsConsistent(n, s, x, y);
    var (t, v) := Play(n, Initial(n), next);
    assert (t, v) == SlotClick(n, s, x, y);
    FullIffNoEmptyCells(t.cells, n);
  }

  /** turnCount fits the 32-bit signed int of Game.cs for every supported
      board side (2 to 46340). */
  lemma TurnsFitInt32(n: nat, s: Snapshot)
    requires 2 <= n <= 46340 && Wf(n, s)
    ensures 0 <= s.turns <= 0x7fff_ffff
  {
    SquareMonotone(n, 46340);
  }

  lemma SquareMonotone(a: nat, b: nat)
    requires a <= b
    ensures a * a <= b * b
  {
    assert a * a <= a * b;
    assert a * b <= b * b;
  }
}
