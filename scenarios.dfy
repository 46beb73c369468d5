/** Whole games on the 3 x 3 board, click by click as the host delivers them.
    Each click is `Advance` applied to three small facts: the verdict on the new
    board (`<Game>Board<k>`), the board after the mark is written
    (`<Game>Put<k>`), and the step itself (`<Game><k>`). They are separate
    lemmas, and games that open alike share them, because a whole game in one
    proof is more than the verifier can do within its resource bound. */
module Scenarios {
  import opened Grid
  import opened Rules
  import opened Engine

  /** After the host has delivered `moves` from the initial state the board is
      g, turnCount is k, no verdict has been announced and the game is open. */
  predicate Reached(n: nat, moves: seq<(int, int)>, g: seq<seq<Mark>>, k: int)
  {
    InBounds(n, moves) &&
    var (t, v) := Play(n, Initial(n), moves);
    t.cells == g && t.turns == k && v == Undecided && Open(n, t)
  }

  lemma StartReached(n: nat)
    requires n == 3
    ensures Reached(n, [], [[Empty, Empty, Empty], [Empty, Empty, Empty], [Empty, Empty, Empty]], 0)
  {
    SquareExt(Initial(n).cells, [[Empty, Empty, Empty], [Empty, Empty, Empty], [Empty, Empty, Empty]], n);
  }

  /** One more click on an empty slot of an open game: the current player's
      mark is written, the turn is counted and the verdict is that of the new
      board; the game stays open when the verdict is Undecided and is frozen
      otherwise. */
  lemma Advance(n: nat, moves: seq<(int, int)>, g: seq<seq<Mark>>, k: int, x: int, y: int,
                next: seq<(int, int)>, g': seq<seq<Mark>>)
    requires Reached(n, moves, g, k) && 0 <= x < n && 0 <= y < n && k < MaxTurns(n)
    requires g[x][y] == Empty
    requires next == moves + [(x, y)]
    requires g' == Put(g, n, x, y, PlayerMark(k))
    ensures InBounds(n, next)
    ensures var (t, v) := Play(n, Initial(n), next);
            && t.cells == g' && t.turns == k + 1 && v == Evaluate(g', n, k + 1)
            && (v == Undecided ==> Reached(n, next, g', k + 1))
            && (v != Undecided ==> Frozen(n, t))
  {
    assert next[..|moves|] == moves && next[|moves|] == (x, y);
    var s := Play(n, Initial(n), moves).0;
    assert s.clickable[x][y];
    var r := Play(n, Initial(n), next);
    assert r == SlotClick(n, s, x, y);
    PressKeepsOpen(n, s, x, y);
    SquareExt(r.0.cells, g', n);
  }

  lemma HorizontalWinBoard1()
    ensures Evaluate([[X, Empty, Empty], [Empty, Empty, Empty], [Empty, Empty, Empty]], 3, 1) == Undecided
  {
    var g := [[X, Empty, Empty], [Empty, Empty, Empty], [Empty, Empty, Empty]];
    assert !RowAll(g, 3, 0, X) by { assert g[1][0] == Empty; }
    assert !ColumnAll(g, 3, 0, X) by { assert g[0][1] == Empty; }
    assert !MainDiagonalAll(g, 3, X) by { assert g[1][1] == Empty; }
  }

  lemma HorizontalWinPut1()
    ensures Put([[Empty, Empty, Empty], [Empty, Empty, Empty], [Empty, Empty, Empty]], 3, 0, 0, X) == [[X, Empty, Empty], [Empty, Empty, Empty], [Empty, Empty, Empty]]
  {
    assert [[Empty, Empty, Empty], [Empty, Empty, Empty], [Empty, Empty, Empty]][0][0 := X] == [X, Empty, Empty];
  }

  lemma HorizontalWin1()
    requires Reached(3, [], [[Empty, Empty, Empty], [Empty, Empty, Empty], [Empty, Empty, Empty]], 0)
    ensures Reached(3, [(0, 0)], [[X, Empty, Empty], [Empty, Empty, Empty], [Empty, Empty, Empty]], 1)
  {
    HorizontalWinBoard1();
    HorizontalWinPut1();
    Advance(3, [], [[Empty, Empty, Empty], [Empty, Empty, Empty], [Empty, Empty, Empty]], 0, 0, 0, [(0, 0)], [[X, Empty, Empty], [Empty, Empty, Empty], [Empty, Empty, Empty]]);
  }

  lemma HorizontalWinBoard2()
    ensures Evaluate([[X, O, Empty], [Empty, Empty, Empty], [Empty, Empty, Empty]], 3, 2) == Undecided
  {
    var g := [[X, O, Empty], [Empty, Empty, Empty], [Empty, Empty, Empty]];
    assert !RowAll(g, 3, 0, X) by { assert g[1][0] == Empty; }
    assert !RowAll(g, 3, 1, O) by { assert g[1][1] == Empty; }
    assert !ColumnAll(g, 3, 0, X) by { assert g[0][1] == O; }
    assert !MainDiagonalAll(g, 3, X) by { assert g[1][1] == Empty; }
  }

  lemma HorizontalWinPut2()
    ensures Put([[X, Empty, Empty], [Empty, Empty, Empty], [Empty, Empty, Empty]], 3, 0, 1, O) == [[X, O, Empty], [Empty, Empty, Empty], [Empty, Empty, Empty]]
  {
    assert [[X, Empty, Empty], [Empty, Empty, Empty], [Empty, Empty, Empty]][0][1 := O] == [X, O, Empty];
  }

  lemma HorizontalWin2()
    requires Reached(3, [(0, 0)], [[X, Empty, Empty], [Empty, Empty, Empty], [Empty, Empty, Empty]], 1)
    ensures Reached(3, [(0, 0), (0, 1)], [[X, O, Empty], [Empty, Empty, Empty], [Empty, Empty, Empty]], 2)
  {
    HorizontalWinBoard2();
    HorizontalWinPut2();
    Advance(3, [(0, 0)], [[X, Empty, Empty], [Empty, Empty, Empty], [Empty, Empty, Empty]], 1, 0, 1, [(0, 0), (0, 1)], [[X, O, Empty], [Empty, Empty, Empty], [Empty, Empty, Empty]]);
  }

  lemma HorizontalWinBoard3()
    ensures Evaluate([[X, O, Empty], [X, Empty, Empty], [Empty, Empty, Empty]], 3, 3) == Undecided
  {
    var g := [[X, O, Empty], [X, Empty, Empty], [Empty, Empty, Empty]];
    assert !RowAll(g, 3, 0, X) by { assert g[2][0] == Empty; }
    assert !RowAll(g, 3, 1, O) by { assert g[1][1] == Empty; }
    assert !ColumnAll(g, 3, 0, X) by { assert g[0][1] == O; }
    assert !ColumnAll(g, 3, 1, X) by { assert g[1][1] == Empty; }
    assert !MainDiagonalAll(g, 3, X) by { assert g[1][1] == Empty; }
  }

  lemma HorizontalWinPut3()
    ensures Put([[X, O, Empty], [Empty, Empty, Empty], [Empty, Empty, Empty]], 3, 1, 0, X) == [[X, O, Empty], [X, Empty, Empty], [Empty, Empty, Empty]]
  {
    assert [[X, O, Empty], [Empty, Empty, Empty], [Empty, Empty, Empty]][1][0 := X] == [X, Empty, Empty];
  }

  lemma HorizontalWin3()
    requires Reached(3, [(0, 0), (0, 1)], [[X, O, Empty], [Empty, Empty, Empty], [Empty, Empty, Empty]], 2)
    ensures Reached(3, [(0, 0), (0, 1), (1, 0)], [[X, O, Empty], [X, Empty, Empty], [Empty, Empty, Empty]], 3)
  {
    HorizontalWinBoard3();
    HorizontalWinPut3();
    Advance(3, [(0, 0), (0, 1)], [[X, O, Empty], [Empty, Empty, Empty], [Empty, Empty, Empty]], 2, 1, 0, [(0, 0), (0, 1), (1, 0)], [[X, O, Empty], [X, Empty, Empty], [Empty, Empty, Empty]]);
  }

  lemma HorizontalWinBoard4()
    ensures Evaluate([[X, O, Empty], [X, O, Empty], [Empty, Empty, Empty]], 3, 4) == Undecided
  {
    var g := [[X, O, Empty], [X, O, Empty], [Empty, Empty, Empty]];
    assert !RowAll(g, 3, 0, X) by { assert g[2][0] == Empty; }
    assert !RowAll(g, 3, 1, O) by { assert g[2][1] == Empty; }
    assert !ColumnAll(g, 3, 0, X) by { assert g[0][1] == O; }
    assert !ColumnAll(g, 3, 1, X) by { assert g[1][1] == O; }
    assert !MainDiagonalAll(g, 3, X) by { assert g[1][1] == O; }
  }

  lemma HorizontalWinPut4()
    ensures Put([[X, O, Empty], [X, Empty, Empty], [Empty, Empty, Empty]], 3, 1, 1, O) == [[X, O, Empty], [X, O, Empty], [Empty, Empty, Empty]]
  {
    assert [[X, O, Empty], [X, Empty, Empty], [Empty, Empty, Empty]][1][1 := O] == [X, O, Empty];
  }

  lemma HorizontalWin4()
    requires Reached(3, [(0, 0), (0, 1), (1, 0)], [[X, O, Empty], [X, Empty, Empty], [Empty, Empty, Empty]], 3)
    ensures Reached(3, [(0, 0), (0, 1), (1, 0), (1, 1)], [[X, O, Empty], [X, O, Empty], [Empty, Empty, Empty]], 4)
  {
    HorizontalWinBoard4();
    HorizontalWinPut4();
    Advance(3, [(0, 0), (0, 1), (1, 0)], [[X, O, Empty], [X, Empty, Empty], [Empty, Empty, Empty]], 3, 1, 1, [(0, 0), (0, 1), (1, 0), (1, 1)], [[X, O, Empty], [X, O, Empty], [Empty, Empty, Empty]]);
  }

  lemma HorizontalWinBoard5()
    ensures Evaluate([[X, O, Empty], [X, O, Empty], [X, Empty, Empty]], 3, 5) == Win(X)
  {
    var g := [[X, O, Empty], [X, O, Empty], [X, Empty, Empty]];
    assert RowAll(g, 3, 0, X) by { assert g[0][0] == X && g[1][0] == X && g[2][0] == X; }
  }

  lemma HorizontalWinPut5()
    ensures Put([[X, O, Empty], [X, O, Empty], [Empty, Empty, Empty]], 3, 2, 0, X) == [[X, O, Empty], [X, O, Empty], [X, Empty, Empty]]
  {
    assert [[X, O, Empty], [X, O, Empty], [Empty, Empty, Empty]][2][0 := X] == [X, Empty, Empty];
  }

  lemma HorizontalWin5()
    requires Reached(3, [(0, 0), (0, 1), (1, 0), (1, 1)], [[X, O, Empty], [X, O, Empty], [Empty, Empty, Empty]], 4)
    ensures var (t, v) := Play(3, Initial(3), [(0, 0), (0, 1), (1, 0), (1, 1), (2, 0)]);
            v == Win(X) && t.turns == 5 && t.cells == [[X, O, Empty], [X, O, Empty], [X, Empty, Empty]] && Frozen(3, t)
  {
    HorizontalWinBoard5();
    HorizontalWinPut5();
    Advance(3, [(0, 0), (0, 1), (1, 0), (1, 1)], [[X, O, Empty], [X, O, Empty], [Empty, Empty, Empty]], 4, 2, 0, [(0, 0), (0, 1), (1, 0), (1, 1), (2, 0)], [[X, O, Empty], [X, O, Empty], [X, Empty, Empty]]);
  }

  /** X plays (0, 0), (1, 0) and (2, 0) on turns 0, 2 and 4 while O plays
      (0, 1) and (1, 1): X wins with the top row on the fifth click. */
  lemma HorizontalWin()
    ensures var (t, v) := Play(3, Initial(3), [(0, 0), (0, 1), (1, 0), (1, 1), (2, 0)]);
            v == Win(X) && t.turns == 5 && t.cells == [[X, O, Empty], [X, O, Empty], [X, Empty, Empty]] && Frozen(3, t)
  {
    StartReached(3);
    HorizontalWin1();
    HorizontalWin2();
    HorizontalWin3();
    HorizontalWin4();
    HorizontalWin5();
  }

  lemma DiagonalWinBoard2()
    ensures Evaluate([[X, Empty, Empty], [O, Empty, Empty], [Empty, Empty, Empty]], 3, 2) == Undecided
  {
    var g := [[X, Empty, Empty], [O, Empty, Empty], [Empty, Empty, Empty]];
    assert !RowAll(g, 3, 0, X) by { assert g[1][0] == O; }
    assert !ColumnAll(g, 3, 0, X) by { assert g[0][1] == Empty; }
    assert !ColumnAll(g, 3, 1, O) by { assert g[1][1] == Empty; }
    assert !MainDiagonalAll(g, 3, X) by { assert g[1][1] == Empty; }
  }

  lemma DiagonalWinPut2()
    ensures Put([[X, Empty, Empty], [Empty, Empty, Empty], [Empty, Empty, Empty]], 3, 1, 0, O) == [[X, Empty, Empty], [O, Empty, Empty], [Empty, Empty, Empty]]
  {
    assert [[X, Empty, Empty], [Empty, Empty, Empty], [Empty, Empty, Empty]][1][0 := O] == [O, Empty, Empty];
  }

  lemma DiagonalWin2()
    requires Reached(3, [(0, 0)], [[X, Empty, Empty], [Empty, Empty, Empty], [Empty, Empty, Empty]], 1)
    ensures Reached(3, [(0, 0), (1, 0)], [[X, Empty, Empty], [O, Empty, Empty], [Empty, Empty, Empty]], 2)
  {
    DiagonalWinBoard2();
    DiagonalWinPut2();
    Advance(3, [(0, 0)], [[X, Empty, Empty], [Empty, Empty, Empty], [Empty, Empty, Empty]], 1, 1, 0, [(0, 0), (1, 0)], [[X, Empty, Empty], [O, Empty, Empty], [Empty, Empty, Empty]]);
  }

  lemma DiagonalWinBoard3()
    ensures Evaluate([[X, Empty, Empty], [O, X, Empty], [Empty, Empty, Empty]], 3, 3) == Undecided
  {
    var g := [[X, Empty, Empty], [O, X, Empty], [Empty, Empty, Empty]];
    assert !RowAll(g, 3, 0, X) by { assert g[1][0] == O; }
    assert !ColumnAll(g, 3, 0, X) by { assert g[0][1] == Empty; }
    assert !ColumnAll(g, 3, 1, O) by { assert g[1][1] == X; }
    assert !MainDiagonalAll(g, 3, X) by { assert g[2][2] == Empty; }
  }

  lemma DiagonalWinPut3()
    ensures Put([[X, Empty, Empty], [O, Empty, Empty], [Empty, Empty, Empty]], 3, 1, 1, X) == [[X, Empty, Empty], [O, X, Empty], [Empty, Empty, Empty]]
  {
    assert [[X, Empty, Empty], [O, Empty, Empty], [Empty, Empty, Empty]][1][1 := X] == [O, X, Empty];
  }

  lemma DiagonalWin3()
    requires Reached(3, [(0, 0), (1, 0)], [[X, Empty, Empty], [O, Empty, Empty], [Empty, Empty, Empty]], 2)
    ensures Reached(3, [(0, 0), (1, 0), (1, 1)], [[X, Empty, Empty], [O, X, Empty], [Empty, Empty, Empty]], 3)
  {
    DiagonalWinBoard3();
    DiagonalWinPut3();
    Advance(3, [(0, 0), (1, 0)], [[X, Empty, Empty], [O, Empty, Empty], [Empty, Empty, Empty]], 2, 1, 1, [(0, 0), (1, 0), (1, 1)], [[X, Empty, Empty], [O, X, Empty], [Empty, Empty, Empty]]);
  }

  lemma DiagonalWinBoard4()
    ensures Evaluate([[X, Empty, Empty], [O, X, Empty], [O, Empty, Empty]], 3, 4) == Undecided
  {
    var g := [[X, Empty, Empty], [O, X, Empty], [O, Empty, Empty]];
    assert !RowAll(g, 3, 0, X) by { assert g[1][0] == O; }
    assert !ColumnAll(g, 3, 0, X) by { assert g[0][1] == Empty; }
    assert !ColumnAll(g, 3, 1, O) by { assert g[1][1] == X; }
    assert !ColumnAll(g, 3, 2, O) by { assert g[2][1] == Empty; }
    assert !MainDiagonalAll(g, 3, X) by { assert g[2][2] == Empty; }
    assert !AntiDiagonalAll(g, 3, O) by { assert g[1][1] == X; }
  }

  lemma DiagonalWinPut4()
    ensures Put([[X, Empty, Empty], [O, X, Empty], [Empty, Empty, Empty]], 3, 2, 0, O) == [[X, Empty, Empty], [O, X, Empty], [O, Empty, Empty]]
  {
    assert [[X, Empty, Empty], [O, X, Empty], [Empty, Empty, Empty]][2][0 := O] == [O, Empty, Empty];
  }

  lemma DiagonalWin4()
    requires Reached(3, [(0, 0), (1, 0), (1, 1)], [[X, Empty, Empty], [O, X, Empty], [Empty, Empty, Empty]], 3)
    ensures Reached(3, [(0, 0), (1, 0), (1, 1), (2, 0)], [[X, Empty, Empty], [O, X, Empty], [O, Empty, Empty]], 4)
  {
    DiagonalWinBoard4();
    DiagonalWinPut4();
    Advance(3, [(0, 0), (1, 0), (1, 1)], [[X, Empty, Empty], [O, X, Empty], [Empty, Empty, Empty]], 3, 2, 0, [(0, 0), (1, 0), (1, 1), (2, 0)], [[X, Empty, Empty], [O, X, Empty], [O, Empty, Empty]]);
  }

  lemma DiagonalWinBoard5()
    ensures Evaluate([[X, Empty, Empty], [O, X, Empty], [O, Empty, X]], 3, 5) == Win(X)
  {
    var g := [[X, Empty, Empty], [O, X, Empty], [O, Empty, X]];
    assert !RowAll(g, 3, 0, X) by { assert g[1][0] == O; }
    assert !ColumnAll(g, 3, 0, X) by { assert g[0][1] == Empty; }
    assert !ColumnAll(g, 3, 1, O) by { assert g[1][1] == X; }
    assert !ColumnAll(g, 3, 2, O) by { assert g[2][1] == Empty; }
    assert MainDiagonalAll(g, 3, X) by { assert g[0][0] == X && g[1][1] == X && g[2][2] == X; }
  }

  lemma DiagonalWinPut5()
    ensures Put([[X, Empty, Empty], [O, X, Empty], [O, Empty, Empty]], 3, 2, 2, X) == [[X, Empty, Empty], [O, X, Empty], [O, Empty, X]]
  {
    assert [[X, Empty, Empty], [O, X, Empty], [O, Empty, Empty]][2][2 := X] == [O, Empty, X];
  }

  lemma DiagonalWin5()
    requires Reached(3, [(0, 0), (1, 0), (1, 1), (2, 0)], [[X, Empty, Empty], [O, X, Empty], [O, Empty, Empty]], 4)
    ensures var (t, v) := Play(3, Initial(3), [(0, 0), (1, 0), (1, 1), (2, 0), (2, 2)]);
            v == Win(X) && t.turns == 5 && t.cells == [[X, Empty, Empty], [O, X, Empty], [O, Empty, X]] && Frozen(3, t)
  {
    DiagonalWinBoard5();
    DiagonalWinPut5();
    Advance(3, [(0, 0), (1, 0), (1, 1), (2, 0)], [[X, Empty, Empty], [O, X, Empty], [O, Empty, Empty]], 4, 2, 2, [(0, 0), (1, 0), (1, 1), (2, 0), (2, 2)], [[X, Empty, Empty], [O, X, Empty], [O, Empty, X]]);
  }

  /** X plays (0, 0), (1, 1) and (2, 2) on turns 0, 2 and 4 while O plays
      (1, 0) and (2, 0): X wins with the main diagonal on the fifth click. */
  lemma DiagonalWin()
    ensures var (t, v) := Play(3, Initial(3), [(0, 0), (1, 0), (1, 1), (2, 0), (2, 2)]);
            v == Win(X) && t.turns == 5 && t.cells == [[X, Empty, Empty], [O, X, Empty], [O, Empty, X]] && Frozen(3, t)
  {
    StartReached(3);
    HorizontalWin1();
    DiagonalWin2();
    DiagonalWin3();
    DiagonalWin4();
    DiagonalWin5();
  }

  lemma DrawGameBoard3()
    ensures Evaluate([[X, Empty, Empty], [O, Empty, Empty], [X, Empty, Empty]], 3, 3) == Undecided
  {
    var g := [[X, Empty, Empty], [O, Empty, Empty], [X, Empty, Empty]];
    assert !RowAll(g, 3, 0, X) by { assert g[1][0] == O; }
    assert !ColumnAll(g, 3, 0, X) by { assert g[0][1] == Empty; }
    assert !ColumnAll(g, 3, 1, O) by { assert g[1][1] == Empty; }
    assert !ColumnAll(g, 3, 2, X) by { assert g[2][1] == Empty; }
    assert !MainDiagonalAll(g, 3, X) by { assert g[1][1] == Empty; }
    assert !AntiDiagonalAll(g, 3, X) by { assert g[1][1] == Empty; }
  }

  lemma DrawGamePut3()
    ensures Put([[X, Empty, Empty], [O, Empty, Empty], [Empty, Empty, Empty]], 3, 2, 0, X) == [[X, Empty, Empty], [O, Empty, Empty], [X, Empty, Empty]]
  {
    assert [[X, Empty, Empty], [O, Empty, Empty], [Empty, Empty, Empty]][2][0 := X] == [X, Empty, Empty];
  }

  lemma DrawGame3()
    requires Reached(3, [(0, 0), (1, 0)], [[X, Empty, Empty], [O, Empty, Empty], [Empty, Empty, Empty]], 2)
    ensures Reached(3, [(0, 0), (1, 0), (2, 0)], [[X, Empty, Empty], [O, Empty, Empty], [X, Empty, Empty]], 3)
  {
    DrawGameBoard3();
    DrawGamePut3();
    Advance(3, [(0, 0), (1, 0)], [[X, Empty, Empty], [O, Empty, Empty], [Empty, Empty, Empty]], 2, 2, 0, [(0, 0), (1, 0), (2, 0)], [[X, Empty, Empty], [O, Empty, Empty], [X, Empty, Empty]]);
  }

  lemma DrawGameBoard4()
    ensures Evaluate([[X, Empty, Empty], [O, O, Empty], [X, Empty, Empty]], 3, 4) == Undecided
  {
    var g := [[X, Empty, Empty], [O, O, Empty], [X, Empty, Empty]];
    assert !RowAll(g, 3, 0, X) by { assert g[1][0] == O; }
    assert !ColumnAll(g, 3, 0, X) by { assert g[0][1] == Empty; }
    assert !ColumnAll(g, 3, 1, O) by { assert g[1][2] == Empty; }
    assert !ColumnAll(g, 3, 2, X) by { assert g[2][1] == Empty; }
    assert !MainDiagonalAll(g, 3, X) by { assert g[1][1] == O; }
    assert !AntiDiagonalAll(g, 3, X) by { assert g[1][1] == O; }
  }

  lemma DrawGamePut4()
    ensures Put([[X, Empty, Empty], [O, Empty, Empty], [X, Empty, Empty]], 3, 1, 1, O) == [[X, Empty, Empty], [O, O, Empty], [X, Empty, Empty]]
  {
    assert [[X, Empty, Empty], [O, Empty, Empty], [X, Empty, Empty]][1][1 := O] == [O, O, Empty];
  }

  lemma DrawGame4()
    requires Reached(3, [(0, 0), (1, 0), (2, 0)], [[X, Empty, Empty], [O, Empty, Empty], [X, Empty, Empty]], 3)
    ensures Reached(3, [(0, 0), (1, 0), (2, 0), (1, 1)], [[X, Empty, Empty], [O, O, Empty], [X, Empty, Empty]], 4)
  {
    DrawGameBoard4();
    DrawGamePut4();
    Advance(3, [(0, 0), (1, 0), (2, 0)], [[X, Empty, Empty], [O, Empty, Empty], [X, Empty, Empty]], 3, 1, 1, [(0, 0), (1, 0), (2, 0), (1, 1)], [[X, Empty, Empty], [O, O, Empty], [X, Empty, Empty]]);
  }

  lemma DrawGameBoard5()
    ensures Evaluate([[X, X, Empty], [O, O, Empty], [X, Empty, Empty]], 3, 5) == Undecided
  {
    var g := [[X, X, Empty], [O, O, Empty], [X, Empty, Empty]];
    assert !RowAll(g, 3, 0, X) by { assert g[1][0] == O; }
    assert !RowAll(g, 3, 1, X) by { assert g[1][1] == O; }
    assert !ColumnAll(g, 3, 0, X) by { assert g[0][2] == Empty; }
    assert !ColumnAll(g, 3, 1, O) by { assert g[1][2] == Empty; }
    assert !ColumnAll(g, 3, 2, X) by { assert g[2][1] == Empty; }
    assert !MainDiagonalAll(g, 3, X) by { assert g[1][1] == O; }
    assert !AntiDiagonalAll(g, 3, X) by { assert g[1][1] == O; }
  }

  lemma DrawGamePut5()
    ensures Put([[X, Empty, Empty], [O, O, Empty], [X, Empty, Empty]], 3, 0, 1, X) == [[X, X, Empty], [O, O, Empty], [X, Empty, Empty]]
  {
    assert [[X, Empty, Empty], [O, O, Empty], [X, Empty, Empty]][0][1 := X] == [X, X, Empty];
  }

  lemma DrawGame5()
    requires Reached(3, [(0, 0), (1, 0), (2, 0), (1, 1)], [[X, Empty, Empty], [O, O, Empty], [X, Empty, Empty]], 4)
    ensures Reached(3, [(0, 0), (1, 0), (2, 0), (1, 1), (0, 1)], [[X, X, Empty], [O, O, Empty], [X, Empty, Empty]], 5)
  {
    DrawGameBoard5();
    DrawGamePut5();
    Advance(3, [(0, 0), (1, 0), (2, 0), (1, 1)], [[X, Empty, Empty], [O, O, Empty], [X, Empty, Empty]], 4, 0, 1, [(0, 0), (1, 0), (2, 0), (1, 1), (0, 1)], [[X, X, Empty], [O, O, Empty], [X, Empty, Empty]]);
  }

  lemma DrawGameBoard6()
    ensures Evaluate([[X, X, Empty], [O, O, Empty], [X, O, Empty]], 3, 6) == Undecided
  {
    var g := [[X, X, Empty], [O, O, Empty], [X, O, Empty]];
    assert !RowAll(g, 3, 0, X) by { assert g[1][0] == O; }
    assert !RowAll(g, 3, 1, X) by { assert g[1][1] == O; }
    assert !ColumnAll(g, 3, 0, X) by { assert g[0][2] == Empty; }
    assert !ColumnAll(g, 3, 1, O) by { assert g[1][2] == Empty; }
    assert !ColumnAll(g, 3, 2, X) by { assert g[2][1] == O; }
    assert !MainDiagonalAll(g, 3, X) by { assert g[1][1] == O; }
    assert !AntiDiagonalAll(g, 3, X) by { assert g[1][1] == O; }
  }

  lemma DrawGamePut6()
    ensures Put([[X, X, Empty], [O, O, Empty], [X, Empty, Empty]], 3, 2, 1, O) == [[X, X, Empty], [O, O, Empty], [X, O, Empty]]
  {
    assert [[X, X, Empty], [O, O, Empty], [X, Empty, Empty]][2][1 := O] == [X, O, Empty];
  }

  lemma DrawGame6()
    requires Reached(3, [(0, 0), (1, 0), (2, 0), (1, 1), (0, 1)], [[X, X, Empty], [O, O, Empty], [X, Empty, Empty]], 5)
    ensures Reached(3, [(0, 0), (1, 0), (2, 0), (1, 1), (0, 1), (2, 1)], [[X, X, Empty], [O, O, Empty], [X, O, Empty]], 6)
  {
    DrawGameBoard6();
    DrawGamePut6();
    Advance(3, [(0, 0), (1, 0), (2, 0), (1, 1), (0, 1)], [[X, X, Empty], [O, O, Empty], [X, Empty, Empty]], 5, 2, 1, [(0, 0), (1, 0), (2, 0), (1, 1), (0, 1), (2, 1)], [[X, X, Empty], [O, O, Empty], [X, O, Empty]]);
  }

  lemma DrawGameBoard7()
    ensures Evaluate([[X, X, Empty], [O, O, X], [X, O, Empty]], 3, 7) == Undecided
  {
    var g := [[X, X, Empty], [O, O, X], [X, O, Empty]];
    assert !RowAll(g, 3, 0, X) by { assert g[1][0] == O; }
    assert !RowAll(g, 3, 1, X) by { assert g[1][1] == O; }
    assert !ColumnAll(g, 3, 0, X) by { assert g[0][2] == Empty; }
    assert !ColumnAll(g, 3, 1, O) by { assert g[1][2] == X; }
    assert !ColumnAll(g, 3, 2, X) by { assert g[2][1] == O; }
    assert !MainDiagonalAll(g, 3, X) by { assert g[1][1] == O; }
    assert !AntiDiagonalAll(g, 3, X) by { assert g[1][1] == O; }
  }

  lemma DrawGamePut7()
    ensures Put([[X, X, Empty], [O, O, Empty], [X, O, Empty]], 3, 1, 2, X) == [[X, X, Empty], [O, O, X], [X, O, Empty]]
  {
    assert [[X, X, Empty], [O, O, Empty], [X, O, Empty]][1][2 := X] == [O, O, X];
  }

  lemma DrawGame7()
    requires Reached(3, [(0, 0), (1, 0), (2, 0), (1, 1), (0, 1), (2, 1)], [[X, X, Empty], [O, O, Empty], [X, O, Empty]], 6)
    ensures Reached(3, [(0, 0), (1, 0), (2, 0), (1, 1), (0, 1), (2, 1), (1, 2)], [[X, X, Empty], [O, O, X], [X, O, Empty]], 7)
  {
    DrawGameBoard7();
    DrawGamePut7();
    Advance(3, [(0, 0), (1, 0), (2, 0), (1, 1), (0, 1), (2, 1)], [[X, X, Empty], [O, O, Empty], [X, O, Empty]], 6, 1, 2, [(0, 0), (1, 0), (2, 0), (1, 1), (0, 1), (2, 1), (1, 2)], [[X, X, Empty], [O, O, X], [X, O, Empty]]);
  }

  lemma DrawGameBoard8()
    ensures Evaluate([[X, X, O], [O, O, X], [X, O, Empty]], 3, 8) == Undecided
  {
    var g := [[X, X, O], [O, O, X], [X, O, Empty]];
    assert !RowAll(g, 3, 0, X) by { assert g[1][0] == O; }
    assert !RowAll(g, 3, 1, X) by { assert g[1][1] == O; }
    assert !RowAll(g, 3, 2, O) by { assert g[1][2] == X; }
    assert !ColumnAll(g, 3, 0, X) by { assert g[0][2] == O; }
    assert !ColumnAll(g, 3, 1, O) by { assert g[1][2] == X; }
    assert !ColumnAll(g, 3, 2, X) by { assert g[2][1] == O; }
    assert !MainDiagonalAll(g, 3, X) by { assert g[1][1] == O; }
    assert !AntiDiagonalAll(g, 3, X) by { assert g[1][1] == O; }
  }

  lemma DrawGamePut8()
    ensures Put([[X, X, Empty], [O, O, X], [X, O, Empty]], 3, 0, 2, O) == [[X, X, O], [O, O, X], [X, O, Empty]]
  {
    assert [[X, X, Empty], [O, O, X], [X, O, Empty]][0][2 := O] == [X, X, O];
  }

  lemma DrawGame8()
    requires Reached(3, [(0, 0), (1, 0), (2, 0), (1, 1), (0, 1), (2, 1), (1, 2)], [[X, X, Empty], [O, O, X], [X, O, Empty]], 7)
    ensures Reached(3, [(0, 0), (1, 0), (2, 0), (1, 1), (0, 1), (2, 1), (1, 2), (0, 2)], [[X, X, O], [O, O, X], [X, O, Empty]], 8)
  {
    DrawGameBoard8();
    DrawGamePut8();
    Advance(3, [(0, 0), (1, 0), (2, 0), (1, 1), (0, 1), (2, 1), (1, 2)], [[X, X, Empty], [O, O, X], [X, O, Empty]], 7, 0, 2, [(0, 0), (1, 0), (2, 0), (1, 1), (0, 1), (2, 1), (1, 2), (0, 2)], [[X, X, O], [O, O, X], [X, O, Empty]]);
  }

  lemma DrawGameBoard9()
    ensures Evaluate([[X, X, O], [O, O, X], [X, O, X]], 3, 9) == Draw
  {
    var g := [[X, X, O], [O, O, X], [X, O, X]];
    assert !RowAll(g, 3, 0, X) by { assert g[1][0] == O; }
    assert !RowAll(g, 3, 1, X) by { assert g[1][1] == O; }
    assert !RowAll(g, 3, 2, O) by { assert g[1][2] == X; }
    assert !ColumnAll(g, 3, 0, X) by { assert g[0][2] == O; }
    assert !ColumnAll(g, 3, 1, O) by { assert g[1][2] == X; }
    assert !ColumnAll(g, 3, 2, X) by { assert g[2][1] == O; }
    assert !MainDiagonalAll(g, 3, X) by { assert g[1][1] == O; }
    assert !AntiDiagonalAll(g, 3, X) by { assert g[1][1] == O; }
  }

  lemma DrawGamePut9()
    ensures Put([[X, X, O], [O, O, X], [X, O, Empty]], 3, 2, 2, X) == [[X, X, O], [O, O, X], [X, O, X]]
  {
    assert [[X, X, O], [O, O, X], [X, O, Empty]][2][2 := X] == [X, O, X];
  }

  lemma DrawGame9()
    requires Reached(3, [(0, 0), (1, 0), (2, 0), (1, 1), (0, 1), (2, 1), (1, 2), (0, 2)], [[X, X, O], [O, O, X], [X, O, Empty]], 8)
    ensures var (t, v) := Play(3, Initial(3), [(0, 0), (1, 0), (2, 0), (1, 1), (0, 1), (2, 1), (1, 2), (0, 2), (2, 2)]);
            v == Draw && t.turns == 9 && t.cells == [[X, X, O], [O, O, X], [X, O, X]] && Frozen(3, t)
  {
    DrawGameBoard9();
    DrawGamePut9();
    Advance(3, [(0, 0), (1, 0), (2, 0), (1, 1), (0, 1), (2, 1), (1, 2), (0, 2)], [[X, X, O], [O, O, X], [X, O, Empty]], 8, 2, 2, [(0, 0), (1, 0), (2, 0), (1, 1), (0, 1), (2, 1), (1, 2), (0, 2), (2, 2)], [[X, X, O], [O, O, X], [X, O, X]]);
  }

  /** Nine clicks that fill the board without completing a line: the ninth
      click reports a draw and freezes every slot. */
  lemma DrawGame()
    ensures var (t, v) := Play(3, Initial(3), [(0, 0), (1, 0), (2, 0), (1, 1), (0, 1), (2, 1), (1, 2), (0, 2), (2, 2)]);
            v == Draw && t.turns == 9 && t.cells == [[X, X, O], [O, O, X], [X, O, X]] && Frozen(3, t)
  {
    StartReached(3);
    HorizontalWin1();
    DiagonalWin2();
    DrawGame3();
    DrawGame4();
    DrawGame5();
    DrawGame6();
    DrawGame7();
    DrawGame8();
    DrawGame9();
  }

  lemma NinthClickDiagonalWinBoard4()
    ensures Evaluate([[X, O, Empty], [O, Empty, Empty], [X, Empty, Empty]], 3, 4) == Undecided
  {
    var g := [[X, O, Empty], [O, Empty, Empty], [X, Empty, Empty]];
    assert !RowAll(g, 3, 0, X) by { assert g[1][0] == O; }
    assert !RowAll(g, 3, 1, O) by { assert g[1][1] == Empty; }
    assert !ColumnAll(g, 3, 0, X) by { assert g[0][1] == O; }
    assert !ColumnAll(g, 3, 1, O) by { assert g[1][1] == Empty; }
    assert !ColumnAll(g, 3, 2, X) by { assert g[2][1] == Empty; }
    assert !MainDiagonalAll(g, 3, X) by { assert g[1][1] == Empty; }
    assert !AntiDiagonalAll(g, 3, X) by { assert g[1][1] == Empty; }
  }

  lemma NinthClickDiagonalWinPut4()
    ensures Put([[X, Empty, Empty], [O, Empty, Empty], [X, Empty, Empty]], 3, 0, 1, O) == [[X, O, Empty], [O, Empty, Empty], [X, Empty, Empty]]
  {
    assert [[X, Empty, Empty], [O, Empty, Empty], [X, Empty, Empty]][0][1 := O] == [X, O, Empty];
  }

  lemma NinthClickDiagonalWin4()
    requires Reached(3, [(0, 0), (1, 0), (2, 0)], [[X, Empty, Empty], [O, Empty, Empty], [X, Empty, Empty]], 3)
    ensures Reached(3, [(0, 0), (1, 0), (2, 0), (0, 1)], [[X, O, Empty], [O, Empty, Empty], [X, Empty, Empty]], 4)
  {
    NinthClickDiagonalWinBoard4();
    NinthClickDiagonalWinPut4();
    Advance(3, [(0, 0), (1, 0), (2, 0)], [[X, Empty, Empty], [O, Empty, Empty], [X, Empty, Empty]], 3, 0, 1, [(0, 0), (1, 0), (2, 0), (0, 1)], [[X, O, Empty], [O, Empty, Empty], [X, Empty, Empty]]);
  }

  lemma NinthClickDiagonalWinBoard5()
    ensures Evaluate([[X, O, Empty], [O, X, Empty], [X, Empty, Empty]], 3, 5) == Undecided
  {
    var g := [[X, O, Empty], [O, X, Empty], [X, Empty, Empty]];
    assert !RowAll(g, 3, 0, X) by { assert g[1][0] == O; }
    assert !RowAll(g, 3, 1, O) by { assert g[1][1] == X; }
    assert !ColumnAll(g, 3, 0, X) by { assert g[0][1] == O; }
    assert !ColumnAll(g, 3, 1, O) by { assert g[1][1] == X; }
    assert !ColumnAll(g, 3, 2, X) by { assert g[2][1] == Empty; }
    assert !MainDiagonalAll(g, 3, X) by { assert g[2][2] == Empty; }
    assert !AntiDiagonalAll(g, 3, X) by { assert g[0][2] == Empty; }
  }

  lemma NinthClickDiagonalWinPut5()
    ensures Put([[X, O, Empty], [O, Empty, Empty], [X, Empty, Empty]], 3, 1, 1, X) == [[X, O, Empty], [O, X, Empty], [X, Empty, Empty]]
  {
    assert [[X, O, Empty], [O, Empty, Empty], [X, Empty, Empty]][1][1 := X] == [O, X, Empty];
  }

  lemma NinthClickDiagonalWin5()
    requires Reached(3, [(0, 0), (1, 0), (2, 0), (0, 1)], [[X, O, Empty], [O, Empty, Empty], [X, Empty, Empty]], 4)
    ensures Reached(3, [(0, 0), (1, 0), (2, 0), (0, 1), (1, 1)], [[X, O, Empty], [O, X, Empty], [X, Empty, Empty]], 5)
  {
    NinthClickDiagonalWinBoard5();
    NinthClickDiagonalWinPut5();
    Advance(3, [(0, 0), (1, 0), (2, 0), (0, 1)], [[X, O, Empty], [O, Empty, Empty], [X, Empty, Empty]], 4, 1, 1, [(0, 0), (1, 0), (2, 0), (0, 1), (1, 1)], [[X, O, Empty], [O, X, Empty], [X, Empty, Empty]]);
  }

  lemma NinthClickDiagonalWinBoard6()
    ensures Evaluate([[X, O, Empty], [O, X, Empty], [X, O, Empty]], 3, 6) == Undecided
  {
    var g := [[X, O, Empty], [O, X, Empty], [X, O, Empty]];
    assert !RowAll(g, 3, 0, X) by { assert g[1][0] == O; }
    assert !RowAll(g, 3, 1, O) by { assert g[1][1] == X; }
    assert !ColumnAll(g, 3, 0, X) by { assert g[0][1] == O; }
    assert !ColumnAll(g, 3, 1, O) by { assert g[1][1] == X; }
    assert !ColumnAll(g, 3, 2, X) by { assert g[2][1] == O; }
    assert !MainDiagonalAll(g, 3, X) by { assert g[2][2] == Empty; }
    assert !AntiDiagonalAll(g, 3, X) by { assert g[0][2] == Empty; }
  }

  lemma NinthClickDiagonalWinPut6()
    ensures Put([[X, O, Empty], [O, X, Empty], [X, Empty, Empty]], 3, 2, 1, O) == [[X, O, Empty], [O, X, Empty], [X, O, Empty]]
  {
    assert [[X, O, Empty], [O, X, Empty], [X, Empty, Empty]][2][1 := O] == [X, O, Empty];
  }

  lemma NinthClickDiagonalWin6()
    requires Reached(3, [(0, 0), (1, 0), (2, 0), (0, 1), (1, 1)], [[X, O, Empty], [O, X, Empty], [X, Empty, Empty]], 5)
    ensures Reached(3, [(0, 0), (1, 0), (2, 0), (0, 1), (1, 1), (2, 1)], [[X, O, Empty], [O, X, Empty], [X, O, Empty]], 6)
  {
    NinthClickDiagonalWinBoard6();
    NinthClickDiagonalWinPut6();
    Advance(3, [(0, 0), (1, 0), (2, 0), (0, 1), (1, 1)], [[X, O, Empty], [O, X, Empty], [X, Empty, Empty]], 5, 2, 1, [(0, 0), (1, 0), (2, 0), (0, 1), (1, 1), (2, 1)], [[X, O, Empty], [O, X, Empty], [X, O, Empty]]);
  }

  lemma NinthClickDiagonalWinBoard7()
    ensures Evaluate([[X, O, Empty], [O, X, X], [X, O, Empty]], 3, 7) == Undecided
  {
    var g := [[X, O, Empty], [O, X, X], [X, O, Empty]];
    assert !RowAll(g, 3, 0, X) by { assert g[1][0] == O; }
    assert !RowAll(g, 3, 1, O) by { assert g[1][1] == X; }
    assert !ColumnAll(g, 3, 0, X) by { assert g[0][1] == O; }
    assert !ColumnAll(g, 3, 1, O) by { assert g[1][1] == X; }
    assert !ColumnAll(g, 3, 2, X) by { assert g[2][1] == O; }
    assert !MainDiagonalAll(g, 3, X) by { assert g[2][2] == Empty; }
    assert !AntiDiagonalAll(g, 3, X) by { assert g[0][2] == Empty; }
  }

  lemma NinthClickDiagonalWinPut7()
    ensures Put([[X, O, Empty], [O, X, Empty], [X, O, Empty]], 3, 1, 2, X) == [[X, O, Empty], [O, X, X], [X, O, Empty]]
  {
    assert [[X, O, Empty], [O, X, Empty], [X, O, Empty]][1][2 := X] == [O, X, X];
  }

  lemma NinthClickDiagonalWin7()
    requires Reached(3, [(0, 0), (1, 0), (2, 0), (0, 1), (1, 1), (2, 1)], [[X, O, Empty], [O, X, Empty], [X, O, Empty]], 6)
    ensures Reached(3, [(0, 0), (1, 0), (2, 0), (0, 1), (1, 1), (2, 1), (1, 2)], [[X, O, Empty], [O, X, X], [X, O, Empty]], 7)
  {
    NinthClickDiagonalWinBoard7();
    NinthClickDiagonalWinPut7();
    Advance(3, [(0, 0), (1, 0), (2, 0), (0, 1), (1, 1), (2, 1)], [[X, O, Empty], [O, X, Empty], [X, O, Empty]], 6, 1, 2, [(0, 0), (1, 0), (2, 0), (0, 1), (1, 1), (2, 1), (1, 2)], [[X, O, Empty], [O, X, X], [X, O, Empty]]);
  }

  lemma NinthClickDiagonalWinBoard8()
    ensures Evaluate([[X, O, O], [O, X, X], [X, O, Empty]], 3, 8) == Undecided
  {
    var g := [[X, O, O], [O, X, X], [X, O, Empty]];
    assert !RowAll(g, 3, 0, X) by { assert g[1][0] == O; }
    assert !RowAll(g, 3, 1, O) by { assert g[1][1] == X; }
    assert !RowAll(g, 3, 2, O) by { assert g[1][2] == X; }
    assert !ColumnAll(g, 3, 0, X) by { assert g[0][1] == O; }
    assert !ColumnAll(g, 3, 1, O) by { assert g[1][1] == X; }
    assert !ColumnAll(g, 3, 2, X) by { assert g[2][1] == O; }
    assert !MainDiagonalAll(g, 3, X) by { assert g[2][2] == Empty; }
    assert !AntiDiagonalAll(g, 3, X) by { assert g[0][2] == O; }
  }

  lemma NinthClickDiagonalWinPut8()
    ensures Put([[X, O, Empty], [O, X, X], [X, O, Empty]], 3, 0, 2, O) == [[X, O, O], [O, X, X], [X, O, Empty]]
  {
    assert [[X, O, Empty], [O, X, X], [X, O, Empty]][0][2 := O] == [X, O, O];
  }

  lemma NinthClickDiagonalWin8()
    requires Reached(3, [(0, 0), (1, 0), (2, 0), (0, 1), (1, 1), (2, 1), (1, 2)], [[X, O, Empty], [O, X, X], [X, O, Empty]], 7)
    ensures Reached(3, [(0, 0), (1, 0), (2, 0), (0, 1), (1, 1), (2, 1), (1, 2), (0, 2)], [[X, O, O], [O, X, X], [X, O, Empty]], 8)
  {
    NinthClickDiagonalWinBoard8();
    NinthClickDiagonalWinPut8();
    Advance(3, [(0, 0), (1, 0), (2, 0), (0, 1), (1, 1), (2, 1), (1, 2)], [[X, O, Empty], [O, X, X], [X, O, Empty]], 7, 0, 2, [(0, 0), (1, 0), (2, 0), (0, 1), (1, 1), (2, 1), (1, 2), (0, 2)], [[X, O, O], [O, X, X], [X, O, Empty]]);
  }

  lemma NinthClickDiagonalWinBoard9()
    ensures Evaluate([[X, O, O], [O, X, X], [X, O, X]], 3, 9) == Win(X)
  {
    var g := [[X, O, O], [O, X, X], [X, O, X]];
    assert !RowAll(g, 3, 0, X) by { assert g[1][0] == O; }
    assert !RowAll(g, 3, 1, O) by { assert g[1][1] == X; }
    assert !RowAll(g, 3, 2, O) by { assert g[1][2] == X; }
    assert !ColumnAll(g, 3, 0, X) by { assert g[0][1] == O; }
    assert !ColumnAll(g, 3, 1, O) by { assert g[1][1] == X; }
    assert !ColumnAll(g, 3, 2, X) by { assert g[2][1] == O; }
    assert MainDiagonalAll(g, 3, X) by { assert g[0][0] == X && g[1][1] == X && g[2][2] == X; }
  }

  lemma NinthClickDiagonalWinPut9()
    ensures Put([[X, O, O], [O, X, X], [X, O, Empty]], 3, 2, 2, X) == [[X, O, O], [O, X, X], [X, O, X]]
  {
    assert [[X, O, O], [O, X, X], [X, O, Empty]][2][2 := X] == [X, O, X];
  }

  lemma NinthClickDiagonalWin9()
    requires Reached(3, [(0, 0), (1, 0), (2, 0), (0, 1), (1, 1), (2, 1), (1, 2), (0, 2)], [[X, O, O], [O, X, X], [X, O, Empty]], 8)
    ensures var (t, v) := Play(3, Initial(3), [(0, 0), (1, 0), (2, 0), (0, 1), (1, 1), (2, 1), (1, 2), (0, 2), (2, 2)]);
            v == Win(X) && t.turns == 9 && t.cells == [[X, O, O], [O, X, X], [X, O, X]] && Frozen(3, t)
  {
    NinthClickDiagonalWinBoard9();
    NinthClickDiagonalWinPut9();
    Advance(3, [(0, 0), (1, 0), (2, 0), (0, 1), (1, 1), (2, 1), (1, 2), (0, 2)], [[X, O, O], [O, X, X], [X, O, Empty]], 8, 2, 2, [(0, 0), (1, 0), (2, 0), (0, 1), (1, 1), (2, 1), (1, 2), (0, 2), (2, 2)], [[X, O, O], [O, X, X], [X, O, X]]);
  }

  /** The clicks (0, 0), (1, 0), (2, 0), (0, 1), (1, 1), (2, 1), (1, 2), (0, 2),
      (2, 2) fill the board without a line only with marks assigned out of turn.
      With the marks OnClick alternates, X completes the main diagonal on the
      ninth click. */
  lemma NinthClickDiagonalWin()
    ensures var (t, v) := Play(3, Initial(3), [(0, 0), (1, 0), (2, 0), (0, 1), (1, 1), (2, 1), (1, 2), (0, 2), (2, 2)]);
            v == Win(X) && t.turns == 9 && t.cells == [[X, O, O], [O, X, X], [X, O, X]] && Frozen(3, t)
  {
    StartReached(3);
    HorizontalWin1();
    DiagonalWin2();
    DrawGame3();
    NinthClickDiagonalWin4();
    NinthClickDiagonalWin5();
    NinthClickDiagonalWin6();
    NinthClickDiagonalWin7();
    NinthClickDiagonalWin8();
    NinthClickDiagonalWin9();
  }

  lemma MissedRowWinBoard1()
    ensures Evaluate([[Empty, X, Empty], [Empty, Empty, Empty], [Empty, Empty, Empty]], 3, 1) == Undecided
  {
  }

  lemma MissedRowWinPut1()
    ensures Put([[Empty, Empty, Empty], [Empty, Empty, Empty], [Empty, Empty, Empty]], 3, 0, 1, X) == [[Empty, X, Empty], [Empty, Empty, Empty], [Empty, Empty, Empty]]
  {
    assert [[Empty, Empty, Empty], [Empty, Empty, Empty], [Empty, Empty, Empty]][0][1 := X] == [Empty, X, Empty];
  }

  lemma MissedRowWin1()
    requires Reached(3, [], [[Empty, Empty, Empty], [Empty, Empty, Empty], [Empty, Empty, Empty]], 0)
    ensures Reached(3, [(0, 1)], [[Empty, X, Empty], [Empty, Empty, Empty], [Empty, Empty, Empty]], 1)
  {
    MissedRowWinBoard1();
    MissedRowWinPut1();
    Advance(3, [], [[Empty, Empty, Empty], [Empty, Empty, Empty], [Empty, Empty, Empty]], 0, 0, 1, [(0, 1)], [[Empty, X, Empty], [Empty, Empty, Empty], [Empty, Empty, Empty]]);
  }

  lemma MissedRowWinBoard2()
    ensures Evaluate([[Empty, X, Empty], [O, Empty, Empty], [Empty, Empty, Empty]], 3, 2) == Undecided
  {
  }

  lemma MissedRowWinPut2()
    ensures Put([[Empty, X, Empty], [Empty, Empty, Empty], [Empty, Empty, Empty]], 3, 1, 0, O) == [[Empty, X, Empty], [O, Empty, Empty], [Empty, Empty, Empty]]
  {
    assert [[Empty, X, Empty], [Empty, Empty, Empty], [Empty, Empty, Empty]][1][0 := O] == [O, Empty, Empty];
  }

  lemma MissedRowWin2()
    requires Reached(3, [(0, 1)], [[Empty, X, Empty], [Empty, Empty, Empty], [Empty, Empty, Empty]], 1)
    ensures Reached(3, [(0, 1), (1, 0)], [[Empty, X, Empty], [O, Empty, Empty], [Empty, Empty, Empty]], 2)
  {
    MissedRowWinBoard2();
    MissedRowWinPut2();
    Advance(3, [(0, 1)], [[Empty, X, Empty], [Empty, Empty, Empty], [Empty, Empty, Empty]], 1, 1, 0, [(0, 1), (1, 0)], [[Empty, X, Empty], [O, Empty, Empty], [Empty, Empty, Empty]]);
  }

  lemma MissedRowWinBoard3()
    ensures Evaluate([[Empty, X, Empty], [O, X, Empty], [Empty, Empty, Empty]], 3, 3) == Undecided
  {
  }

  lemma MissedRowWinPut3()
    ensures Put([[Empty, X, Empty], [O, Empty, Empty], [Empty, Empty, Empty]], 3, 1, 1, X) == [[Empty, X, Empty], [O, X, Empty], [Empty, Empty, Empty]]
  {
    assert [[Empty, X, Empty], [O, Empty, Empty], [Empty, Empty, Empty]][1][1 := X] == [O, X, Empty];
  }

  lemma MissedRowWin3()
    requires Reached(3, [(0, 1), (1, 0)], [[Empty, X, Empty], [O, Empty, Empty], [Empty, Empty, Empty]], 2)
    ensures Reached(3, [(0, 1), (1, 0), (1, 1)], [[Empty, X, Empty], [O, X, Empty], [Empty, Empty, Empty]], 3)
  {
    MissedRowWinBoard3();
    MissedRowWinPut3();
    Advance(3, [(0, 1), (1, 0)], [[Empty, X, Empty], [O, Empty, Empty], [Empty, Empty, Empty]], 2, 1, 1, [(0, 1), (1, 0), (1, 1)], [[Empty, X, Empty], [O, X, Empty], [Empty, Empty, Empty]]);
  }

  lemma MissedRowWinBoard4()
    ensures Evaluate([[Empty, X, Empty], [O, X, Empty], [O, Empty, Empty]], 3, 4) == Undecided
  {
    var g := [[Empty, X, Empty], [O, X, Empty], [O, Empty, Empty]];
    assert !AntiDiagonalAll(g, 3, O) by { assert g[1][1] == X; }
  }

  lemma MissedRowWinPut4()
    ensures Put([[Empty, X, Empty], [O, X, Empty], [Empty, Empty, Empty]], 3, 2, 0, O) == [[Empty, X, Empty], [O, X, Empty], [O, Empty, Empty]]
  {
    assert [[Empty, X, Empty], [O, X, Empty], [Empty, Empty, Empty]][2][0 := O] == [O, Empty, Empty];
  }

  lemma MissedRowWin4()
    requires Reached(3, [(0, 1), (1, 0), (1, 1)], [[Empty, X, Empty], [O, X, Empty], [Empty, Empty, Empty]], 3)
    ensures Reached(3, [(0, 1), (1, 0), (1, 1), (2, 0)], [[Empty, X, Empty], [O, X, Empty], [O, Empty, Empty]], 4)
  {
    MissedRowWinBoard4();
    MissedRowWinPut4();
    Advance(3, [(0, 1), (1, 0), (1, 1)], [[Empty, X, Empty], [O, X, Empty], [Empty, Empty, Empty]], 3, 2, 0, [(0, 1), (1, 0), (1, 1), (2, 0)], [[Empty, X, Empty], [O, X, Empty], [O, Empty, Empty]]);
  }

  lemma MissedRowWinBoard5()
    ensures Evaluate([[Empty, X, Empty], [O, X, Empty], [O, X, Empty]], 3, 5) == Undecided
  {
    var g := [[Empty, X, Empty], [O, X, Empty], [O, X, Empty]];
    assert !AntiDiagonalAll(g, 3, O) by { assert g[1][1] == X; }
  }

  lemma MissedRowWinPut5()
    ensures Put([[Empty, X, Empty], [O, X, Empty], [O, Empty, Empty]], 3, 2, 1, X) == [[Empty, X, Empty], [O, X, Empty], [O, X, Empty]]
  {
    assert [[Empty, X, Empty], [O, X, Empty], [O, Empty, Empty]][2][1 := X] == [O, X, Empty];
  }

  lemma MissedRowWin5()
    requires Reached(3, [(0, 1), (1, 0), (1, 1), (2, 0)], [[Empty, X, Empty], [O, X, Empty], [O, Empty, Empty]], 4)
    ensures Reached(3, [(0, 1), (1, 0), (1, 1), (2, 0), (2, 1)], [[Empty, X, Empty], [O, X, Empty], [O, X, Empty]], 5)
  {
    MissedRowWinBoard5();
    MissedRowWinPut5();
    Advance(3, [(0, 1), (1, 0), (1, 1), (2, 0)], [[Empty, X, Empty], [O, X, Empty], [O, Empty, Empty]], 4, 2, 1, [(0, 1), (1, 0), (1, 1), (2, 0), (2, 1)], [[Empty, X, Empty], [O, X, Empty], [O, X, Empty]]);
  }

  lemma MissedRowWinBoard6()
    ensures Evaluate([[O, X, Empty], [O, X, Empty], [O, X, Empty]], 3, 6) == Win(O)
  {
    var g := [[O, X, Empty], [O, X, Empty], [O, X, Empty]];
    assert RowAll(g, 3, 0, O) by { assert g[0][0] == O && g[1][0] == O && g[2][0] == O; }
  }

  lemma MissedRowWinPut6()
    ensures Put([[Empty, X, Empty], [O, X, Empty], [O, X, Empty]], 3, 0, 0, O) == [[O, X, Empty], [O, X, Empty], [O, X, Empty]]
  {
    assert [[Empty, X, Empty], [O, X, Empty], [O, X, Empty]][0][0 := O] == [O, X, Empty];
  }

  lemma MissedRowWin6()
    requires Reached(3, [(0, 1), (1, 0), (1, 1), (2, 0), (2, 1)], [[Empty, X, Empty], [O, X, Empty], [O, X, Empty]], 5)
    ensures var (t, v) := Play(3, Initial(3), [(0, 1), (1, 0), (1, 1), (2, 0), (2, 1), (0, 0)]);
            v == Win(O) && t.turns == 6 && t.cells == [[O, X, Empty], [O, X, Empty], [O, X, Empty]] && RowAll(t.cells, 3, 1, X) && RowAll(t.cells, 3, 0, O)
  {
    MissedRowWinBoard6();
    MissedRowWinPut6();
    Advance(3, [(0, 1), (1, 0), (1, 1), (2, 0), (2, 1)], [[Empty, X, Empty], [O, X, Empty], [O, X, Empty]], 5, 0, 0, [(0, 1), (1, 0), (1, 1), (2, 0), (2, 1), (0, 0)], [[O, X, Empty], [O, X, Empty], [O, X, Empty]]);
  }

  /** X completes row 1 on the fifth click but the empty corner (0, 0) hides
      it from every scan, so the game goes on; O then takes (0, 0) and is
      reported the winner with row 0. */
  lemma MissedRowWin()
    ensures var (t, v) := Play(3, Initial(3), [(0, 1), (1, 0), (1, 1), (2, 0), (2, 1), (0, 0)]);
            v == Win(O) && t.turns == 6 && t.cells == [[O, X, Empty], [O, X, Empty], [O, X, Empty]] && RowAll(t.cells, 3, 1, X) && RowAll(t.cells, 3, 0, O)
  {
    StartReached(3);
    MissedRowWin1();
    MissedRowWin2();
    MissedRowWin3();
    MissedRowWin4();
    MissedRowWin5();
    MissedRowWin6();
  }
}
