/** The board of the game as a value: an N x N grid of marks, addressed as
    g[x][y] with x the column and y the row, like `slots[x, y]` in Game.cs. */
module Grid {

  /** What a slot shows: nothing yet, or one of the two players' marks
      (the strings "", "X" and "O" of Game.cs). */
  datatype Mark = Empty | X | O

  /** `g` is an n x n grid. */
  predicate IsSquare<T>(g: seq<seq<T>>, n: nat)
  {
    |g| == n && forall x :: 0 <= x < n ==> |g[x]| == n
  }

  /** The n x n grid with every cell set to `v`. */
  function Filled<T>(n: nat, v: T): (g: seq<seq<T>>)
    ensures IsSquare(g, n)
    ensures forall x, y :: 0 <= x < n && 0 <= y < n ==> g[x][y] == v
  {
    seq(n, _ => seq(n, _ => v))
  }

  /** `g` with cell (x, y) overwritten by `v` and every other cell kept. */
  function Put<T>(g: seq<seq<T>>, n: nat, x: int, y: int, v: T): (r: seq<seq<T>>)
    requires IsSquare(g, n) && 0 <= x < n && 0 <= y < n
    ensures IsSquare(r, n)
    ensures r[x][y] == v
    ensures forall i, j :: 0 <= i < n && 0 <= j < n && (i != x || j != y) ==> r[i][j] == g[i][j]
  {
    g[x := g[x][y := v]]
  }

  /** Rows become columns: the cell (x, y) of the result is the cell (y, x) of `g`. */
  function Transpose<T>(g: seq<seq<T>>, n: nat): (t: seq<seq<T>>)
    requires IsSquare(g, n)
    ensures IsSquare(t, n)
    ensures forall x, y :: 0 <= x < n && 0 <= y < n ==> t[x][y] == g[y][x]
  {
    seq(n, x requires 0 <= x < n => seq(n, y requires 0 <= y < n => g[y][x]))
  }

  /** Two n x n grids that agree on every cell are the same grid. */
  lemma SquareExt<T>(a: seq<seq<T>>, b: seq<seq<T>>, n: nat)
    requires IsSquare(a, n) && IsSquare(b, n)
    requires forall x, y :: 0 <= x < n && 0 <= y < n ==> a[x][y] == b[x][y]
    ensures a == b
  {
    forall x | 0 <= x < n
      ensures a[x] == b[x]
    {
      assert forall y :: 0 <= y < n ==> a[x][y] == b[x][y];
    }
  }

  /** Every cell of row y holds `m` (cells (0, y) .. (n-1, y)). */
  predicate RowAll(g: seq<seq<Mark>>, n: nat, y: int, m: Mark)
    requires IsSquare(g, n) && 0 <= y < n
  {
    forall x :: 0 <= x < n ==> g[x][y] == m
  }

  /** Every cell of column x holds `m` (cells (x, 0) .. (x, n-1)). */
  predicate ColumnAll(g: seq<seq<Mark>>, n: nat, x: int, m: Mark)
    requires IsSquare(g, n) && 0 <= x < n
  {
    forall y :: 0 <= y < n ==> g[x][y] == m
  }

  /** Every cell (i, i) holds `m`. */
  predicate MainDiagonalAll(g: seq<seq<Mark>>, n: nat, m: Mark)
    requires IsSquare(g, n)
  {
    forall i :: 0 <= i < n ==> g[i][i] == m
  }

  /** Every cell (x, y) with x + y == n - 1, that is (n-1, 0), (n-2, 1), .., (0, n-1), holds `m`. */
  predicate AntiDiagonalAll(g: seq<seq<Mark>>, n: nat, m: Mark)
    requires IsSquare(g, n)
  {
    forall x, y :: 0 <= x < n && 0 <= y < n && x + y == n - 1 ==> g[x][y] == m
  }

  /** Some full line (a row, a column or one of the two diagonals) holds `m`. */
  predicate HasLine(g: seq<seq<Mark>>, n: nat, m: Mark)
    requires IsSquare(g, n)
  {
    (exists y :: 0 <= y < n && RowAll(g, n, y, m)) ||
    (exists x :: 0 <= x < n && ColumnAll(g, n, x, m)) ||
    MainDiagonalAll(g, n, m) ||
    AntiDiagonalAll(g, n, m)
  }

  // ---------------------------------------------------------------------------
  // Counting empty cells
  // ---------------------------------------------------------------------------

  /** The number of empty cells of one column g[x]. */
  function EmptyInLine(r: seq<Mark>): (c: nat)
    ensures c <= |r|
  {
    if r == [] then 0 else (if r[0] == Empty then 1 else 0) + EmptyInLine(r[1..])
  }

  /** The number of empty cells of a board. */
  function EmptyCells(g: seq<seq<Mark>>): nat
  {
    if g == [] then 0 else EmptyInLine(g[0]) + EmptyCells(g[1..])
  }

  /** No cell of the board is empty. */
  predicate Full(g: seq<seq<Mark>>, n: nat)
    requires IsSquare(g, n)
  {
    forall x, y :: 0 <= x < n && 0 <= y < n ==> g[x][y] != Empty
  }

  lemma {:induction false} EmptyInLineZero(r: seq<Mark>)
    ensures EmptyInLine(r) == 0 <==> forall i :: 0 <= i < |r| ==> r[i] != Empty
  {
    if r != [] {
      EmptyInLineZero(r[1..]);
      assert forall i :: 1 <= i < |r| ==> r[i] == r[1..][i - 1];
    }
  }

  lemma {:induction false} EmptyCellsZero(g: seq<seq<Mark>>)
    ensures EmptyCells(g) == 0 <==> forall x, y :: 0 <= x < |g| && 0 <= y < |g[x]| ==> g[x][y] != Empty
  {
    if g != [] {
      EmptyInLineZero(g[0]);
      EmptyCellsZero(g[1..]);
      assert forall x :: 1 <= x < |g| ==> g[x] == g[1..][x - 1];
    }
  }

  /** A board is full exactly when it has no empty cell to count. */
  lemma FullIffNoEmptyCells(g: seq<seq<Mark>>, n: nat)
    requires IsSquare(g, n)
    ensures Full(g, n) <==> EmptyCells(g) == 0
  {
    EmptyCellsZero(g);
  }

  lemma {:induction false} EmptyInLineFill(r: seq<Mark>, i: int, m: Mark)
    requires 0 <= i < |r| && r[i] == Empty && m != Empty
    ensures EmptyInLine(r[i := m]) + 1 == EmptyInLine(r)
  {
    if i == 0 {
      assert r[i := m][1..] == r[1..];
    } else {
      assert r[i := m][1..] == r[1..][i - 1 := m];
      EmptyInLineFill(r[1..], i - 1, m);
    }
  }

  lemma {:induction false} EmptyCellsReplace(g: seq<seq<Mark>>, x: int, row: seq<Mark>)
    requires 0 <= x < |g|
    ensures EmptyCells(g[x := row]) + EmptyInLine(g[x]) == EmptyCells(g) + EmptyInLine(row)
  {
    if x == 0 {
      assert g[x := row][1..] == g[1..];
    } else {
      assert g[x := row][1..] == g[1..][x - 1 := row];
      EmptyCellsReplace(g[1..], x - 1, row);
    }
  }

  /** Writing a mark into an empty cell leaves one empty cell fewer. */
  lemma PutFillsOne(g: seq<seq<Mark>>, n: nat, x: int, y: int, m: Mark)
    requires IsSquare(g, n) && 0 <= x < n && 0 <= y < n && g[x][y] == Empty && m != Empty
    ensures EmptyCells(Put(g, n, x, y, m)) + 1 == EmptyCells(g)
  {
    EmptyInLineFill(g[x], y, m);
    EmptyCellsReplace(g, x, g[x][y := m]);
  }

  lemma {:induction false} EmptyInLineAll(r: seq<Mark>)
    requires forall i :: 0 <= i < |r| ==> r[i] == Empty
    ensures EmptyInLine(r) == |r|
  {
    if r != [] {
      EmptyInLineAll(r[1..]);
    }
  }

  lemma {:induction false} EmptyCellsAll(g: seq<seq<Mark>>, n: nat)
    requires forall x :: 0 <= x < |g| ==> |g[x]| == n && forall y :: 0 <= y < n ==> g[x][y] == Empty
    ensures EmptyCells(g) == |g| * n
  {
    if g != [] {
      EmptyInLineAll(g[0]);
      EmptyCellsAll(g[1..], n);
      assert |g| * n == n + (|g| - 1) * n;
    }
  }

  /** The empty n x n board has n * n empty cells. */
  lemma EmptyBoardCount(n: nat)
    ensures EmptyCells(Filled(n, Empty)) == n * n
  {
    EmptyCellsAll(Filled(n, Empty), n);
  }
}
