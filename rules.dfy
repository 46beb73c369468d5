/** The result rule of Game.cs (GetResult and the three scans it chains),
    as functions on a board value, with what each scan reports proved exactly.
    The functions follow the code as written, including its early stops; the
    last part of the module gives the scan the code evidently intended and
    boards on which the two differ. */
module Rules {
  import opened Grid

  // ---------------------------------------------------------------------------
  // Horizontal scan (GetHorizontalResult)
  // ---------------------------------------------------------------------------

  /** The row scan from row y on: a row whose leading cell (0, y) is empty ends
      the whole scan; a complete row reports its mark; otherwise the next row. */
  function HorizontalFrom(g: seq<seq<Mark>>, n: nat, y: nat): (r: Mark)
    requires IsSquare(g, n) && y <= n
    ensures r != Empty ==> exists k :: y <= k < n && RowAll(g, n, k, r)
    decreases n - y
  {
    if y == n || g[0][y] == Empty then Empty
    else if RowAll(g, n, y, g[0][y]) then g[0][y]
    else HorizontalFrom(g, n, y + 1)
  }

  /** What GetHorizontalResult returns, with `null` written as Empty. */
  function Horizontal(g: seq<seq<Mark>>, n: nat): (r: Mark)
    requires IsSquare(g, n)
    ensures r != Empty ==> exists y :: 0 <= y < n && RowAll(g, n, y, r)
  {
    HorizontalFrom(g, n, 0)
  }

  /** Scanning rows from `from`, row y is the one reported with mark m: it is
      complete with the non-empty m, and every row before it (from `from` on)
      has a non-empty leading cell and is not complete. */
  predicate HorizontalWinner(g: seq<seq<Mark>>, n: nat, from: nat, y: nat, m: Mark)
    requires IsSquare(g, n) && from <= y < n
  {
    m != Empty && RowAll(g, n, y, m) &&
    forall k :: from <= k < y ==> g[0][k] != Empty && !RowAll(g, n, k, g[0][k])
  }

  lemma {:induction false} HorizontalFromExact(g: seq<seq<Mark>>, n: nat, from: nat, m: Mark)
    requires IsSquare(g, n) && from <= n
    ensures (m != Empty && HorizontalFrom(g, n, from) == m) <==>
            exists y :: from <= y < n && HorizontalWinner(g, n, from, y, m)
    decreases n - from
  {
    if from == n {
    } else if g[0][from] == Empty {
      forall y | from <= y < n
        ensures !HorizontalWinner(g, n, from, y, m)
      {
      }
    } else if RowAll(g, n, from, g[0][from]) {
      if m == g[0][from] {
        assert HorizontalWinner(g, n, from, from, m);
      }
      forall y | from <= y < n && HorizontalWinner(g, n, from, y, m)
        ensures m == g[0][from]
      {
        if y == from {
          assert g[0][from] == m;
        }
      }
    } else {
      HorizontalFromExact(g, n, from + 1, m);
      if exists y :: from <= y < n && HorizontalWinner(g, n, from, y, m) {
        var y :| from <= y < n && HorizontalWinner(g, n, from, y, m);
        assert HorizontalWinner(g, n, from + 1, y, m);
      }
      if m != Empty && HorizontalFrom(g, n, from + 1) == m {
        var y :| from + 1 <= y < n && HorizontalWinner(g, n, from + 1, y, m);
        assert HorizontalWinner(g, n, from, y, m);
      }
    }
  }

  /** GetHorizontalResult returns the non-empty mark m exactly when some row is
      complete with m and no earlier row has an empty leading cell or is itself
      complete. */
  lemma HorizontalExact(g: seq<seq<Mark>>, n: nat, m: Mark)
    requires IsSquare(g, n)
    ensures (m != Empty && Horizontal(g, n) == m) <==>
            exists y :: 0 <= y < n && HorizontalWinner(g, n, 0, y, m)
  {
    HorizontalFromExact(g, n, 0, m);
  }

  lemma {:induction false} HorizontalFromStopsAtGap(g: seq<seq<Mark>>, h: seq<seq<Mark>>, n: nat, gap: nat, from: nat)
    requires IsSquare(g, n) && IsSquare(h, n) && from <= gap < n
    requires g[0][gap] == Empty
    requires forall x, y :: 0 <= x < n && 0 <= y <= gap ==> g[x][y] == h[x][y]
    ensures HorizontalFrom(g, n, from) == HorizontalFrom(h, n, from)
    decreases gap - from
  {
    assert g[0][from] == h[0][from];
    if from < gap {
      assert RowAll(g, n, from, g[0][from]) == RowAll(h, n, from, h[0][from]) by {
        assert forall x :: 0 <= x < n ==> g[x][from] == h[x][from];
      }
      HorizontalFromStopsAtGap(g, h, n, gap, from + 1);
    }
  }

  /** GetHorizontalResult never looks at the rows after the first row whose
      leading cell is empty: two boards that agree up to and including that
      row give the same result. */
  lemma HorizontalStopsAtGap(g: seq<seq<Mark>>, h: seq<seq<Mark>>, n: nat, gap: nat)
    requires IsSquare(g, n) && IsSquare(h, n) && gap < n
    requires g[0][gap] == Empty
    requires forall x, y :: 0 <= x < n && 0 <= y <= gap ==> g[x][y] == h[x][y]
    ensures Horizontal(g, n) == Horizontal(h, n)
  {
    HorizontalFromStopsAtGap(g, h, n, gap, 0);
  }

  /** In particular an empty corner cell (0, 0) ends the row scan at once. */
  lemma HorizontalEmptyCorner(g: seq<seq<Mark>>, n: nat)
    requires IsSquare(g, n) && n > 0 && g[0][0] == Empty
    ensures Horizontal(g, n) == Empty
  {
  }

  // ---------------------------------------------------------------------------
  // Vertical scan (GetVerticalResult)
  // ---------------------------------------------------------------------------

  /** The column scan from column x on: a column whose top cell (x, 0) is empty
      ends the whole scan; a complete column reports its mark. */
  function VerticalFrom(g: seq<seq<Mark>>, n: nat, x: nat): (r: Mark)
    requires IsSquare(g, n) && x <= n
    ensures r != Empty ==> exists k :: x <= k < n && ColumnAll(g, n, k, r)
    decreases n - x
  {
    if x == n || g[x][0] == Empty then Empty
    else if ColumnAll(g, n, x, g[x][0]) then g[x][0]
    else VerticalFrom(g, n, x + 1)
  }

  /** What GetVerticalResult returns, with `null` written as Empty. */
  function Vertical(g: seq<seq<Mark>>, n: nat): (r: Mark)
    requires IsSquare(g, n)
    ensures r != Empty ==> exists x :: 0 <= x < n && ColumnAll(g, n, x, r)
  {
    VerticalFrom(g, n, 0)
  }

  /** Column-wise counterpart of HorizontalWinner. */
  predicate VerticalWinner(g: seq<seq<Mark>>, n: nat, from: nat, x: nat, m: Mark)
    requires IsSquare(g, n) && from <= x < n
  {
    m != Empty && ColumnAll(g, n, x, m) &&
    forall k :: from <= k < x ==> g[k][0] != Empty && !ColumnAll(g, n, k, g[k][0])
  }

  lemma ColumnAllIsTransposedRow(g: seq<seq<Mark>>, n: nat, x: nat, m: Mark)
    requires IsSquare(g, n) && x < n
    ensures ColumnAll(g, n, x, m) == RowAll(Transpose(g, n), n, x, m)
  {
    var t := Transpose(g, n);
    assert forall y :: 0 <= y < n ==> t[y][x] == g[x][y];
  }

  lemma {:induction false} VerticalFromIsTransposed(g: seq<seq<Mark>>, n: nat, from: nat)
    requires IsSquare(g, n) && from <= n
    ensures VerticalFrom(g, n, from) == HorizontalFrom(Transpose(g, n), n, from)
    decreases n - from
  {
    if from < n {
      ColumnAllIsTransposedRow(g, n, from, g[from][0]);
      VerticalFromIsTransposed(g, n, from + 1);
    }
  }

  /** The column scan is the row scan of the transposed board. */
  lemma VerticalIsTransposedHorizontal(g: seq<seq<Mark>>, n: nat)
    requires IsSquare(g, n)
    ensures Vertical(g, n) == Horizontal(Transpose(g, n), n)
  {
    VerticalFromIsTransposed(g, n, 0);
  }

  /** GetVerticalResult returns the non-empty mark m exactly when some column
      is complete with m and no earlier column has an empty top cell or is
      itself complete. */
  lemma VerticalExact(g: seq<seq<Mark>>, n: nat, m: Mark)
    requires IsSquare(g, n)
    ensures (m != Empty && Vertical(g, n) == m) <==>
            exists x :: 0 <= x < n && VerticalWinner(g, n, 0, x, m)
  {
    var t := Transpose(g, n);
    VerticalIsTransposedHorizontal(g, n);
    HorizontalExact(t, n, m);
    forall x | 0 <= x < n
      ensures VerticalWinner(g, n, 0, x, m) == HorizontalWinner(t, n, 0, x, m)
    {
      forall k | 0 <= k <= x
        ensures ColumnAll(g, n, k, g[k][0]) == RowAll(t, n, k, t[0][k])
        ensures ColumnAll(g, n, k, m) == RowAll(t, n, k, m)
      {
        ColumnAllIsTransposedRow(g, n, k, g[k][0]);
        ColumnAllIsTransposedRow(g, n, k, m);
      }
    }
  }

  // ---------------------------------------------------------------------------
  // Diagonal scan (GetDiagonalResult) and the chained result (GetResult)
  // ---------------------------------------------------------------------------

  /** What GetDiagonalResult returns: the main diagonal's mark if it is complete
      and non-empty, else the anti-diagonal's (read at its top cell (n-1, 0)) if
      it is, else Empty. */
  function Diagonal(g: seq<seq<Mark>>, n: nat): (r: Mark)
    requires IsSquare(g, n) && n > 0
    ensures r != Empty ==> MainDiagonalAll(g, n, r) || AntiDiagonalAll(g, n, r)
    ensures forall m :: m != Empty && MainDiagonalAll(g, n, m) ==> r == m
    ensures forall m :: m != Empty && AntiDiagonalAll(g, n, m) && (g[0][0] == Empty || !MainDiagonalAll(g, n, g[0][0])) ==> r == m
    ensures r == Empty ==> forall m :: m != Empty ==> !MainDiagonalAll(g, n, m) && !AntiDiagonalAll(g, n, m)
  {
    if g[0][0] != Empty && MainDiagonalAll(g, n, g[0][0]) then g[0][0]
    else if g[n - 1][0] != Empty && AntiDiagonalAll(g, n, g[n - 1][0]) then g[n - 1][0]
    else Empty
  }

  /** What GetResult returns: the horizontal result if there is one, else the
      vertical, else the diagonal, else Empty ("" in Game.cs). */
  function Result(g: seq<seq<Mark>>, n: nat): (r: Mark)
    requires IsSquare(g, n) && n > 0
    ensures r != Empty ==> HasLine(g, n, r)
    ensures Horizontal(g, n) != Empty ==> r == Horizontal(g, n)
    ensures Horizontal(g, n) == Empty && Vertical(g, n) != Empty ==> r == Vertical(g, n)
    ensures Horizontal(g, n) == Empty && Vertical(g, n) == Empty ==> r == Diagonal(g, n)
  {
    var h := Horizontal(g, n);
    if h != Empty then h
    else
      var v := Vertical(g, n);
      if v != Empty then v else Diagonal(g, n)
  }

  // ---------------------------------------------------------------------------
  // The scan as evidently intended, and boards where the code misses a win
  // ---------------------------------------------------------------------------

  /** Intended row scan: a row with an empty leading cell is skipped instead of
      ending the scan. */
  function RowWinnerFrom(g: seq<seq<Mark>>, n: nat, y: nat): (r: Mark)
    requires IsSquare(g, n) && y <= n
    ensures r != Empty ==> exists k :: y <= k < n && RowAll(g, n, k, r)
    ensures r == Empty ==> forall k, m :: y <= k < n && m != Empty ==> !RowAll(g, n, k, m)
    decreases n - y
  {
    if y == n then Empty
    else if g[0][y] != Empty && RowAll(g, n, y, g[0][y]) then g[0][y]
    else RowWinnerFrom(g, n, y + 1)
  }

  function RowWinner(g: seq<seq<Mark>>, n: nat): (r: Mark)
    requires IsSquare(g, n)
  {
    RowWinnerFrom(g, n, 0)
  }

  /** Intended column scan: the intended row scan of the transposed board. */
  function ColumnWinner(g: seq<seq<Mark>>, n: nat): (r: Mark)
    requires IsSquare(g, n)
  {
    RowWinner(Transpose(g, n), n)
  }

  /** The intended result rule: rows, then columns, then diagonals, with no
      early stop. */
  function IntendedResult(g: seq<seq<Mark>>, n: nat): (r: Mark)
    requires IsSquare(g, n) && n > 0
  {
    var h := RowWinner(g, n);
    if h != Empty then h
    else
      var v := ColumnWinner(g, n);
      if v != Empty then v else Diagonal(g, n)
  }

  /** The intended rule reports a mark exactly when some line is complete with
      a non-empty mark, and the mark it reports is the mark of such a line. */
  lemma IntendedResultExact(g: seq<seq<Mark>>, n: nat)
    requires IsSquare(g, n) && n > 0
    ensures IntendedResult(g, n) != Empty <==> exists m :: m != Empty && HasLine(g, n, m)
    ensures IntendedResult(g, n) != Empty ==> HasLine(g, n, IntendedResult(g, n))
  {
    var t := Transpose(g, n);
    forall x, m | 0 <= x < n
      ensures ColumnAll(g, n, x, m) == RowAll(t, n, x, m)
    {
      ColumnAllIsTransposedRow(g, n, x, m);
    }
    var r := IntendedResult(g, n);
    if r != Empty {
      assert HasLine(g, n, r);
    } else {
      forall m | m != Empty
        ensures !HasLine(g, n, m)
      {
        assert RowWinnerFrom(g, n, 0) == Empty;
        assert RowWinnerFrom(t, n, 0) == Empty;
      }
    }
  }

  /** Row 1 is all X, yet GetResult reports nothing: the row scan stops at the
      empty cell (0, 0), and so does the column scan. */
  lemma RowWinMissed()
    ensures var g := [[Empty, X, Empty], [O, X, Empty], [O, X, Empty]];
            IsSquare(g, 3) && RowAll(g, 3, 1, X) && Result(g, 3) == Empty && IntendedResult(g, 3) == X
  {
    var g := [[Empty, X, Empty], [O, X, Empty], [O, X, Empty]];
    assert !AntiDiagonalAll(g, 3, O) by {
      assert g[1][1] == X;
    }
    assert RowAll(g, 3, 1, X);
    assert RowWinnerFrom(g, 3, 0) == X;
  }

  /** Column 1 is all X, yet GetResult reports nothing: the column scan stops at
      the empty cell (0, 0) before it reaches column 1. */
  lemma ColumnWinMissed()
    ensures var g := [[Empty, O, Empty], [X, X, X], [O, Empty, Empty]];
            IsSquare(g, 3) && ColumnAll(g, 3, 1, X) && Result(g, 3) == Empty && IntendedResult(g, 3) == X
  {
    var g := [[Empty, O, Empty], [X, X, X], [O, Empty, Empty]];
    var t := Transpose(g, 3);
    assert !AntiDiagonalAll(g, 3, O) by {
      assert g[1][1] == X;
    }
    assert !RowAll(g, 3, 1, O) by {
      assert g[1][1] == X;
    }
    assert RowWinnerFrom(g, 3, 0) == Empty;
    assert t[0][1] == X && RowAll(t, 3, 1, X);
    assert RowWinnerFrom(t, 3, 0) == X;
  }
}
