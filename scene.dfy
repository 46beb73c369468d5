/** The Game component of Game.cs as a class: the slot texts in a 2-D array,
    the slot buttons' clickable flags in a second one, and turnCount. Each
    method does what its counterpart in Game.cs does, loop by loop, and is
    proved against the value-level engine of module Engine. */
module Scene {
  import opened Grid
  import opened Rules
  import opened Engine

  class Game {
    /** LENGTH, the side of the board. */
    const n: nat
    /** The text of slot (x, y) is slots[x, y]. */
    const slots: array2<Mark>
    /** Whether the button of slot (x, y) is interactable. */
    const clickable: array2<bool>
    var turnCount: int

    /** The board's size and the dimensions of both arrays; all constant. */
    ghost predicate Shaped()
    {
      2 <= n <= 46340 &&
      slots.Length0 == n && slots.Length1 == n &&
      clickable.Length0 == n && clickable.Length1 == n
    }

    ghost predicate Valid()
      reads this
    {
      Shaped() && 0 <= turnCount <= MaxTurns(n)
    }

    /** The slot texts as a board value. */
    ghost function Cells(): (g: seq<seq<Mark>>)
      reads slots
      requires Shaped()
      ensures IsSquare(g, n)
      ensures forall x, y :: 0 <= x < n && 0 <= y < n ==> g[x][y] == slots[x, y]
    {
      seq(n, x requires 0 <= x < n reads slots =>
        seq(n, y requires 0 <= y < n reads slots => slots[x, y]))
    }

    /** The clickable flags as a grid value. */
    ghost function Flags(): (f: seq<seq<bool>>)
      reads clickable
      requires Shaped()
      ensures IsSquare(f, n)
      ensures forall x, y :: 0 <= x < n && 0 <= y < n ==> f[x][y] == clickable[x, y]
    {
      seq(n, x requires 0 <= x < n reads clickable =>
        seq(n, y requires 0 <= y < n reads clickable => clickable[x, y]))
    }

    /** Everything the engine reads and writes, as one value. */
    ghost function State(): (s: Snapshot)
      reads this, slots, clickable
      requires Valid()
      ensures Wf(n, s)
    {
      Snapshot(Cells(), turnCount, Flags())
    }

    /** Start: SetupRule sets turnCount to 0, SetupSlot creates the slots,
        each with an empty text and a clickable button. */
    constructor (length: nat)
      requires 2 <= length <= 46340
      ensures Valid() && n == length
      ensures State() == Initial(n)
      ensures fresh(slots) && fresh(clickable)
    {
      n := length;
      turnCount := 0;
      slots := new Mark[length, length];
      clickable := new bool[length, length];
      new;
      for y := 0 to length
        modifies slots, clickable
        invariant forall i, j :: 0 <= i < length && 0 <= j < y ==> slots[i, j] == Empty && clickable[i, j]
      {
        for x := 0 to length
          modifies slots, clickable
          invariant forall i, j :: 0 <= i < length && 0 <= j < y ==> slots[i, j] == Empty && clickable[i, j]
          invariant forall i :: 0 <= i < x ==> slots[i, y] == Empty && clickable[i, y]
        {
          slots[x, y] := Empty;
          clickable[x, y] := true;
        }
      }
      SquareExt(Cells(), Filled(n, Empty), n);
      SquareExt(Flags(), Filled(n, true), n);
    }

    /** GetHorizontalResult: rows top to bottom; an empty leading cell ends the
        scan, a row equal to its leading cell throughout is reported. */
    method GetHorizontalResult() returns (r: Mark)
      requires Valid()
      ensures r == Horizontal(Cells(), n)
    {
      ghost var g := Cells();
      for y := 0 to n
        invariant HorizontalFrom(g, n, y) == Horizontal(g, n)
      {
        var firstWord := slots[0, y];
        if firstWord == Empty {
          break;
        }
        var finished := true;
        for x := 1 to n
          invariant finished
          invariant forall i :: 0 <= i < x ==> g[i][y] == firstWord
        {
          if slots[x, y] != firstWord {
            finished := false;
            break;
          }
        }
        if finished {
          return firstWord;
        }
      }
      return Empty;
    }

    /** GetVerticalResult: columns left to right; an empty top cell ends the
        scan, a column equal to its top cell throughout is reported. The inner
        loop starts at row 0 and so first compares the top cell with itself. */
    method GetVerticalResult() returns (r: Mark)
      requires Valid()
      ensures r == Vertical(Cells(), n)
    {
      ghost var g := Cells();
      for x := 0 to n
        invariant VerticalFrom(g, n, x) == Vertical(g, n)
      {
        var firstWord := slots[x, 0];
        if firstWord == Empty {
          break;
        }
        var finished := true;
        for y := 0 to n
          invariant finished
          invariant forall j :: 0 <= j < y ==> g[x][j] == firstWord
        {
          if slots[x, y] != firstWord {
            finished := false;
            break;
          }
        }
        if finished {
          return firstWord;
        }
      }
      return Empty;
    }

    /** GetDiagonalResult: the main diagonal from (0, 0), then the
        anti-diagonal from (n-1, 0). */
    method GetDiagonalResult() returns (r: Mark)
      requires Valid()
      ensures r == Diagonal(Cells(), n)
    {
      ghost var g := Cells();
      var firstWord := slots[0, 0];
      if firstWord != Empty {
        var finished := true;
        for xy := 1 to n
          invariant finished
          invariant forall i :: 0 <= i < xy ==> slots[i, i] == firstWord
        {
          if slots[xy, xy] != firstWord {
            finished := false;
            break;
          }
        }
        if finished {
          return firstWord;
        }
      }
      var lastIndex := n - 1;
      firstWord := slots[lastIndex, 0];
      if firstWord != Empty {
        var finished := true;
        for y := 1 to n
          invariant finished
          invariant forall i, j :: 0 <= i < n && 0 <= j < y && i + j == lastIndex ==> slots[i, j] == firstWord
        {
          var x := lastIndex - y;
          if slots[x, y] != firstWord {
            finished := false;
            break;
          }
        }
        if finished {
          return firstWord;
        }
      }
      return Empty;
    }

    /** GetResult: the first non-empty of the horizontal, vertical and diagonal
        results, or Empty. */
    method GetResult() returns (r: Mark)
      requires Valid()
      ensures r == Result(Cells(), n)
    {
      r := GetHorizontalResult();
      if r == Empty {
        r := GetVerticalResult();
        if r == Empty {
          r := GetDiagonalResult();
        }
      }
    }

    /** SetResult, as far as the engine goes: every slot becomes non-clickable. */
    method SetResult()
      requires Valid()
      modifies clickable
      ensures Cells() == old(Cells())
      ensures Flags() == Filled(n, false)
    {
      for y := 0 to n
        invariant forall i, j :: 0 <= i < n && 0 <= j < y ==> !clickable[i, j]
      {
        for x := 0 to n
          invariant forall i, j :: 0 <= i < n && 0 <= j < y ==> !clickable[i, j]
          invariant forall i :: 0 <= i < x ==> !clickable[i, y]
        {
          clickable[x, y] := false;
        }
      }
      SquareExt(Flags(), Filled(n, false), n);
    }

    /** Game.OnClick(x, y). */
    method OnClick(x: int, y: int) returns (v: Verdict)
      requires Valid() && 0 <= x < n && 0 <= y < n
      modifies this, slots, clickable
      ensures Valid()
      ensures (State(), v) == Click(n, old(State()), x, y)
    {
      if turnCount >= MaxTurns(n) {
        return Undecided;
      }
      ghost var before := State();
      ghost var cells := Put(before.cells, n, x, y, PlayerMark(before.turns));
      var text := if turnCount % 2 == 0 then X else O;
      slots[x, y] := text;
      turnCount := turnCount + 1;
      SquareExt(Cells(), cells, n);
      var result := GetResult();
      if result != Empty {
        SetResult();
        v := Win(result);
      } else if turnCount >= MaxTurns(n) {
        SetResult();
        v := Draw;
      } else {
        v := Undecided;
      }
      assert v == Evaluate(cells, n, turnCount);
      ClickAccepted(n, before, x, y, v);
    }

    /** Slot.OnClick on slot (x, y): its button becomes non-clickable, then
        the click goes on to Game.OnClick. */
    method SlotOnClick(x: int, y: int) returns (v: Verdict)
      requires Valid() && 0 <= x < n && 0 <= y < n
      modifies this, slots, clickable
      ensures Valid()
      ensures (State(), v) == SlotClick(n, old(State()), x, y)
    {
      ghost var before := State();
      clickable[x, y] := false;
      SquareExt(Flags(), Put(before.clickable, n, x, y, false), n);
      v := OnClick(x, y);
    }
  }
}
