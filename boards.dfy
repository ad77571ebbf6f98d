/**
 * The board: a list of rows of colour codes, indexed board[x][y], and the
 * whole-board queries every part of the engine shares.
 */
module Boards {
  import opened Constants

  type Board = seq<seq<int>>
  type Pos = (int, int)

  /** n rows of n cells each. */
  predicate IsSquare(b: Board, n: int)
  {
    |b| == n && forall i :: 0 <= i < |b| ==> |b[i]| == n
  }

  predicate InBounds(n: int, p: Pos)
  {
    0 <= p.0 < n && 0 <= p.1 < n
  }

  function At(b: Board, p: Pos): int
    requires 0 <= p.0 < |b| && 0 <= p.1 < |b[p.0]|
  {
    b[p.0][p.1]
  }

  /** A copy of b whose cell p holds c. */
  function Set(b: Board, p: Pos, c: int): (r: Board)
    requires 0 <= p.0 < |b| && 0 <= p.1 < |b[p.0]|
    ensures |r| == |b| && (forall i :: 0 <= i < |b| ==> |r[i]| == |b[i]|)
    ensures r[p.0][p.1] == c
    ensures forall i, j :: 0 <= i < |b| && 0 <= j < |b[i]| && (i, j) != p ==> r[i][j] == b[i][j]
  {
    b[p.0 := b[p.0][p.1 := c]]
  }

  /** An n by n board with no stones: np.zeros((n, n)). */
  function EmptyBoard(n: nat): (b: Board)
    ensures IsSquare(b, n) && forall p :: InBounds(n, p) ==> At(b, p) == EMPTY
  {
    seq(n, i => seq(n, j => EMPTY))
  }

  /** Placing the same stone twice is placing it once. */
  lemma SetTwice(b: Board, p: Pos, c: int)
    requires 0 <= p.0 < |b| && 0 <= p.1 < |b[p.0]|
    ensures Set(Set(b, p, c), p, c) == Set(b, p, c)
  {
    var once := Set(b, p, c);
    assert once[p.0][p.1 := c] == once[p.0];
  }

  lemma SetKeepsSquare(b: Board, n: int, p: Pos, c: int)
    requires IsSquare(b, n) && InBounds(n, p)
    ensures IsSquare(Set(b, p, c), n)
  {
  }

  /** Python's row.count(c). */
  function CountRow(row: seq<int>, c: int): nat
  {
    if |row| == 0 then 0 else CountRow(row[..|row| - 1], c) + (if row[|row| - 1] == c then 1 else 0)
  }

  /** sum(row.count(c) for row in board) */
  function CountColor(b: Board, c: int): nat
  {
    if |b| == 0 then 0 else CountColor(b[..|b| - 1], c) + CountRow(b[|b| - 1], c)
  }

  lemma {:induction false} CountRowSet(row: seq<int>, j: int, c: int, old_: int)
    requires 0 <= j < |row| && row[j] == old_
    ensures CountRow(row[j := c], old_) + (if c == old_ then 0 else 1) == CountRow(row, old_)
  {
    var last := |row| - 1;
    if j < last {
      assert row[j := c][..last] == row[..last][j := c];
      CountRowSet(row[..last], j, c, old_);
    } else {
      assert row[j := c][..last] == row[..last];
    }
  }

  lemma {:induction false} CountColorSet(b: Board, p: Pos, c: int)
    requires 0 <= p.0 < |b| && 0 <= p.1 < |b[p.0]|
    ensures CountColor(Set(b, p, c), At(b, p)) + (if c == At(b, p) then 0 else 1) == CountColor(b, At(b, p))
  {
    var last := |b| - 1;
    var r := Set(b, p, c);
    if p.0 < last {
      assert r[..last] == Set(b[..last], p, c);
      assert r[last] == b[last];
      CountColorSet(b[..last], p, c);
    } else {
      assert r[..last] == b[..last];
      CountRowSet(b[last], p.1, c, At(b, p));
    }
  }

  /** Writing c into a row changes the count of any colour d by what leaves and what arrives. */
  lemma {:induction false} CountRowWrite(row: seq<int>, j: int, c: int, d: int)
    requires 0 <= j < |row|
    ensures CountRow(row[j := c], d) + (if row[j] == d then 1 else 0) == CountRow(row, d) + (if c == d then 1 else 0)
  {
    var last := |row| - 1;
    if j < last {
      assert row[j := c][..last] == row[..last][j := c];
      CountRowWrite(row[..last], j, c, d);
    } else {
      assert row[j := c][..last] == row[..last];
    }
  }

  /** Placing c at p changes the count of any colour d by what leaves p and what arrives there. */
  lemma {:induction false} CountColorWrite(b: Board, p: Pos, c: int, d: int)
    requires 0 <= p.0 < |b| && 0 <= p.1 < |b[p.0]|
    ensures CountColor(Set(b, p, c), d) + (if At(b, p) == d then 1 else 0) == CountColor(b, d) + (if c == d then 1 else 0)
  {
    var last := |b| - 1;
    var r := Set(b, p, c);
    if p.0 < last {
      assert r[..last] == Set(b[..last], p, c);
      assert r[last] == b[last];
      CountColorWrite(b[..last], p, c, d);
    } else {
      assert r[..last] == b[..last];
      CountRowWrite(b[last], p.1, c, d);
    }
  }

  /** Placing a stone on an empty cell leaves one empty cell fewer. */
  lemma EmptyCountDrops(b: Board, p: Pos, c: int)
    requires 0 <= p.0 < |b| && 0 <= p.1 < |b[p.0]| && At(b, p) == EMPTY && c != EMPTY
    ensures CountColor(Set(b, p, c), EMPTY) + 1 == CountColor(b, EMPTY)
  {
    CountColorSet(b, p, c);
  }

  predicate RowMajorBefore(p: Pos, q: Pos)
  {
    p.0 < q.0 || (p.0 == q.0 && p.1 < q.1)
  }

  /** The empty cells strictly before (i, j) in row-major order, in that order. */
  function EmptyBefore(b: Board, n: nat, i: nat, j: nat): seq<Pos>
    requires IsSquare(b, n) && i <= n && j <= n && (i < n || j == 0)
    decreases i, j
  {
    if j == 0 then (if i == 0 then [] else EmptyBefore(b, n, i - 1, n))
    else EmptyBefore(b, n, i, j - 1) + (if b[i][j - 1] == EMPTY then [(i, j - 1)] else [])
  }

  lemma {:induction false} EmptyBeforeSpec(b: Board, n: nat, i: nat, j: nat)
    requires IsSquare(b, n) && i <= n && j <= n && (i < n || j == 0)
    ensures forall k :: 0 <= k < |EmptyBefore(b, n, i, j)| ==>
      var p := EmptyBefore(b, n, i, j)[k]; InBounds(n, p) && At(b, p) == EMPTY && RowMajorBefore(p, (i, j))
    ensures forall k, l :: 0 <= k < l < |EmptyBefore(b, n, i, j)| ==>
      RowMajorBefore(EmptyBefore(b, n, i, j)[k], EmptyBefore(b, n, i, j)[l])
    ensures forall p :: InBounds(n, p) && RowMajorBefore(p, (i, j)) && At(b, p) == EMPTY ==> p in EmptyBefore(b, n, i, j)
    decreases i, j
  {
    if j == 0 {
      if i > 0 {
        EmptyBeforeSpec(b, n, i - 1, n);
      }
    } else {
      EmptyBeforeSpec(b, n, i, j - 1);
    }
  }

  /** Every empty cell exactly once, in row-major order. */
  function EmptyCells(b: Board, n: nat): (r: seq<Pos>)
    requires IsSquare(b, n)
    ensures forall p :: p in r <==> InBounds(n, p) && At(b, p) == EMPTY
    ensures forall k, l :: 0 <= k < l < |r| ==> RowMajorBefore(r[k], r[l])
  {
    EmptyBeforeSpec(b, n, n, 0);
    EmptyBefore(b, n, n, 0)
  }

  lemma EmptyCellsDistinct(b: Board, n: nat)
    requires IsSquare(b, n)
    ensures forall k, l :: 0 <= k < l < |EmptyCells(b, n)| ==> EmptyCells(b, n)[k] != EmptyCells(b, n)[l]
  {
  }

  predicate IsFull(b: Board, n: nat)
    requires IsSquare(b, n)
  {
    forall i, j :: 0 <= i < n && 0 <= j < n ==> b[i][j] != EMPTY
  }

  lemma FullIffNoEmptyCells(b: Board, n: nat)
    requires IsSquare(b, n)
    ensures IsFull(b, n) <==> EmptyCells(b, n) == []
  {
    if EmptyCells(b, n) != [] {
      var p := EmptyCells(b, n)[0];
      assert p in EmptyCells(b, n);
      assert b[p.0][p.1] == EMPTY;
    } else {
      forall i, j | 0 <= i < n && 0 <= j < n ensures b[i][j] != EMPTY {
        assert (i, j) in EmptyCells(b, n) <==> b[i][j] == EMPTY;
      }
    }
  }

  /**
   * The double loop over rows and columns that appends each empty cell;
   * it lists exactly the empty cells in row-major order.
   */
  method CollectEmpty(b: Board, n: nat) returns (cells: seq<Pos>)
    requires IsSquare(b, n)
    ensures cells == EmptyCells(b, n)
  {
    cells := [];
    var i := 0;
    while i < n
      invariant 0 <= i <= n
      invariant cells == EmptyBefore(b, n, i, 0)
    {
      var j := 0;
      while j < n
        invariant 0 <= j <= n
        invariant cells == EmptyBefore(b, n, i, j)
      {
        if b[i][j] == EMPTY {
          cells := cells + [(i, j)];
        }
        j := j + 1;
      }
      i := i + 1;
    }
  }
}
