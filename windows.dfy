/**
 * Five-in-a-row windows and the stride scans that look for them.  The rule
 * engine and the native core both scan horizontal, vertical and down-right
 * lines, then an anti-diagonal; the two differ only in how they walk the
 * anti-diagonal.  A scan is an outer and an inner index range; each pair
 * of indices names the first cell of a window.
 */
module Windows {
  import opened Constants
  import opened Boards
  import opened Wrappers

  /** x moved k steps in direction d (d is -1, 0 or 1). */
  function Step(x: int, d: int, k: int): int
  {
    if d > 0 then x + k else if d < 0 then x - k else x
  }

  function Along(p: Pos, di: int, dj: int, k: int): Pos
  {
    (Step(p.0, di, k), Step(p.1, dj, k))
  }

  /** The five cells of the window that starts at p and runs in direction (di, dj). */
  function Line(p: Pos, di: int, dj: int): (l: seq<Pos>)
    ensures |l| == 5 && forall k :: 0 <= k < 5 ==> l[k] == Along(p, di, dj, k)
  {
    [Along(p, di, dj, 0), Along(p, di, dj, 1), Along(p, di, dj, 2), Along(p, di, dj, 3), Along(p, di, dj, 4)]
  }

  /** The window at p is on the board and holds five stones of the colour at p. */
  predicate FiveAt(b: Board, n: nat, p: Pos, di: int, dj: int)
    requires IsSquare(b, n)
  {
    && InBounds(n, p) && At(b, p) != EMPTY
    && forall k :: 0 <= k < 5 ==> InBounds(n, Along(p, di, dj, k)) && At(b, Along(p, di, dj, k)) == At(b, p)
  }

  datatype Scan = Scan(outerLo: int, outerHi: int, innerLo: int, innerHi: int, swap: bool, di: int, dj: int)

  /** The window start named by outer index a and inner index c. */
  function StartOf(s: Scan, a: int, c: int): Pos
  {
    if s.swap then (c, a) else (a, c)
  }

  predicate InRange(s: Scan, a: int, c: int)
  {
    s.outerLo <= a < s.outerHi && s.innerLo <= c < s.innerHi
  }

  predicate FiveIn(b: Board, n: nat, s: Scan, a: int, c: int)
    requires IsSquare(b, n)
  {
    FiveAt(b, n, StartOf(s, a, c), s.di, s.dj)
  }

  /** Every window the scan visits lies on the board. */
  ghost predicate Fits(s: Scan, n: nat)
  {
    && -1 <= s.di <= 1 && -1 <= s.dj <= 1
    && forall a, c, k :: InRange(s, a, c) && 0 <= k < 5 ==> InBounds(n, Along(StartOf(s, a, c), s.di, s.dj, k))
  }

  ghost predicate NoFiveIn(b: Board, n: nat, s: Scan)
    requires IsSquare(b, n)
  {
    forall a, c :: InRange(s, a, c) ==> !FiveIn(b, n, s, a, c)
  }

  /** Left to right along each row, rows top to bottom. */
  function Horizontal(n: nat): Scan { Scan(0, n, 0, n - 4, false, 0, 1) }
  /** Top to bottom along each column, columns left to right. */
  function Vertical(n: nat): Scan { Scan(0, n, 0, n - 4, true, 1, 0) }
  /** Down-right diagonals. */
  function Diagonal(n: nat): Scan { Scan(0, n - 4, 0, n - 4, false, 1, 1) }
  /** The rule engine's anti-diagonal: from row 4 on, cells (i - k, j + k). */
  function AntiDiagonalUp(n: nat): Scan { Scan(4, n, 0, n - 4, false, -1, 1) }
  /** The native core's anti-diagonal: from column 4 on, cells (i + k, j - k). */
  function AntiDiagonalDown(n: nat): Scan { Scan(0, n - 4, 4, n, false, 1, -1) }

  function PythonScans(n: nat): seq<Scan>
  {
    [Horizontal(n), Vertical(n), Diagonal(n), AntiDiagonalUp(n)]
  }

  function NativeScans(n: nat): seq<Scan>
  {
    [Horizontal(n), Vertical(n), Diagonal(n), AntiDiagonalDown(n)]
  }

  lemma ScansFit(n: nat)
    ensures forall m :: 0 <= m < 4 ==> Fits(PythonScans(n)[m], n) && Fits(NativeScans(n)[m], n)
  {
  }

  /** Outer-then-inner order on index pairs. */
  predicate PairBefore(a: int, c: int, a2: int, c2: int)
  {
    a < a2 || (a == a2 && c < c2)
  }

  /** The first window of s, from (a, c) on, that holds five; its indices. */
  function FirstFive(b: Board, n: nat, s: Scan, a: int, c: int): Option<(int, int)>
    requires IsSquare(b, n)
    decreases s.outerHi - a, s.innerHi - c
  {
    if a >= s.outerHi then None
    else if c >= s.innerHi then FirstFive(b, n, s, a + 1, s.innerLo)
    else if FiveIn(b, n, s, a, c) then Some((a, c))
    else FirstFive(b, n, s, a, c + 1)
  }

  lemma {:induction false} FirstFiveSpec(b: Board, n: nat, s: Scan, a: int, c: int)
    requires IsSquare(b, n) && s.outerLo <= a && s.innerLo <= c
    ensures FirstFive(b, n, s, a, c).Some? ==>
      var (a1, c1) := FirstFive(b, n, s, a, c).value;
      && InRange(s, a1, c1) && !PairBefore(a1, c1, a, c) && FiveIn(b, n, s, a1, c1)
      && forall a2, c2 :: InRange(s, a2, c2) && !PairBefore(a2, c2, a, c) && PairBefore(a2, c2, a1, c1)
           ==> !FiveIn(b, n, s, a2, c2)
    ensures FirstFive(b, n, s, a, c).None? ==>
      forall a2, c2 :: InRange(s, a2, c2) && !PairBefore(a2, c2, a, c) ==> !FiveIn(b, n, s, a2, c2)
    decreases s.outerHi - a, s.innerHi - c
  {
    if a >= s.outerHi {
    } else if c >= s.innerHi {
      FirstFiveSpec(b, n, s, a + 1, s.innerLo);
    } else if FiveIn(b, n, s, a, c) {
    } else {
      FirstFiveSpec(b, n, s, a, c + 1);
    }
  }

  function ScanFive(b: Board, n: nat, s: Scan): Option<(int, int)>
    requires IsSquare(b, n)
  {
    FirstFive(b, n, s, s.outerLo, s.innerLo)
  }

  lemma ScanFiveSpec(b: Board, n: nat, s: Scan)
    requires IsSquare(b, n)
    ensures ScanFive(b, n, s).None? <==> NoFiveIn(b, n, s)
    ensures ScanFive(b, n, s).Some? ==>
      var (a1, c1) := ScanFive(b, n, s).value;
      && InRange(s, a1, c1) && FiveIn(b, n, s, a1, c1)
      && forall a2, c2 :: InRange(s, a2, c2) && PairBefore(a2, c2, a1, c1) ==> !FiveIn(b, n, s, a2, c2)
  {
    FirstFiveSpec(b, n, s, s.outerLo, s.innerLo);
  }

  /** The first scan, in list order, that holds a five: its index and window. */
  function FirstHit(b: Board, n: nat, scans: seq<Scan>, m: nat): (r: Option<(nat, (int, int))>)
    requires IsSquare(b, n) && m <= |scans|
    ensures r.Some? ==> m <= r.value.0 < |scans|
    decreases |scans| - m
  {
    if m == |scans| then None
    else match ScanFive(b, n, scans[m])
      case Some(w) => Some((m, w))
      case None => FirstHit(b, n, scans, m + 1)
  }

  lemma {:induction false} FirstHitSpec(b: Board, n: nat, scans: seq<Scan>, m: nat)
    requires IsSquare(b, n) && m <= |scans|
    ensures FirstHit(b, n, scans, m).None? <==> forall m2 :: m <= m2 < |scans| ==> NoFiveIn(b, n, scans[m2])
    ensures FirstHit(b, n, scans, m).Some? ==>
      var (m1, w) := FirstHit(b, n, scans, m).value;
      && m <= m1 < |scans| && ScanFive(b, n, scans[m1]) == Some(w)
      && forall m2 :: m <= m2 < m1 ==> NoFiveIn(b, n, scans[m2])
    decreases |scans| - m
  {
    if m < |scans| {
      ScanFiveSpec(b, n, scans[m]);
      FirstHitSpec(b, n, scans, m + 1);
    }
  }

  /** The game-end record, laid out as the native core's GameEndResult. */
  datatype GameEndResult = GameEndResult(isEnd: bool, winner: int, winLineSize: int, winLine: seq<Pos>)

  /**
   * The outcome of a scan list: the first five found (its colour and its
   * cells), else a draw on a full board, else the game goes on.
   */
  function GameEnd(b: Board, n: nat, scans: seq<Scan>): GameEndResult
    requires IsSquare(b, n)
  {
    match FirstHit(b, n, scans, 0)
    case Some((m, (a, c))) =>
      var p := StartOf(scans[m], a, c);
      GameEndResult(true, if InBounds(n, p) then At(b, p) else EMPTY, 5, Line(p, scans[m].di, scans[m].dj))
    case None =>
      if IsFull(b, n) then GameEndResult(true, EMPTY, 0, []) else GameEndResult(false, EMPTY, 0, [])
  }

  ghost predicate NoFive(b: Board, n: nat, scans: seq<Scan>)
    requires IsSquare(b, n)
  {
    forall m :: 0 <= m < |scans| ==> NoFiveIn(b, n, scans[m])
  }

  /**
   * A reported winner owns five consecutive cells of the window the scans
   * met first: every earlier scan found nothing, and so did every earlier
   * window of the same scan.
   */
  lemma GameEndWinner(b: Board, n: nat, scans: seq<Scan>)
    requires IsSquare(b, n)
    ensures var r := GameEnd(b, n, scans);
      r.winner != EMPTY ==>
        && r.isEnd && r.winLineSize == 5 && |r.winLine| == 5
        && exists m, a, c :: 0 <= m < |scans| && InRange(scans[m], a, c)
             && FiveIn(b, n, scans[m], a, c)
             && r.winLine == Line(StartOf(scans[m], a, c), scans[m].di, scans[m].dj)
             && (forall m2 :: 0 <= m2 < m ==> NoFiveIn(b, n, scans[m2]))
             && (forall a2, c2 :: InRange(scans[m], a2, c2) && PairBefore(a2, c2, a, c) ==> !FiveIn(b, n, scans[m], a2, c2))
    ensures var r := GameEnd(b, n, scans);
      r.winner != EMPTY ==> forall k :: 0 <= k < 5 ==> InBounds(n, r.winLine[k]) && At(b, r.winLine[k]) == r.winner
  {
    FirstHitSpec(b, n, scans, 0);
    var r := GameEnd(b, n, scans);
    if FirstHit(b, n, scans, 0).Some? {
      var (m, w) := FirstHit(b, n, scans, 0).value;
      ScanFiveSpec(b, n, scans[m]);
    }
  }

  /**
   * With no five anywhere the game ends exactly when the board is full,
   * as a draw with an empty line; a reported five means the winner is a stone.
   */
  lemma GameEndNoWinner(b: Board, n: nat, scans: seq<Scan>)
    requires IsSquare(b, n)
    ensures var r := GameEnd(b, n, scans);
      && (r.winner == EMPTY <==> NoFive(b, n, scans))
      && (r.winner == EMPTY ==> r.isEnd == IsFull(b, n) && r.winLine == [] && r.winLineSize == 0)
  {
    FirstHitSpec(b, n, scans, 0);
    if FirstHit(b, n, scans, 0).Some? {
      var (m, w) := FirstHit(b, n, scans, 0).value;
      ScanFiveSpec(b, n, scans[m]);
    }
  }

  /** A window read backwards from its far end holds the same five stones. */
  lemma FiveAtReversed(b: Board, n: nat, p: Pos, di: int, dj: int)
    requires IsSquare(b, n) && -1 <= di <= 1 && -1 <= dj <= 1
    ensures FiveAt(b, n, p, di, dj) <==> FiveAt(b, n, Along(p, di, dj, 4), -di, -dj)
  {
    var q := Along(p, di, dj, 4);
    var ei, ej := -di, -dj;
    if FiveAt(b, n, q, ei, ej) {
      assert Along(q, ei, ej, 4) == p;
      assert InBounds(n, p);
      forall k | 0 <= k < 5 ensures InBounds(n, Along(p, di, dj, k)) && At(b, Along(p, di, dj, k)) == At(b, p) {
        assert Along(p, di, dj, k) == Along(q, ei, ej, 4 - k);
      }
    }
    if FiveAt(b, n, p, di, dj) {
      assert Along(p, di, dj, 0) == p;
      forall k | 0 <= k < 5 ensures InBounds(n, Along(q, ei, ej, k)) && At(b, Along(q, ei, ej, k)) == At(b, q) {
        assert Along(q, ei, ej, k) == Along(p, di, dj, 4 - k);
      }
    }
  }

  /** The two anti-diagonal walks visit the same windows. */
  lemma AntiDiagonalsAgree(b: Board, n: nat)
    requires IsSquare(b, n)
    ensures NoFiveIn(b, n, AntiDiagonalUp(n)) <==> NoFiveIn(b, n, AntiDiagonalDown(n))
  {
    var up, down := AntiDiagonalUp(n), AntiDiagonalDown(n);
    if !NoFiveIn(b, n, up) {
      var a, c :| InRange(up, a, c) && FiveIn(b, n, up, a, c);
      FiveAtReversed(b, n, (a, c), -1, 1);
      assert Along((a, c), -1, 1, 4) == StartOf(down, a - 4, c + 4);
      assert InRange(down, a - 4, c + 4);
    }
    if !NoFiveIn(b, n, down) {
      var a, c :| InRange(down, a, c) && FiveIn(b, n, down, a, c);
      FiveAtReversed(b, n, (a, c), 1, -1);
      assert Along((a, c), 1, -1, 4) == StartOf(up, a + 4, c - 4);
      assert InRange(up, a + 4, c - 4);
    }
  }

  lemma NoFiveOfFour(b: Board, n: nat, scans: seq<Scan>)
    requires IsSquare(b, n) && |scans| == 4
    ensures NoFive(b, n, scans) <==>
      NoFiveIn(b, n, scans[0]) && NoFiveIn(b, n, scans[1]) && NoFiveIn(b, n, scans[2]) && NoFiveIn(b, n, scans[3])
  {
  }

  /**
   * The rule engine's fallback scan and the native scan agree on whether
   * the game is over and on whether somebody has won.
   */
  lemma PythonAndNativeAgree(b: Board, n: nat)
    requires IsSquare(b, n)
    ensures GameEnd(b, n, PythonScans(n)).isEnd == GameEnd(b, n, NativeScans(n)).isEnd
    ensures (GameEnd(b, n, PythonScans(n)).winner == EMPTY) == (GameEnd(b, n, NativeScans(n)).winner == EMPTY)
  {
    GameEndNoWinner(b, n, PythonScans(n));
    GameEndNoWinner(b, n, NativeScans(n));
    AntiDiagonalsAgree(b, n);
    NoFiveOfFour(b, n, PythonScans(n));
    NoFiveOfFour(b, n, NativeScans(n));
    assert NoFive(b, n, PythonScans(n)) <==> NoFive(b, n, NativeScans(n));
  }

  /** The four directions the scorers look along: right, down, down-right, down-left. */
  function Dirs(): seq<(int, int)>
  {
    [(0, 1), (1, 0), (1, 1), (1, -1)]
  }

  /** A unit step in one of the eight directions. */
  predicate UnitDir(dx: int, dy: int)
  {
    -1 <= dx <= 1 && -1 <= dy <= 1 && (dx, dy) != (0, 0)
  }

  /** How many cells from p, p itself included, remain on the board going in direction (dx, dy). */
  function Remaining(n: int, p: Pos, dx: int, dy: int): int
  {
    if dx > 0 then n - p.0 else if dx < 0 then p.0 + 1 else if dy > 0 then n - p.1 else p.1 + 1
  }

  /** The number of consecutive cells of colour c from p on, p included, in direction (dx, dy). */
  function RunLength(b: Board, n: nat, p: Pos, dx: int, dy: int, c: int): nat
    requires IsSquare(b, n) && UnitDir(dx, dy)
    decreases Remaining(n, p, dx, dy)
  {
    if InBounds(n, p) && At(b, p) == c then 1 + RunLength(b, n, Along(p, dx, dy, 1), dx, dy, c) else 0
  }

  /** A run that starts on a stone of colour c is that stone and the run from the next cell. */
  lemma RunLengthStep(b: Board, n: nat, p: Pos, dx: int, dy: int, c: int)
    requires IsSquare(b, n) && UnitDir(dx, dy) && InBounds(n, p) && At(b, p) == c
    ensures RunLength(b, n, p, dx, dy, c) == 1 + RunLength(b, n, (p.0 + dx, p.1 + dy), dx, dy, c)
    ensures Remaining(n, (p.0 + dx, p.1 + dy), dx, dy) < Remaining(n, p, dx, dy)
  {
    assert Along(p, dx, dy, 1) == (p.0 + dx, p.1 + dy);
  }

  /** A run is never longer than the cells left before the edge, nor than the board. */
  lemma {:induction false} RunLengthBounded(b: Board, n: nat, p: Pos, dx: int, dy: int, c: int)
    requires IsSquare(b, n) && UnitDir(dx, dy)
    ensures RunLength(b, n, p, dx, dy, c) <= n
    ensures RunLength(b, n, p, dx, dy, c) > 0 ==> InBounds(n, p) && RunLength(b, n, p, dx, dy, c) <= Remaining(n, p, dx, dy)
    decreases Remaining(n, p, dx, dy)
  {
    if InBounds(n, p) && At(b, p) == c {
      RunLengthBounded(b, n, Along(p, dx, dy, 1), dx, dy, c);
    }
  }

  /** The first RunLength cells are all on the board and of colour c. */
  lemma {:induction false} RunLengthCells(b: Board, n: nat, p: Pos, dx: int, dy: int, c: int)
    requires IsSquare(b, n) && UnitDir(dx, dy)
    ensures forall k :: 0 <= k < RunLength(b, n, p, dx, dy, c) ==>
      InBounds(n, Along(p, dx, dy, k)) && At(b, Along(p, dx, dy, k)) == c
    decreases Remaining(n, p, dx, dy)
  {
    if InBounds(n, p) && At(b, p) == c {
      var q := Along(p, dx, dy, 1);
      RunLengthCells(b, n, q, dx, dy, c);
      forall k | 0 < k < RunLength(b, n, p, dx, dy, c)
        ensures InBounds(n, Along(p, dx, dy, k)) && At(b, Along(p, dx, dy, k)) == c
      {
        assert Along(p, dx, dy, k) == Along(q, dx, dy, k - 1);
      }
      assert Along(p, dx, dy, 0) == p;
    }
  }

  /** The cell just past the run is off the board or of another colour. */
  lemma {:induction false} RunLengthStops(b: Board, n: nat, p: Pos, dx: int, dy: int, c: int)
    requires IsSquare(b, n) && UnitDir(dx, dy)
    ensures var r := RunLength(b, n, p, dx, dy, c);
      !(InBounds(n, Along(p, dx, dy, r)) && At(b, Along(p, dx, dy, r)) == c)
    decreases Remaining(n, p, dx, dy)
  {
    if InBounds(n, p) && At(b, p) == c {
      var q := Along(p, dx, dy, 1);
      RunLengthStops(b, n, q, dx, dy, c);
      var r := RunLength(b, n, p, dx, dy, c);
      assert Along(p, dx, dy, r) == Along(q, dx, dy, r - 1);
    } else {
      assert Along(p, dx, dy, 0) == p;
    }
  }

  /** Stones of colour c through p along d: the run forward, the run backward, and p. */
  function Total(b: Board, n: nat, p: Pos, c: int, d: (int, int)): int
    requires IsSquare(b, n) && UnitDir(d.0, d.1)
  {
    RunLength(b, n, Along(p, d.0, d.1, 1), d.0, d.1, c) + RunLength(b, n, Along(p, -d.0, -d.1, 1), -d.0, -d.1, c) + 1
  }

  /** The first cell from p on, in direction (dx, dy), that is off the board or not of colour c. */
  function RunEnd(b: Board, n: nat, p: Pos, dx: int, dy: int, c: int): Pos
    requires IsSquare(b, n) && UnitDir(dx, dy)
    decreases Remaining(n, p, dx, dy)
  {
    if InBounds(n, p) && At(b, p) == c then RunEnd(b, n, Along(p, dx, dy, 1), dx, dy, c) else p
  }

  /** The run ends exactly RunLength cells on. */
  lemma {:induction false} RunEndAfterRun(b: Board, n: nat, p: Pos, dx: int, dy: int, c: int)
    requires IsSquare(b, n) && UnitDir(dx, dy)
    ensures RunEnd(b, n, p, dx, dy, c) == Along(p, dx, dy, RunLength(b, n, p, dx, dy, c))
    decreases Remaining(n, p, dx, dy)
  {
    if InBounds(n, p) && At(b, p) == c {
      RunEndAfterRun(b, n, Along(p, dx, dy, 1), dx, dy, c);
    }
  }

  /** A run that starts on a stone of colour c ends where the run from the next cell ends. */
  lemma RunEndStep(b: Board, n: nat, p: Pos, dx: int, dy: int, c: int)
    requires IsSquare(b, n) && UnitDir(dx, dy) && InBounds(n, p) && At(b, p) == c
    ensures RunEnd(b, n, p, dx, dy, c) == RunEnd(b, n, (p.0 + dx, p.1 + dy), dx, dy, c)
  {
    assert Along(p, dx, dy, 1) == (p.0 + dx, p.1 + dy);
  }
}
