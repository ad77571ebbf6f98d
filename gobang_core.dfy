/**
 * The native engine core: move validation by player id, placement on a
 * copy, the game-end scan, the line counter and the per-direction pattern
 * scorer, the immediate-win finder and the neighbourhood optimiser.
 */
module GobangCore {
  import opened Constants
  import opened Boards
  import opened Windows
  import opened Wrappers
  import Seqs

  /**
   * Rejects, in order, a position off the board, an occupied cell and a
   * player id other than 1 or 2; there is no turn-parity check.
   */
  function ValidateMove(b: Board, n: nat, x: int, y: int, player: int): (r: (bool, string))
    requires IsSquare(b, n)
    ensures r.1 == "invalid_position" <==> !InBounds(n, (x, y))
    ensures InBounds(n, (x, y)) ==> (r.1 == "occupied" <==> b[x][y] != EMPTY)
    ensures InBounds(n, (x, y)) && b[x][y] == EMPTY ==> (r.1 == "invalid_player" <==> player != 1 && player != 2)
    ensures r.0 <==> InBounds(n, (x, y)) && b[x][y] == EMPTY && (player == 1 || player == 2)
    ensures r.0 <==> r.1 == "success"
  {
    if x < 0 || x >= n || y < 0 || y >= n then (false, "invalid_position")
    else if b[x][y] != 0 then (false, "occupied")
    else if player != 1 && player != 2 then (false, "invalid_player")
    else (true, "success")
  }

  /** A copy of the board with colour c at (x, y); nothing else differs. */
  function PlacePiece(b: Board, n: nat, x: int, y: int, c: int): (r: Board)
    requires IsSquare(b, n) && InBounds(n, (x, y))
    ensures IsSquare(r, n) && r[x][y] == c
    ensures forall i, j :: InBounds(n, (i, j)) && (i, j) != (x, y) ==> r[i][j] == b[i][j]
  {
    Set(b, (x, y), c)
  }

  /** The five cells from p in direction (di, dj): whether they all hold p's colour, and their coordinates. */
  method CheckWindow(b: Board, n: nat, p: Pos, di: int, dj: int) returns (win: bool, line: seq<Pos>)
    requires IsSquare(b, n) && InBounds(n, p) && At(b, p) != EMPTY
    requires forall k :: 0 <= k < 5 ==> InBounds(n, Along(p, di, dj, k))
    ensures win <==> FiveAt(b, n, p, di, dj)
    ensures win ==> line == Line(p, di, dj)
  {
    var color := At(b, p);
    win := true;
    line := [];
    var k := 0;
    while k < 5
      invariant 0 <= k <= 5
      invariant |line| == k
      invariant forall t :: 0 <= t < k ==> line[t] == Along(p, di, dj, t) && At(b, Along(p, di, dj, t)) == color
    {
      var q := Along(p, di, dj, k);
      if At(b, q) != color {
        win := false;
        break;
      }
      line := line + [q];
      k := k + 1;
    }
  }

  /** One direction of the game-end scan: the first window holding five, and its cells. */
  method ScanNative(b: Board, n: nat, s: Scan) returns (found: Option<(int, int)>, line: seq<Pos>)
    requires IsSquare(b, n) && Fits(s, n)
    ensures found == ScanFive(b, n, s)
    ensures found.Some? ==> line == Line(StartOf(s, found.value.0, found.value.1), s.di, s.dj)
  {
    var a := s.outerLo;
    while a < s.outerHi
      invariant s.outerLo <= a || s.outerLo >= s.outerHi
      invariant FirstFive(b, n, s, a, s.innerLo) == ScanFive(b, n, s)
      decreases s.outerHi - a
    {
      var c := s.innerLo;
      while c < s.innerHi
        invariant s.innerLo <= c
        invariant FirstFive(b, n, s, a, c) == ScanFive(b, n, s)
        decreases s.innerHi - c
      {
        var p := StartOf(s, a, c);
        assert InRange(s, a, c);
        assert forall k :: 0 <= k < 5 ==> InBounds(n, Along(p, s.di, s.dj, k));
        assert Along(p, s.di, s.dj, 0) == p;
        if At(b, p) != EMPTY {
          var win, l := CheckWindow(b, n, p, s.di, s.dj);
          if win {
            return Some((a, c)), l;
          }
        }
        c := c + 1;
      }
      a := a + 1;
    }
    return None, [];
  }

  /**
   * The game-end check: the first five met scanning horizontally,
   * vertically, down-right and then down-left (cells (i + k, j - k) from
   * column 4 on), with a line size of 5; else a draw on a full board;
   * else the game goes on.
   */
  method CheckGameEnd(b: Board, n: nat) returns (r: GameEndResult)
    requires IsSquare(b, n)
    ensures r == GameEnd(b, n, NativeScans(n))
  {
    ScansFit(n);
    var scans := NativeScans(n);
    var m := 0;
    while m < 4
      invariant 0 <= m <= 4
      invariant FirstHit(b, n, scans, m) == FirstHit(b, n, scans, 0)
    {
      var found, line := ScanNative(b, n, scans[m]);
      if found.Some? {
        var p := StartOf(scans[m], found.value.0, found.value.1);
        ScanFiveSpec(b, n, scans[m]);
        return GameEndResult(true, At(b, p), 5, line);
      }
      m := m + 1;
    }
    var isFull := true;
    var i := 0;
    while i < n
      invariant 0 <= i <= n
      invariant isFull <==> forall i', j' :: 0 <= i' < i && 0 <= j' < n ==> b[i'][j'] != EMPTY
    {
      var j := 0;
      while j < n
        invariant 0 <= j <= n
        invariant isFull <==> forall j' :: 0 <= j' < j ==> b[i][j'] != EMPTY
        invariant forall i', j' :: 0 <= i' < i && 0 <= j' < n ==> b[i'][j'] != EMPTY
      {
        if b[i][j] == 0 {
          isFull := false;
          break;
        }
        j := j + 1;
      }
      if !isFull {
        break;
      }
      i := i + 1;
    }
    if isFull {
      return GameEndResult(true, EMPTY, 0, []);
    }
    return GameEndResult(false, EMPTY, 0, []);
  }

  /**
   * Counts consecutive cells of colour c from (x, y) on, (x, y) included,
   * stepping (dx, dy) until the board edge or another colour.
   */
  method CheckLine(b: Board, n: nat, x: int, y: int, dx: int, dy: int, c: int) returns (count: nat)
    requires IsSquare(b, n) && UnitDir(dx, dy)
    ensures count == RunLength(b, n, (x, y), dx, dy, c)
  {
    count := 0;
    var cx, cy := x, y;
    while 0 <= cx < n && 0 <= cy < n && b[cx][cy] == c
      invariant RunLength(b, n, (x, y), dx, dy, c) == count + RunLength(b, n, (cx, cy), dx, dy, c)
      decreases Remaining(n, (cx, cy), dx, dy)
    {
      RunLengthStep(b, n, (cx, cy), dx, dy, c);
      count := count + 1;
      cx, cy := cx + dx, cy + dy;
    }
  }

  /** The weight a run earns: its length decides, and for 2 to 4 whether it is blocked. */
  function DirScore(total: int, blocked: bool, w: Weights): int
  {
    if total >= 5 then w.five
    else if total == 4 then (if blocked then w.blockedFour else w.four)
    else if total == 3 then (if blocked then w.blockedThree else w.three)
    else if total == 2 then (if blocked then w.blockedTwo else w.two)
    else if total == 1 then w.one
    else 0
  }

  /** Either cell just past the run is on the board and holds the opponent; the edge never blocks. */
  predicate Blocked(b: Board, n: nat, p: Pos, c: int, d: (int, int))
    requires IsSquare(b, n) && UnitDir(d.0, d.1)
  {
    Blocks(b, n, RunEnd(b, n, Along(p, d.0, d.1, 1), d.0, d.1, c), c)
    || Blocks(b, n, RunEnd(b, n, Along(p, -d.0, -d.1, 1), -d.0, -d.1, c), c)
  }

  /** The score of directions i.. of Dirs(), summed. */
  function ScoreFrom(b: Board, n: nat, p: Pos, c: int, w: Weights, i: nat): int
    requires IsSquare(b, n) && i <= 4
    decreases 4 - i
  {
    if i == 4 then 0
    else DirScore(Total(b, n, p, c, Dirs()[i]), Blocked(b, n, p, c, Dirs()[i]), w) + ScoreFrom(b, n, p, c, w, i + 1)
  }

  /** get_pattern_score: the four directions' scores added together. */
  function PatternScore(b: Board, n: nat, p: Pos, c: int, w: Weights): int
    requires IsSquare(b, n)
  {
    ScoreFrom(b, n, p, c, w, 0)
  }

  /** Each direction earns between ONE and FIVE. */
  lemma DirScoreBounds(t: int, bl: bool, w: Weights)
    requires StrictlyDecreasing(w) && t >= 1
    ensures w.one <= DirScore(t, bl, w) <= w.five
  {
  }

  /** Direction i adds between ONE and FIVE to the sum. */
  lemma DirectionBounds(b: Board, n: nat, p: Pos, c: int, w: Weights, i: nat)
    requires IsSquare(b, n) && i < 4 && StrictlyDecreasing(w)
    ensures w.one <= ScoreFrom(b, n, p, c, w, i) - ScoreFrom(b, n, p, c, w, i + 1) <= w.five
  {
    var d := Dirs()[i];
    DirScoreBounds(Total(b, n, p, c, d), Blocked(b, n, p, c, d), w);
  }

  lemma MulSucc(k: int, a: int)
    ensures (k + 1) * a == a + k * a
  {
  }

  /** Directions i.. together earn between (4 - i)*ONE and (4 - i)*FIVE. */
  lemma {:induction false} ScoreFromBounds(b: Board, n: nat, p: Pos, c: int, w: Weights, i: nat)
    requires IsSquare(b, n) && i <= 4 && StrictlyDecreasing(w)
    ensures (4 - i) * w.one <= ScoreFrom(b, n, p, c, w, i) <= (4 - i) * w.five
    decreases 4 - i
  {
    if i < 4 {
      ScoreFromBounds(b, n, p, c, w, i + 1);
      DirectionBounds(b, n, p, c, w, i);
      MulSucc(3 - i, w.one);
      MulSucc(3 - i, w.five);
    }
  }

  /** The sum of the four directions lies between 4*ONE and 4*FIVE. */
  lemma PatternScoreBounds(b: Board, n: nat, p: Pos, c: int, w: Weights)
    requires IsSquare(b, n) && StrictlyDecreasing(w)
    ensures 4 * w.one <= PatternScore(b, n, p, c, w) <= 4 * w.five
  {
    ScoreFromBounds(b, n, p, c, w, 0);
  }

  /** With every weight zero every position scores zero. */
  lemma {:induction false} ZeroWeightsScoreZero(b: Board, n: nat, p: Pos, c: int, i: nat)
    requires IsSquare(b, n) && i <= 4
    ensures ScoreFrom(b, n, p, c, ZeroWeights(), i) == 0
    decreases 4 - i
  {
    if i < 4 {
      ZeroWeightsScoreZero(b, n, p, c, i + 1);
    }
  }

  /**
   * With decreasing weights a longer run never scores less, and at equal
   * length an open run never scores less than a blocked one.
   */
  lemma DirScoreOrder(t1: int, b1: bool, t2: int, b2: bool, w: Weights)
    requires StrictlyDecreasing(w) && 1 <= t1
    requires t1 < t2 || (t1 == t2 && (b1 || !b2))
    ensures DirScore(t1, b1, w) <= DirScore(t2, b2, w)
  {
  }

  /** The cell k steps past a neighbour of (x, y) is k + 1 steps from (x, y), written as a product. */
  lemma AlongFromNeighbour(x: int, y: int, dx: int, dy: int, k: int)
    requires -1 <= dx <= 1 && -1 <= dy <= 1
    ensures Along((x + dx, y + dy), dx, dy, k) == (x + (k + 1) * dx, y + (k + 1) * dy)
  {
    if dx == 1 {
      assert (k + 1) * dx == k + 1;
    } else if dx == -1 {
      assert (k + 1) * dx == -(k + 1);
    } else {
      assert (k + 1) * dx == 0;
    }
    if dy == 1 {
      assert (k + 1) * dy == k + 1;
    } else if dy == -1 {
      assert (k + 1) * dy == -(k + 1);
    } else {
      assert (k + 1) * dy == 0;
    }
  }

  /** The cell q is on the board and holds c's opponent. */
  predicate Blocks(b: Board, n: nat, q: Pos, c: int)
    requires IsSquare(b, n)
  {
    InBounds(n, q) && At(b, q) == OpponentColor(c)
  }

  /** The cell just past the run that starts next to (x, y) lies k + 1 steps from (x, y). */
  lemma RunEndBeyond(b: Board, n: nat, x: int, y: int, c: int, dx: int, dy: int, k: nat, ex: int, ey: int)
    requires IsSquare(b, n) && UnitDir(dx, dy)
    requires k == RunLength(b, n, (x + dx, y + dy), dx, dy, c)
    requires ex == x + (k + 1) * dx && ey == y + (k + 1) * dy
    ensures RunEnd(b, n, Along((x, y), dx, dy, 1), dx, dy, c) == (ex, ey)
  {
    assert Along((x, y), dx, dy, 1) == (x + dx, y + dy);
    RunEndAfterRun(b, n, (x + dx, y + dy), dx, dy, c);
    AlongFromNeighbour(x, y, dx, dy, k);
  }

  /** The run through (x, y) is the two runs counted from its neighbours, and (x, y) itself. */
  lemma TotalAround(b: Board, n: nat, x: int, y: int, c: int, dx: int, dy: int, forward: nat, backward: nat)
    requires IsSquare(b, n) && UnitDir(dx, dy)
    requires forward == RunLength(b, n, (x + dx, y + dy), dx, dy, c)
    requires backward == RunLength(b, n, (x - dx, y - dy), -dx, -dy, c)
    ensures Total(b, n, (x, y), c, (dx, dy)) == forward + backward + 1
  {
    assert Along((x, y), dx, dy, 1) == (x + dx, y + dy);
    assert Along((x, y), -dx, -dy, 1) == (x - dx, y - dy);
    assert Total(b, n, (x, y), c, (dx, dy))
        == RunLength(b, n, (x + dx, y + dy), dx, dy, c) + RunLength(b, n, (x - dx, y - dy), -dx, -dy, c) + 1;
  }

  /** Blocked in terms of the cells just past the two runs counted from the neighbours of (x, y). */
  lemma BlockedAround(b: Board, n: nat, x: int, y: int, c: int, dx: int, dy: int, forward: nat, backward: nat,
                   fx: int, fy: int, backX: int, backY: int)
    requires IsSquare(b, n) && UnitDir(dx, dy)
    requires forward == RunLength(b, n, (x + dx, y + dy), dx, dy, c)
    requires backward == RunLength(b, n, (x - dx, y - dy), -dx, -dy, c)
    requires fx == x + (forward + 1) * dx && fy == y + (forward + 1) * dy
    requires backX == x - (backward + 1) * dx && backY == y - (backward + 1) * dy
    ensures Blocked(b, n, (x, y), c, (dx, dy)) <==> Blocks(b, n, (fx, fy), c) || Blocks(b, n, (backX, backY), c)
  {
    assert Along((x, y), dx, dy, 1) == (x + dx, y + dy);
    assert Along((x, y), -dx, -dy, 1) == (x - dx, y - dy);
    RunEndBeyond(b, n, x, y, c, dx, dy, forward, fx, fy);
    assert (x + -dx, y + -dy) == (x - dx, y - dy);
    assert backX == x + (backward + 1) * -dx && backY == y + (backward + 1) * -dy;
    RunEndBeyond(b, n, x, y, c, -dx, -dy, backward, backX, backY);
  }

  /** Whether the cell just past either run holds the opponent: the source's two bounds-checked reads. */
  method EndsBlocked(b: Board, n: nat, x: int, y: int, c: int, dx: int, dy: int, forward: nat, backward: nat)
    returns (blocked: bool)
    requires IsSquare(b, n) && UnitDir(dx, dy)
    requires forward == RunLength(b, n, (x + dx, y + dy), dx, dy, c)
    requires backward == RunLength(b, n, (x - dx, y - dy), -dx, -dy, c)
    ensures blocked <==> Blocked(b, n, (x, y), c, (dx, dy))
  {
    var opponent := if c == 1 then 2 else 1;
    var fx, fy := x + (forward + 1) * dx, y + (forward + 1) * dy;
    var backX, backY := x - (backward + 1) * dx, y - (backward + 1) * dy;
    blocked := (0 <= fx < n && 0 <= fy < n && b[fx][fy] == opponent)
               || (0 <= backX < n && 0 <= backY < n && b[backX][backY] == opponent);
    assert blocked <==> Blocks(b, n, (fx, fy), c) || Blocks(b, n, (backX, backY), c);
    BlockedAround(b, n, x, y, c, dx, dy, forward, backward, fx, fy, backX, backY);
  }

  /** check_line forward and backward from (x, y), then the weight for the run's length and ends. */
  method DirectionScore(b: Board, n: nat, x: int, y: int, c: int, dx: int, dy: int, w: Weights) returns (s: int)
    requires IsSquare(b, n) && UnitDir(dx, dy)
    ensures s == DirScore(Total(b, n, (x, y), c, (dx, dy)), Blocked(b, n, (x, y), c, (dx, dy)), w)
  {
    var forward := CheckLine(b, n, x + dx, y + dy, dx, dy, c);
    var backward := CheckLine(b, n, x - dx, y - dy, -dx, -dy, c);
    var total := forward + backward + 1;
    var blocked := EndsBlocked(b, n, x, y, c, dx, dy, forward, backward);
    TotalAround(b, n, x, y, c, dx, dy, forward, backward);
    s := DirScore(total, blocked, w);
  }

  /** Sums the four directions' run scores. */
  method GetPatternScore(b: Board, n: nat, x: int, y: int, c: int, w: Weights) returns (score: int)
    requires IsSquare(b, n)
    ensures score == PatternScore(b, n, (x, y), c, w)
  {
    score := 0;
    var dirs := Dirs();
    var i := 0;
    while i < 4
      invariant 0 <= i <= 4
      invariant score + ScoreFrom(b, n, (x, y), c, w, i) == PatternScore(b, n, (x, y), c, w)
    {
      var s := DirectionScore(b, n, x, y, c, dirs[i].0, dirs[i].1, w);
      score := score + s;
      i := i + 1;
    }
  }

  /** The score of placing colour c at p, taken on a copy of the board. */
  function MoveScore(b: Board, n: nat, p: Pos, c: int, w: Weights): int
    requires IsSquare(b, n) && InBounds(n, p)
  {
    ScoreFrom(Set(b, p, c), n, p, c, w, 0)
  }

  /** Scores a copy with the stone placed; the caller's board is a value and stays as it was. */
  method EvaluateMove(b: Board, n: nat, x: int, y: int, c: int, w: Weights) returns (score: int)
    requires IsSquare(b, n) && InBounds(n, (x, y))
    ensures score == MoveScore(b, n, (x, y), c, w)
    ensures StrictlyDecreasing(w) ==> 4 * w.one <= score <= 4 * w.five
  {
    var temp := b;
    temp := temp[x := temp[x][y := c]];
    score := GetPatternScore(temp, n, x, y, c, w);
    if StrictlyDecreasing(w) {
      PatternScoreBounds(temp, n, (x, y), c, w);
    }
  }

  /** Placing c on the empty cell p ends the game with c as the winner. */
  predicate WinsAt(b: Board, n: nat, p: Pos, c: int)
    requires IsSquare(b, n)
  {
    InBounds(n, p) && At(b, p) == EMPTY
    && var r := GameEnd(Set(b, p, c), n, NativeScans(n)); r.isEnd && r.winner == c
  }

  /** A single stone fills no five-cell window: two cells of a window are distinct stones. */
  lemma OneStoneNoFive(n: nat, p: Pos, c: int)
    requires InBounds(n, p)
    ensures NoFive(Set(EmptyBoard(n), p, c), n, NativeScans(n))
  {
    var b := Set(EmptyBoard(n), p, c);
    forall m, a, e | 0 <= m < 4 && InRange(NativeScans(n)[m], a, e)
      ensures !FiveIn(b, n, NativeScans(n)[m], a, e)
    {
      var s := NativeScans(n)[m];
      var q := StartOf(s, a, e);
      assert Along(q, s.di, s.dj, 1) != q;
    }
  }

  /**
   * On an empty board no cell wins at once, for any colour: the search of
   * find_winning_move there always ends with (-1, -1).
   */
  lemma NoWinOnEmptyBoard(n: nat, c: int)
    ensures forall p :: InBounds(n, p) ==> !WinsAt(EmptyBoard(n), n, p, c)
  {
    forall p | InBounds(n, p) ensures !WinsAt(EmptyBoard(n), n, p, c) {
      var b := Set(EmptyBoard(n), p, c);
      SetKeepsSquare(EmptyBoard(n), n, p, c);
      OneStoneNoFive(n, p, c);
      GameEndNoWinner(b, n, NativeScans(n));
      if c == EMPTY {
        assert b[p.0][p.1] == EMPTY;
      }
    }
  }

  /** The first empty cell in row-major order where c wins at once, else (-1, -1). */
  method FindWinningMove(b: Board, n: nat, c: int) returns (r: Pos)
    requires IsSquare(b, n)
    ensures r == (-1, -1) <==> forall p :: InBounds(n, p) ==> !WinsAt(b, n, p, c)
    ensures r != (-1, -1) ==> WinsAt(b, n, r, c) && forall p :: InBounds(n, p) && RowMajorBefore(p, r) ==> !WinsAt(b, n, p, c)
  {
    var i := 0;
    while i < n
      invariant 0 <= i <= n
      invariant forall p :: InBounds(n, p) && p.0 < i ==> !WinsAt(b, n, p, c)
    {
      var j := 0;
      while j < n
        invariant 0 <= j <= n
        invariant forall p :: InBounds(n, p) && (p.0 < i || (p.0 == i && p.1 < j)) ==> !WinsAt(b, n, p, c)
      {
        if b[i][j] == 0 {
          var temp := b;
          temp := temp[i := temp[i][j := c]];
          assert temp == Set(b, (i, j), c);
          var result := CheckGameEnd(temp, n);
          if result.isEnd && result.winner == c {
            assert WinsAt(b, n, (i, j), c);
            return (i, j);
          }
        }
        j := j + 1;
      }
      i := i + 1;
    }
    return (-1, -1);
  }

  /** The eight neighbour offsets, in the order the optimiser visits them. */
  function NeighbourDx(): seq<int> { [-1, 0, 1, -1, 1, -1, 0, 1] }
  function NeighbourDy(): seq<int> { [-1, -1, -1, 0, 0, 1, 1, 1] }

  function Neighbour(m: Pos, d: nat): Pos
    requires d < 8
  {
    (m.0 + NeighbourDx()[d], m.1 + NeighbourDy()[d])
  }

  /** The candidate list after the first d offsets: the initial move, then each on-board empty neighbour. */
  function CandidatesUpTo(b: Board, n: nat, m: Pos, d: nat): seq<Pos>
    requires IsSquare(b, n) && d <= 8
  {
    if d == 0 then [m]
    else
      var q := Neighbour(m, d - 1);
      CandidatesUpTo(b, n, m, d - 1) + (if InBounds(n, q) && At(b, q) == EMPTY then [q] else [])
  }

  function Candidates(b: Board, n: nat, m: Pos): (cs: seq<Pos>)
    requires IsSquare(b, n)
    ensures InBounds(n, m) ==> forall k :: 0 <= k < |cs| ==> InBounds(n, cs[k])
  {
    CandidatesUpToSpec(b, n, m, 8);
    CandidatesUpTo(b, n, m, 8)
  }

  /** The initial move comes first; every later candidate is an on-board empty cell next to it. */
  lemma {:induction false} CandidatesUpToSpec(b: Board, n: nat, m: Pos, d: nat)
    requires IsSquare(b, n) && d <= 8
    ensures |CandidatesUpTo(b, n, m, d)| >= 1 && CandidatesUpTo(b, n, m, d)[0] == m
    ensures forall k :: 1 <= k < |CandidatesUpTo(b, n, m, d)| ==>
      var q := CandidatesUpTo(b, n, m, d)[k];
      InBounds(n, q) && At(b, q) == EMPTY && -1 <= q.0 - m.0 <= 1 && -1 <= q.1 - m.1 <= 1 && q != m
  {
    if d > 0 {
      CandidatesUpToSpec(b, n, m, d - 1);
    }
  }

  lemma CandidatesSpec(b: Board, n: nat, m: Pos)
    requires IsSquare(b, n)
    ensures |Candidates(b, n, m)| >= 1 && Candidates(b, n, m)[0] == m
    ensures forall k :: 1 <= k < |Candidates(b, n, m)| ==>
      var q := Candidates(b, n, m)[k];
      InBounds(n, q) && At(b, q) == EMPTY && -1 <= q.0 - m.0 <= 1 && -1 <= q.1 - m.1 <= 1 && q != m
    ensures InBounds(n, m) ==> forall q :: q in Candidates(b, n, m) ==> InBounds(n, q)
  {
    CandidatesUpToSpec(b, n, m, 8);
  }

  /** The candidate list built as the optimiser builds it. */
  method CollectCandidates(b: Board, n: nat, m: Pos) returns (cs: seq<Pos>)
    requires IsSquare(b, n)
    ensures cs == Candidates(b, n, m)
  {
    cs := [m];
    var dx, dy := NeighbourDx(), NeighbourDy();
    var d := 0;
    while d < 8
      invariant 0 <= d <= 8
      invariant cs == CandidatesUpTo(b, n, m, d)
    {
      var x, y := m.0 + dx[d], m.1 + dy[d];
      assert (x, y) == Neighbour(m, d);
      if x >= 0 && x < n && y >= 0 && y < n && b[x][y] == 0 {
        cs := cs + [(x, y)];
      }
      d := d + 1;
    }
  }

  /** No weight is negative, so no score is either. */
  predicate NonNegative(w: Weights)
  {
    w.five >= 0 && w.four >= 0 && w.blockedFour >= 0 && w.three >= 0
    && w.blockedThree >= 0 && w.two >= 0 && w.blockedTwo >= 0 && w.one >= 0
  }

  lemma {:induction false} ScoreFromNonNegative(b: Board, n: nat, p: Pos, c: int, w: Weights, i: nat)
    requires IsSquare(b, n) && i <= 4 && NonNegative(w)
    ensures ScoreFrom(b, n, p, c, w, i) >= 0
    decreases 4 - i
  {
    if i < 4 {
      ScoreFromNonNegative(b, n, p, c, w, i + 1);
    }
  }

  /** The move scores of a list of on-board candidates, in order. */
  function MoveScores(b: Board, n: nat, cs: seq<Pos>, c: int, w: Weights): (r: seq<real>)
    requires IsSquare(b, n) && forall k :: 0 <= k < |cs| ==> InBounds(n, cs[k])
    ensures |r| == |cs|
  {
    if cs == [] then [] else [MoveScore(b, n, cs[0], c, w) as real] + MoveScores(b, n, cs[1..], c, w)
  }

  /** Element k of the list is candidate k's rollout score. */
  lemma {:induction false} MoveScoresAt(b: Board, n: nat, cs: seq<Pos>, c: int, w: Weights, k: nat)
    requires IsSquare(b, n) && forall k :: 0 <= k < |cs| ==> InBounds(n, cs[k])
    requires k < |cs|
    ensures MoveScores(b, n, cs, c, w)[k] == MoveScore(b, n, cs[k], c, w) as real
  {
    if k > 0 {
      MoveScoresAt(b, n, cs[1..], c, w, k - 1);
    }
  }

  /**
   * scores holds the move score of each candidate.  The quantifier fires
   * only on a move score that is already in view, so callers that only pass
   * scores along never unfold the scoring.
   */
  ghost predicate ScoredAs(b: Board, n: nat, cs: seq<Pos>, c: int, w: Weights, scores: seq<real>)
    requires IsSquare(b, n) && forall k :: 0 <= k < |cs| ==> InBounds(n, cs[k])
  {
    |scores| == |cs|
    && forall k {:trigger MoveScore(b, n, cs[k], c, w)} :: 0 <= k < |cs| ==> scores[k] == MoveScore(b, n, cs[k], c, w) as real
  }

  lemma MoveScoresScoredAs(b: Board, n: nat, cs: seq<Pos>, c: int, w: Weights)
    requires IsSquare(b, n) && forall k :: 0 <= k < |cs| ==> InBounds(n, cs[k])
    ensures ScoredAs(b, n, cs, c, w, MoveScores(b, n, cs, c, w))
  {
    forall k | 0 <= k < |cs| ensures MoveScores(b, n, cs, c, w)[k] == MoveScore(b, n, cs[k], c, w) as real {
      MoveScoresAt(b, n, cs, c, w, k);
    }
  }

  /** x added to itself k times. */
  function Repeat(x: real, k: nat): real
  {
    if k == 0 then 0.0 else Repeat(x, k - 1) + x
  }

  /** Adding x k times and dividing by k gives x back. */
  lemma {:induction false} RepeatAverage(x: real, k: nat)
    requires k > 0
    ensures Repeat(x, k) / (k as real) == x
  {
    RepeatIsProduct(x, k);
  }

  lemma {:induction false} RepeatIsProduct(x: real, k: nat)
    ensures Repeat(x, k) == (k as real) * x
  {
    if k > 0 {
      RepeatIsProduct(x, k - 1);
    }
  }

  /** Repeating a non-negative value gives a non-negative sum. */
  lemma {:induction false} RepeatNonNegative(x: real, k: nat)
    requires x >= 0.0
    ensures Repeat(x, k) >= 0.0
  {
    if k > 0 {
      RepeatNonNegative(x, k - 1);
    }
  }

  /** The inner loop: one rollout score added per iteration, none for a count below one. */
  method SumScores(b: Board, n: nat, q: Pos, c: int, iterations: int, w: Weights) returns (score: real)
    requires IsSquare(b, n) && InBounds(n, q)
    ensures score == Repeat(MoveScore(b, n, q, c, w) as real, if iterations > 0 then iterations else 0)
  {
    ghost var v := MoveScore(b, n, q, c, w);
    score := 0.0;
    var iter := 0;
    while iter < iterations
      invariant 0 <= iter <= (if iterations > 0 then iterations else 0)
      invariant score == Repeat(v as real, iter)
    {
      var temp := b;
      temp := temp[q.0 := temp[q.0][q.1 := c]];
      assert temp == Set(b, q, c);
      SetTwice(b, q, c);
      var e := EvaluateMove(temp, n, q.0, q.1, c, w);
      score := score + e as real;
      iter := iter + 1;
    }
  }

  /**
   * The average of a candidate's rollout scores over the iterations.  With
   * no iterations it is 0/0, a NaN, modelled as None since it compares
   * false with everything; with a negative count the sum is 0, and so is
   * the average.
   */
  method AverageScore(b: Board, n: nat, q: Pos, c: int, iterations: int, w: Weights) returns (avg: Option<real>)
    requires IsSquare(b, n) && InBounds(n, q)
    ensures iterations == 0 <==> avg.None?
    ensures iterations > 0 ==> avg == Some(MoveScore(b, n, q, c, w) as real)
    ensures iterations < 0 ==> avg == Some(0.0)
    ensures iterations > 0 && NonNegative(w) ==> avg.value >= 0.0
  {
    var v := MoveScore(b, n, q, c, w);
    var score := SumScores(b, n, q, c, iterations, w);
    if iterations == 0 {
      return None;
    }
    if iterations > 0 {
      RepeatAverage(v as real, iterations);
      if NonNegative(w) {
        ScoreFromNonNegative(Set(b, q, c), n, q, c, w, 0);
      }
    } else {
      assert score / (iterations as real) == 0.0;
    }
    return Some(score / (iterations as real));
  }

  /** Candidate idx's average, stated against the list of rollout scores. */
  method CandidateAverage(b: Board, n: nat, cands: seq<Pos>, idx: nat, c: int, iterations: int, w: Weights,
                          ghost scores: seq<real>)
    returns (avg: Option<real>)
    requires IsSquare(b, n) && forall k :: 0 <= k < |cands| ==> InBounds(n, cands[k])
    requires idx < |cands| && NonNegative(w) && ScoredAs(b, n, cands, c, w, scores)
    ensures iterations == 0 <==> avg.None?
    ensures iterations > 0 ==> avg == Some(scores[idx]) && avg.value >= 0.0
    ensures iterations < 0 ==> avg == Some(0.0)
  {
    avg := AverageScore(b, n, cands[idx], c, iterations, w);
  }

  /**
   * The candidate loop's state after idx candidates: the best starts at
   * -1e9 and the initial move; with positive iterations it is the first
   * greatest score so far, with a negative count the first candidate (whose
   * average is 0), and with none nothing ever replaces it.
   */
  ghost predicate BestSoFar(scores: seq<real>, idx: nat, bestIdx: nat, bestScore: real, iterations: int)
  {
    idx <= |scores| && bestIdx < |scores|
    && (idx == 0 ==> bestScore == -1000000000.0 && bestIdx == 0)
    && (iterations == 0 ==> bestIdx == 0)
    && (iterations < 0 && idx > 0 ==> bestIdx == 0 && bestScore == 0.0)
    && (iterations > 0 && idx > 0 ==> bestIdx == Seqs.FirstMaxIndex(scores[..idx]) && bestScore == scores[bestIdx])
  }

  /** One step of the candidate loop keeps BestSoFar. */
  lemma BestSoFarStep(scores: seq<real>, idx: nat, bestIdx: nat, bestScore: real, iterations: int, avg: Option<real>)
    requires BestSoFar(scores, idx, bestIdx, bestScore, iterations) && idx < |scores|
    requires iterations == 0 <==> avg.None?
    requires iterations > 0 ==> avg == Some(scores[idx]) && avg.value >= 0.0
    requires iterations < 0 ==> avg == Some(0.0)
    ensures avg.Some? && avg.value > bestScore ==> BestSoFar(scores, idx + 1, idx, avg.value, iterations)
    ensures !(avg.Some? && avg.value > bestScore) ==> BestSoFar(scores, idx + 1, bestIdx, bestScore, iterations)
  {
    if iterations > 0 {
      if idx > 0 {
        Seqs.FirstMaxIndexStep(scores, idx);
      } else {
        Seqs.FirstMaxIndexSingle(scores);
      }
    }
  }

  /** One turn of the candidate loop: candidate idx replaces the best only when strictly better. */
  method Consider(b: Board, n: nat, cands: seq<Pos>, idx: nat, c: int, iterations: int, w: Weights,
                  ghost scores: seq<real>, best: Pos, bestScore: real, ghost bestIdx: nat)
    returns (best': Pos, bestScore': real, ghost bestIdx': nat)
    requires IsSquare(b, n) && forall k :: 0 <= k < |cands| ==> InBounds(n, cands[k])
    requires idx < |cands| && NonNegative(w) && ScoredAs(b, n, cands, c, w, scores)
    requires BestSoFar(scores, idx, bestIdx, bestScore, iterations) && best == cands[bestIdx]
    ensures BestSoFar(scores, idx + 1, bestIdx', bestScore', iterations) && best' == cands[bestIdx']
  {
    var avg := CandidateAverage(b, n, cands, idx, c, iterations, w, scores);
    BestSoFarStep(scores, idx, bestIdx, bestScore, iterations, avg);
    if avg.Some? && avg.value > bestScore {
      best', bestScore', bestIdx' := cands[idx], avg.value, idx;
    } else {
      best', bestScore', bestIdx' := best, bestScore, bestIdx;
    }
  }

  /**
   * The candidate loop: a candidate replaces the best so far only when its
   * average is strictly greater (the best starts at -1e9).  With positive
   * iterations the first candidate of greatest score wins; otherwise the
   * first candidate stays.
   */
  method PickBest(b: Board, n: nat, cands: seq<Pos>, c: int, iterations: int, w: Weights, ghost scores: seq<real>)
    returns (best: Pos)
    requires IsSquare(b, n) && forall k :: 0 <= k < |cands| ==> InBounds(n, cands[k])
    requires |cands| > 0 && NonNegative(w) && ScoredAs(b, n, cands, c, w, scores)
    ensures best in cands
    ensures iterations <= 0 ==> best == cands[0]
    ensures iterations > 0 ==> best == cands[Seqs.FirstMaxIndex(scores)]
  {
    var bestScore: real := -1000000000.0;
    best := cands[0];
    ghost var bestIdx: nat := 0;
    var idx := 0;
    while idx < |cands|
      invariant idx <= |cands|
      invariant BestSoFar(scores, idx, bestIdx, bestScore, iterations) && best == cands[bestIdx]
    {
      best, bestScore, bestIdx := Consider(b, n, cands, idx, c, iterations, w, scores, best, bestScore, bestIdx);
      idx := idx + 1;
    }
    assert scores[..idx] == scores;
  }

  /** mcts_optimize's search for weights w: the initial move and its empty neighbours, scored. */
  method BestCandidate(b: Board, n: nat, m: Pos, c: int, iterations: int, w: Weights) returns (best: Pos)
    requires IsSquare(b, n) && InBounds(n, m) && NonNegative(w)
    ensures best in Candidates(b, n, m)
    ensures iterations <= 0 ==> best == m
    ensures iterations > 0 ==>
      best == Candidates(b, n, m)[Seqs.FirstMaxIndex(MoveScores(b, n, Candidates(b, n, m), c, w))]
  {
    var cands := CollectCandidates(b, n, m);
    CandidatesSpec(b, n, m);
    MoveScoresScoredAs(b, n, cands, c, w);
    best := PickBest(b, n, cands, c, iterations, w, MoveScores(b, n, cands, c, w));
  }

  /** With every weight zero every rollout score is zero. */
  lemma ZeroMoveScores(b: Board, n: nat, cs: seq<Pos>, c: int)
    requires IsSquare(b, n) && forall k :: 0 <= k < |cs| ==> InBounds(n, cs[k])
    ensures forall k :: 0 <= k < |cs| ==> MoveScores(b, n, cs, c, ZeroWeights())[k] == 0.0
  {
    forall k | 0 <= k < |cs| ensures MoveScores(b, n, cs, c, ZeroWeights())[k] == 0.0 {
      MoveScoresAt(b, n, cs, c, ZeroWeights(), k);
      ZeroWeightsScoreZero(Set(b, cs[k], c), n, cs[k], c, 0);
    }
  }

  /**
   * The optimiser as written: it scores candidates with the zero-filled
   * weights record, so every score is 0 and the initial move is returned.
   */
  method MctsOptimize(b: Board, n: nat, initMove: Pos, c: int, depth: int, iterations: int) returns (best: Pos)
    requires IsSquare(b, n) && InBounds(n, initMove)
    ensures best == initMove
  {
    best := BestCandidate(b, n, initMove, c, iterations, ZeroWeights());
    if iterations > 0 {
      CandidatesSpec(b, n, initMove);
      var cs := Candidates(b, n, initMove);
      ZeroMoveScores(b, n, cs, c);
      Seqs.FirstMaxOfConstant(MoveScores(b, n, cs, c, ZeroWeights()), 0.0);
    }
  }
}
