/**
 * The rule engine's pure-Python path: move validation as three rules run
 * in order (position, occupied, player turn), the game-end scan, and the
 * board-legality check used when boards are synchronised between peers.
 */
module RuleEngine {
  import opened Constants
  import opened Boards
  import opened Windows
  import opened Strings
  import Seqs

  /** A rule's answer: whether the move passes and, if not, why. */
  datatype Verdict = Verdict(valid: bool, reason: string)

  const Success: Verdict := Verdict(true, "success")

  function ValidatePosition(n: int, x: int, y: int): (v: Verdict)
    ensures v.valid <==> InBounds(n, (x, y))
    ensures v.valid ==> v == Success
    ensures !v.valid ==> v.reason == "invalid_position"
  {
    if x < 0 || x >= n || y < 0 || y >= n then Verdict(false, "invalid_position") else Success
  }

  function ValidateOccupied(b: Board, x: int, y: int): (v: Verdict)
    requires 0 <= x < |b| && 0 <= y < |b[x]|
    ensures v.valid <==> b[x][y] == EMPTY
    ensures v.valid ==> v == Success
    ensures !v.valid ==> v.reason == "occupied"
  {
    if b[x][y] != EMPTY then Verdict(false, "occupied") else Success
  }

  /** Turn parity from the stone counts: black may not move ahead of white, nor white ahead of black. */
  function ValidatePlayerTurn(b: Board, player: int): (v: Verdict)
    ensures v.reason == "black_turn_invalid" <==> player == BLACK && CountColor(b, BLACK) > CountColor(b, WHITE)
    ensures v.reason == "white_turn_invalid" <==> player == WHITE && CountColor(b, WHITE) > CountColor(b, BLACK)
    ensures v.valid <==> v == Success
    ensures v.valid <==> !(v.reason == "black_turn_invalid" || v.reason == "white_turn_invalid")
  {
    var black := CountColor(b, BLACK);
    var white := CountColor(b, WHITE);
    if player == BLACK && black > white then Verdict(false, "black_turn_invalid")
    else if player == WHITE && white > black then Verdict(false, "white_turn_invalid")
    else Success
  }

  /** With equal counts either colour may move. */
  lemma EqualCountsEitherMay(b: Board, player: int)
    requires CountColor(b, BLACK) == CountColor(b, WHITE)
    ensures ValidatePlayerTurn(b, player).valid
  {
  }

  /**
   * The rules in their declaration order; the first failing rule's reason
   * is returned, else success.
   */
  function ValidateMove(b: Board, n: nat, x: int, y: int, player: int): (v: Verdict)
    requires IsSquare(b, n)
    ensures v.reason == "invalid_position" <==> !InBounds(n, (x, y))
    ensures InBounds(n, (x, y)) ==> (v.reason == "occupied" <==> b[x][y] != EMPTY)
    ensures InBounds(n, (x, y)) && b[x][y] == EMPTY ==> v == ValidatePlayerTurn(b, player)
    ensures v.valid <==> InBounds(n, (x, y)) && b[x][y] == EMPTY && ValidatePlayerTurn(b, player).valid
    ensures v.valid ==> v == Success
  {
    if !ValidatePosition(n, x, y).valid then Verdict(false, ValidatePosition(n, x, y).reason)
    else if !ValidateOccupied(b, x, y).valid then Verdict(false, ValidateOccupied(b, x, y).reason)
    else if !ValidatePlayerTurn(b, player).valid then Verdict(false, ValidatePlayerTurn(b, player).reason)
    else Success
  }

  /**
   * The fallback game-end check: the first five met by the horizontal,
   * vertical, down-right and up-right scans wins; else a full board is a
   * draw; else the game goes on.
   */
  function CheckGameEnd(b: Board, n: nat): (r: GameEndResult)
    requires IsSquare(b, n)
    ensures r.winner != EMPTY ==>
      r.isEnd && |r.winLine| == 5 && forall k :: 0 <= k < 5 ==> InBounds(n, r.winLine[k]) && At(b, r.winLine[k]) == r.winner
    ensures r.winner != EMPTY ==>
      exists m, a, c ::
        && 0 <= m < 4 && InRange(PythonScans(n)[m], a, c)
        && r.winLine == Line(StartOf(PythonScans(n)[m], a, c), PythonScans(n)[m].di, PythonScans(n)[m].dj)
    ensures r.winner == EMPTY <==> NoFive(b, n, PythonScans(n))
    ensures r.winner == EMPTY ==> r.isEnd == IsFull(b, n) && r.winLine == []
  {
    GameEndWinner(b, n, PythonScans(n));
    GameEndNoWinner(b, n, PythonScans(n));
    GameEnd(b, n, PythonScans(n))
  }

  /** Every five of scan s from (a, c) on, as cell lists, in scan order. */
  function AllFives(b: Board, n: nat, s: Scan, a: int, c: int): seq<seq<Pos>>
    requires IsSquare(b, n)
    decreases s.outerHi - a, s.innerHi - c
  {
    if a >= s.outerHi then []
    else if c >= s.innerHi then AllFives(b, n, s, a + 1, s.innerLo)
    else (if FiveIn(b, n, s, a, c) then [Line(StartOf(s, a, c), s.di, s.dj)] else []) + AllFives(b, n, s, a, c + 1)
  }

  /** Every five the scans meet, scan by scan. */
  function AllWinLines(b: Board, n: nat, scans: seq<Scan>, m: nat): seq<seq<Pos>>
    requires IsSquare(b, n) && m <= |scans|
    decreases |scans| - m
  {
    if m == |scans| then [] else AllFives(b, n, scans[m], scans[m].outerLo, scans[m].innerLo) + AllWinLines(b, n, scans, m + 1)
  }

  /** The first collected five is the one the first-five search stops at. */
  lemma {:induction false} AllFivesFirst(b: Board, n: nat, s: Scan, a: int, c: int)
    requires IsSquare(b, n) && s.outerLo <= a && s.innerLo <= c
    ensures AllFives(b, n, s, a, c) == [] <==> FirstFive(b, n, s, a, c).None?
    ensures AllFives(b, n, s, a, c) != [] ==>
      AllFives(b, n, s, a, c)[0] == Line(StartOf(s, FirstFive(b, n, s, a, c).value.0, FirstFive(b, n, s, a, c).value.1), s.di, s.dj)
    decreases s.outerHi - a, s.innerHi - c
  {
    if a >= s.outerHi {
    } else if c >= s.innerHi {
      AllFivesFirst(b, n, s, a + 1, s.innerLo);
    } else {
      AllFivesFirst(b, n, s, a, c + 1);
    }
  }

  /** Every five met from (a, c) on is collected. */
  lemma {:induction false} AllFivesComplete(b: Board, n: nat, s: Scan, a: int, c: int)
    requires IsSquare(b, n) && s.outerLo <= a && s.innerLo <= c
    ensures forall a2, c2 :: InRange(s, a2, c2) && !PairBefore(a2, c2, a, c) && FiveIn(b, n, s, a2, c2) ==>
      Line(StartOf(s, a2, c2), s.di, s.dj) in AllFives(b, n, s, a, c)
    decreases s.outerHi - a, s.innerHi - c
  {
    if a >= s.outerHi {
    } else if c >= s.innerHi {
      AllFivesComplete(b, n, s, a + 1, s.innerLo);
    } else {
      AllFivesComplete(b, n, s, a, c + 1);
    }
  }

  /**
   * _find_all_win_lines and check_game_end agree: the list of win lines is
   * empty exactly when no winner is reported, and otherwise starts with the
   * reported line.
   */
  lemma {:induction false} WinLinesStartWithGameEnd(b: Board, n: nat, scans: seq<Scan>, m: nat)
    requires IsSquare(b, n) && m <= |scans|
    ensures AllWinLines(b, n, scans, m) == [] <==> FirstHit(b, n, scans, m).None?
    ensures AllWinLines(b, n, scans, m) != [] ==>
      var (m1, w) := FirstHit(b, n, scans, m).value;
      AllWinLines(b, n, scans, m)[0] == Line(StartOf(scans[m1], w.0, w.1), scans[m1].di, scans[m1].dj)
    decreases |scans| - m
  {
    if m < |scans| {
      AllFivesFirst(b, n, scans[m], scans[m].outerLo, scans[m].innerLo);
      WinLinesStartWithGameEnd(b, n, scans, m + 1);
    }
  }

  lemma FirstWinLineIsReported(b: Board, n: nat)
    requires IsSquare(b, n)
    ensures var lines := AllWinLines(b, n, PythonScans(n), 0);
      && (lines == [] <==> CheckGameEnd(b, n).winner == EMPTY)
      && (lines != [] ==> lines[0] == CheckGameEnd(b, n).winLine)
  {
    WinLinesStartWithGameEnd(b, n, PythonScans(n), 0);
    GameEndNoWinner(b, n, PythonScans(n));
    FirstHitSpec(b, n, PythonScans(n), 0);
    if FirstHit(b, n, PythonScans(n), 0).Some? {
      var (m1, w) := FirstHit(b, n, PythonScans(n), 0).value;
      ScanFiveSpec(b, n, PythonScans(n)[m1]);
    }
  }

  lemma {:induction false} AllWinLinesHasEachScan(b: Board, n: nat, scans: seq<Scan>, m: nat, m1: nat)
    requires IsSquare(b, n) && m <= m1 < |scans|
    ensures forall l :: l in AllFives(b, n, scans[m1], scans[m1].outerLo, scans[m1].innerLo) ==> l in AllWinLines(b, n, scans, m)
    decreases |scans| - m
  {
    if m < m1 {
      AllWinLinesHasEachScan(b, n, scans, m + 1, m1);
    }
  }

  /**
   * Six stones of one colour in an unbroken row hold two overlapping
   * fives, so two win lines are collected.
   */
  lemma SixInARowGivesTwoLines(b: Board, n: nat, i: int, j: int)
    requires IsSquare(b, n) && 0 <= i < n && 0 <= j && j + 5 < n
    requires b[i][j] != EMPTY && forall k :: j <= k <= j + 5 ==> b[i][k] == b[i][j]
    ensures |AllWinLines(b, n, PythonScans(n), 0)| >= 2
  {
    var h := Horizontal(n);
    assert PythonScans(n)[0] == h;
    var p1, p2 := (i, j), (i, j + 1);
    assert FiveIn(b, n, h, i, j) by {
      forall k | 0 <= k < 5 ensures InBounds(n, Along(p1, 0, 1, k)) && At(b, Along(p1, 0, 1, k)) == b[i][j] {
        assert Along(p1, 0, 1, k) == (i, j + k);
        assert b[i][j + k] == b[i][j];
      }
    }
    assert FiveIn(b, n, h, i, j + 1) by {
      forall k | 0 <= k < 5 ensures InBounds(n, Along(p2, 0, 1, k)) && At(b, Along(p2, 0, 1, k)) == b[i][j + 1] {
        assert Along(p2, 0, 1, k) == (i, j + 1 + k);
        assert b[i][j + 1 + k] == b[i][j];
      }
    }
    AllFivesComplete(b, n, h, h.outerLo, h.innerLo);
    AllWinLinesHasEachScan(b, n, PythonScans(n), 0, 0);
    var l1, l2 := Line((i, j), 0, 1), Line((i, j + 1), 0, 1);
    assert l1 in AllWinLines(b, n, PythonScans(n), 0);
    assert l2 in AllWinLines(b, n, PythonScans(n), 0);
    assert l1[0] != l2[0];
  }

  /** Appends the fives of one scan; the nested loops of one direction of _find_all_win_lines. */
  method AppendFives(b: Board, n: nat, s: Scan, acc: seq<seq<Pos>>) returns (lines: seq<seq<Pos>>)
    requires IsSquare(b, n)
    ensures lines == acc + AllFives(b, n, s, s.outerLo, s.innerLo)
  {
    lines := acc;
    var a := s.outerLo;
    while a < s.outerHi
      invariant lines + AllFives(b, n, s, a, s.innerLo) == acc + AllFives(b, n, s, s.outerLo, s.innerLo)
      decreases s.outerHi - a
    {
      var c := s.innerLo;
      while c < s.innerHi
        invariant lines + AllFives(b, n, s, a, c) == acc + AllFives(b, n, s, s.outerLo, s.innerLo)
        decreases s.innerHi - c
      {
        ghost var before := lines;
        ghost var found := if FiveIn(b, n, s, a, c) then [Line(StartOf(s, a, c), s.di, s.dj)] else [];
        if FiveIn(b, n, s, a, c) {
          lines := lines + [Line(StartOf(s, a, c), s.di, s.dj)];
        }
        Seqs.ConcatAssoc(before, found, AllFives(b, n, s, a, c + 1));
        c := c + 1;
      }
      a := a + 1;
    }
  }

  /** Every five on the board, in the order of the four scans. */
  method FindAllWinLines(b: Board, n: nat) returns (lines: seq<seq<Pos>>)
    requires IsSquare(b, n)
    ensures lines == AllWinLines(b, n, PythonScans(n), 0)
  {
    var scans := PythonScans(n);
    lines := [];
    var m := 0;
    while m < 4
      invariant 0 <= m <= 4
      invariant lines + AllWinLines(b, n, scans, m) == AllWinLines(b, n, scans, 0)
    {
      ghost var before := lines;
      lines := AppendFives(b, n, scans[m], lines);
      Seqs.ConcatAssoc(before, AllFives(b, n, scans[m], scans[m].outerLo, scans[m].innerLo), AllWinLines(b, n, scans, m + 1));
      m := m + 1;
    }
  }

  /** Why is_valid_board rejects a board. */
  datatype BoardVerdict =
    | ValidBoard
    | InvalidBoardSize
    | InvalidPieceColorAt(i: int, j: int)
    | PieceCountMismatch(black: nat, white: nat)
    | MultipleWinLines(count: nat)

  /** The reason text the engine reports for each verdict. */
  function Message(v: BoardVerdict): string
  {
    match v
    case ValidBoard => "success"
    case InvalidBoardSize => "invalid_board_size"
    case InvalidPieceColorAt(i, j) => "invalid_piece_color_at_(" + IntToString(i) + "," + IntToString(j) + ")"
    case PieceCountMismatch(bl, wh) => "piece_count_mismatch: black=" + NatToString(bl) + ", white=" + NatToString(wh)
    case MultipleWinLines(k) => "multiple_win_lines: " + NatToString(k)
  }

  predicate ColorsValid(b: Board, n: nat)
    requires IsSquare(b, n)
  {
    forall i, j :: 0 <= i < n && 0 <= j < n ==> IsPieceColor(b[i][j])
  }

  function Diff(a: nat, b: nat): nat { if a >= b then a - b else b - a }

  /**
   * Board legality, rejecting in order: wrong dimensions, the first
   * (row-major) cell holding something other than a piece colour, a stone
   * count difference above one, and more than one win line.
   */
  method IsValidBoard(b: Board, n: nat) returns (v: BoardVerdict)
    ensures v == InvalidBoardSize <==> !IsSquare(b, n)
    ensures v.InvalidPieceColorAt? ==>
      IsSquare(b, n) && InBounds(n, (v.i, v.j)) && !IsPieceColor(b[v.i][v.j])
      && forall i, j :: InBounds(n, (i, j)) && RowMajorBefore((i, j), (v.i, v.j)) ==> IsPieceColor(b[i][j])
    ensures v.PieceCountMismatch? ==>
      IsSquare(b, n) && ColorsValid(b, n) && v.black == CountColor(b, BLACK) && v.white == CountColor(b, WHITE)
      && Diff(v.black, v.white) > 1
    ensures v.MultipleWinLines? ==>
      IsSquare(b, n) && ColorsValid(b, n) && Diff(CountColor(b, BLACK), CountColor(b, WHITE)) <= 1
      && v.count == |AllWinLines(b, n, PythonScans(n), 0)| && v.count > 1
    ensures v == ValidBoard <==>
      IsSquare(b, n) && ColorsValid(b, n) && Diff(CountColor(b, BLACK), CountColor(b, WHITE)) <= 1
      && |AllWinLines(b, n, PythonScans(n), 0)| <= 1
  {
    if !IsSquare(b, n) {
      return InvalidBoardSize;
    }
    var i := 0;
    while i < n
      invariant 0 <= i <= n
      invariant forall i', j' :: 0 <= i' < i && 0 <= j' < n ==> IsPieceColor(b[i'][j'])
    {
      var j := 0;
      while j < n
        invariant 0 <= j <= n
        invariant forall i', j' :: 0 <= i' < i && 0 <= j' < n ==> IsPieceColor(b[i'][j'])
        invariant forall j' :: 0 <= j' < j ==> IsPieceColor(b[i][j'])
      {
        if !IsPieceColor(b[i][j]) {
          return InvalidPieceColorAt(i, j);
        }
        j := j + 1;
      }
      i := i + 1;
    }
    var black := CountColor(b, BLACK);
    var white := CountColor(b, WHITE);
    if Diff(black, white) > 1 {
      return PieceCountMismatch(black, white);
    }
    var lines := FindAllWinLines(b, n);
    if |lines| > 1 {
      return MultipleWinLines(|lines|);
    }
    return ValidBoard;
  }
}
