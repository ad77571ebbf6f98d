/**
 * The data conversions of DataUtils: boards to and from their ';'/','
 * text form, moves to and from flat indices, board checks, batching, the
 * board centre and the HH:MM:SS time format.  A Python exception
 * (StorageError around a failed int(), ZeroDivisionError, ValueError of a
 * zero range step) is the None of an Option.
 */
module DataUtils {
  import opened Wrappers
  import opened Constants
  import opened Boards
  import opened Strings
  import Seqs

  // ---------------------------------------------------------------------
  // Board <-> string
  // ---------------------------------------------------------------------

  /** The cells of one row written in decimal. */
  function CellStrings(row: seq<int>): (parts: seq<string>)
    ensures |parts| == |row|
    ensures NoneContains(parts, ',') && NoneContains(parts, ';')
  {
    forall k | 0 <= k < |row| ensures ',' !in IntToString(row[k]) && ';' !in IntToString(row[k]) {
      IntToStringAvoids(row[k], ',');
      IntToStringAvoids(row[k], ';');
    }
    seq(|row|, k requires 0 <= k < |row| => IntToString(row[k]))
  }

  /** One row joined with ','. */
  function RowString(row: seq<int>): (s: string)
    ensures ';' !in s
  {
    JoinAvoids(CellStrings(row), ',', ';');
    Join(CellStrings(row), ',')
  }

  function RowStrings(b: seq<seq<int>>): (parts: seq<string>)
    ensures |parts| == |b| && NoneContains(parts, ';')
  {
    seq(|b|, i requires 0 <= i < |b| => RowString(b[i]))
  }

  /** board_to_str: the rows joined with ';'. */
  function BoardToStr(b: seq<seq<int>>): (s: string)
    ensures |b| >= 1 ==> Split(s, ';') == RowStrings(b)
    ensures ';' in s <==> |b| >= 2
  {
    JoinContains(RowStrings(b), ';');
    if |b| >= 1 then SplitJoin(RowStrings(b), ';'); Join(RowStrings(b), ';')
    else Join(RowStrings(b), ';')
  }

  /** int() applied to every part; None as soon as one part is not an integer. */
  function ParseCells(parts: seq<string>): (r: Option<seq<int>>)
    ensures r.Some? <==> forall k :: 0 <= k < |parts| ==> ParseInt(parts[k]).Some?
    ensures r.Some? ==> |r.value| == |parts| && forall k :: 0 <= k < |parts| ==> r.value[k] == ParseInt(parts[k]).value
  {
    if |parts| == 0 then Some([])
    else
      match ParseInt(parts[0])
      case None => None
      case Some(v) =>
        match ParseCells(parts[1..])
        case None => None
        case Some(rest) => Some([v] + rest)
  }

  /** Every row split at ',' and parsed; None as soon as one row fails. */
  function ParseRows(rows: seq<string>): (r: Option<seq<seq<int>>>)
    ensures r.Some? <==> forall i :: 0 <= i < |rows| ==> ParseCells(Split(rows[i], ',')).Some?
    ensures r.Some? ==> (|r.value| == |rows| &&
      forall i :: 0 <= i < |rows| ==> r.value[i] == ParseCells(Split(rows[i], ',')).value)
  {
    if |rows| == 0 then Some([])
    else
      match ParseCells(Split(rows[0], ','))
      case None => None
      case Some(row) =>
        match ParseRows(rows[1..])
        case None => None
        case Some(rest) => Some([row] + rest)
  }

  /** str_to_board: split at ';', each row at ',', every cell through int(). */
  function StrToBoard(s: string): (r: Option<seq<seq<int>>>)
    ensures r.Some? ==> |r.value| == |Split(s, ';')| >= 1
    ensures r.Some? ==> forall i :: 0 <= i < |r.value| ==> |r.value[i]| >= 1
  {
    ParseRows(Split(s, ';'))
  }

  /** A row's text parses back to the row exactly when the row is not empty. */
  lemma RowRoundTrip(row: seq<int>)
    ensures ParseCells(Split(RowString(row), ',')).Some? <==> |row| >= 1
    ensures |row| >= 1 ==> ParseCells(Split(RowString(row), ',')) == Some(row)
  {
    var parts := CellStrings(row);
    if |row| >= 1 {
      SplitJoin(parts, ',');
      assert Split(RowString(row), ',') == parts;
      forall k | 0 <= k < |row| ensures ParseInt(parts[k]) == Some(row[k]) {
        ParseIntRoundTrip(row[k]);
      }
      assert ParseCells(parts).value == row;
    } else {
      assert Split("", ',') == [""];
    }
  }

  /**
   * str_to_board inverts board_to_str on every board with at least one
   * row and no empty row; the empty board and a board with an empty row
   * serialise to text that int() rejects.
   */
  lemma StrToBoardRoundTrip(b: seq<seq<int>>)
    ensures StrToBoard(BoardToStr(b)).Some? <==> |b| >= 1 && forall i :: 0 <= i < |b| ==> |b[i]| >= 1
    ensures StrToBoard(BoardToStr(b)).Some? ==> StrToBoard(BoardToStr(b)) == Some(b)
  {
    var rows := RowStrings(b);
    if |b| == 0 {
      assert Split("", ';') == [""];
      assert Split("", ',') == [""];
    } else {
      SplitJoin(rows, ';');
      forall i | 0 <= i < |b|
        ensures ParseCells(Split(rows[i], ',')).Some? <==> |b[i]| >= 1
        ensures |b[i]| >= 1 ==> ParseCells(Split(rows[i], ',')) == Some(b[i])
      {
        RowRoundTrip(b[i]);
      }
      assert Split(BoardToStr(b), ';') == rows;
      if StrToBoard(BoardToStr(b)).Some? {
        assert StrToBoard(BoardToStr(b)).value == b;
      }
    }
  }

  // ---------------------------------------------------------------------
  // Move <-> index
  // ---------------------------------------------------------------------

  /** Python's // : the quotient rounded toward negative infinity. */
  function FloorDiv(a: int, d: int): (q: int)
    requires d != 0
    ensures d > 0 ==> d * q <= a < d * q + d
    ensures d < 0 ==> d * q + d < a <= d * q
  {
    if d > 0 then a / d else (-a) / (-d)
  }

  /** Python's % : takes the sign of the divisor. */
  function FloorMod(a: int, d: int): (r: int)
    requires d != 0
    ensures a == d * FloorDiv(a, d) + r
    ensures d > 0 ==> 0 <= r < d
    ensures d < 0 ==> d < r <= 0
  {
    a - d * FloorDiv(a, d)
  }

  /** move_to_index: row-major flattening. */
  function MoveToIndex(x: int, y: int, n: int): (i: int)
    ensures 0 <= x < n && 0 <= y < n ==> 0 <= i < n * n
  {
    if 0 <= x < n && 0 <= y < n then
      MulStep(n, x, n);
      x * n + y
    else x * n + y
  }

  /** index_to_move; a zero board size raises ZeroDivisionError. */
  function IndexToMove(index: int, n: int): (r: Option<(int, int)>)
    ensures r.None? <==> n == 0
    ensures r.Some? ==> MoveToIndex(r.value.0, r.value.1, n) == index
    ensures n > 0 ==> r.Some? && 0 <= r.value.1 < n
  {
    if n == 0 then None else Some((FloorDiv(index, n), FloorMod(index, n)))
  }

  /** index_to_move inverts move_to_index for every column inside the board. */
  lemma MoveIndexRoundTrip(x: int, y: int, n: int)
    requires 0 <= y < n
    ensures IndexToMove(MoveToIndex(x, y, n), n) == Some((x, y))
  {
    var i := MoveToIndex(x, y, n);
    var q := FloorDiv(i, n);
    assert n * q <= x * n + y < n * q + n;
    MulStep(n, q, x);
    MulStep(n, x, q);
  }

  /** A larger factor adds at least n. */
  lemma MulStep(n: int, a: int, b: int)
    requires n > 0
    ensures a < b ==> n * a + n <= n * b
  {
    if a < b {
      var d := b - a;
      assert n * b == n * a + n * d;
      MulAtLeast(n, d);
    }
  }

  lemma {:induction false} MulAtLeast(n: int, d: int)
    requires n > 0 && d >= 1
    ensures n * d >= n
    decreases d
  {
    if d > 1 {
      MulAtLeast(n, d - 1);
      assert n * d == n * (d - 1) + n;
    }
  }

  // ---------------------------------------------------------------------
  // Board checks and helpers
  // ---------------------------------------------------------------------

  /** What validate_board accepts: n rows of n cells, each a piece colour. */
  predicate ValidBoard(b: seq<seq<int>>, n: int)
  {
    |b| == n && forall i :: 0 <= i < |b| ==> |b[i]| == n && forall j :: 0 <= j < |b[i]| ==> IsPieceColor(b[i][j])
  }

  /** validate_board's loops with early returns. */
  method ValidateBoard(b: seq<seq<int>>, n: int) returns (ok: bool)
    ensures ok <==> ValidBoard(b, n)
  {
    if |b| != n {
      return false;
    }
    var i := 0;
    while i < |b|
      invariant 0 <= i <= |b|
      invariant forall k :: 0 <= k < i ==> |b[k]| == n && forall j :: 0 <= j < |b[k]| ==> IsPieceColor(b[k][j])
    {
      if |b[i]| != n {
        return false;
      }
      var j := 0;
      while j < |b[i]|
        invariant 0 <= j <= |b[i]|
        invariant forall l :: 0 <= l < j ==> IsPieceColor(b[i][l])
      {
        if !(b[i][j] in PieceColors()) {
          return false;
        }
        j := j + 1;
      }
      i := i + 1;
    }
    return true;
  }

  /** get_board_empty_positions: the board's own length is its size. */
  method GetBoardEmptyPositions(b: Board) returns (cells: seq<Pos>)
    requires IsSquare(b, |b|)
    ensures forall p :: p in cells <==> InBounds(|b|, p) && At(b, p) == EMPTY
    ensures forall k, l :: 0 <= k < l < |cells| ==> RowMajorBefore(cells[k], cells[l])
  {
    cells := CollectEmpty(b, |b|);
  }

  /** get_board_center: the middle cell, rounding down. */
  function GetBoardCenter(n: int): (c: Pos)
    ensures c.0 == c.1 && 2 * c.0 <= n < 2 * c.0 + 2
  {
    (n / 2, n / 2)
  }

  // ---------------------------------------------------------------------
  // Batching
  // ---------------------------------------------------------------------

  /** The batches of range(0, len, size) slicing: full batches, then the remainder. */
  function Batches<T>(data: seq<T>, size: nat): seq<seq<T>>
    requires size > 0
    decreases |data|
  {
    if |data| == 0 then []
    else if |data| <= size then [data]
    else [data[..size]] + Batches(data[size..], size)
  }

  /**
   * The batches concatenate to the data, none is empty, and each but the
   * last holds exactly size elements.
   */
  lemma {:induction false} BatchesSpec<T>(data: seq<T>, size: nat)
    requires size > 0
    ensures Seqs.Flatten(Batches(data, size)) == data
    ensures forall k :: 0 <= k < |Batches(data, size)| ==> 1 <= |Batches(data, size)[k]| <= size
    ensures forall k :: 0 <= k < |Batches(data, size)| - 1 ==> |Batches(data, size)[k]| == size
    decreases |data|
  {
    if |data| > size {
      var rest := Batches(data[size..], size);
      BatchesSpec(data[size..], size);
      assert Batches(data, size) == [data[..size]] + rest;
      assert ([data[..size]] + rest)[1..] == rest;
      assert data == data[..size] + data[size..];
      assert forall k :: 1 <= k < |Batches(data, size)| ==> Batches(data, size)[k] == rest[k - 1];
    }
  }

  /** One slice of the loop: data[i:i+size]. */
  lemma BatchesStep<T>(data: seq<T>, size: nat, i: nat)
    requires size > 0 && i < |data|
    ensures Batches(data[i..], size) ==
      if i + size < |data| then [data[i..i + size]] + Batches(data[i + size..], size) else [data[i..]]
  {
    if i + size < |data| {
      assert data[i..][..size] == data[i..i + size];
      assert data[i..][size..] == data[i + size..];
    }
  }

  /**
   * split_batch: slices of batch_size from index 0 on; a zero step raises
   * ValueError and a negative step makes the range empty.
   */
  method SplitBatch<T>(data: seq<T>, batchSize: int) returns (r: Option<seq<seq<T>>>)
    ensures r.None? <==> batchSize == 0
    ensures batchSize < 0 ==> r == Some([])
    ensures batchSize > 0 ==> r == Some(Batches(data, batchSize))
  {
    if batchSize == 0 {
      return None;
    }
    if batchSize < 0 {
      return Some([]);
    }
    var batches: seq<seq<T>> := [];
    var i := 0;
    while i < |data|
      invariant 0 <= i <= |data|
      invariant batches + Batches(data[i..], batchSize) == Batches(data, batchSize)
      decreases |data| - i
    {
      BatchesStep(data, batchSize, i);
      var e := if i + batchSize < |data| then i + batchSize else |data|;
      if e == |data| {
        assert data[e..] == [] && data[i..] == data[i..e];
        assert Batches(data[e..], batchSize) == [];
      }
      assert Batches(data[i..], batchSize) == [data[i..e]] + Batches(data[e..], batchSize);
      Seqs.ConcatAssoc(batches, [data[i..e]], Batches(data[e..], batchSize));
      batches := batches + [data[i..e]];
      i := e;
    }
    assert Batches(data[i..], batchSize) == [];
    assert batches + Batches(data[i..], batchSize) == batches;
    return Some(batches);
  }

  // ---------------------------------------------------------------------
  // Time format
  // ---------------------------------------------------------------------

  /** The number of seconds in h hours, m minutes and s seconds. */
  function HmsToSeconds(h: int, m: int, s: int): int
  {
    h * 3600 + m * 60 + s
  }

  /** The hours, minutes and seconds format_time computes by floor division. */
  function TimeParts(seconds: int): (t: (int, int, int))
    ensures HmsToSeconds(t.0, t.1, t.2) == seconds
    ensures 0 <= t.1 < 60 && 0 <= t.2 < 60
    ensures seconds >= 0 ==> t.0 >= 0
  {
    var h, r := seconds / 3600, seconds % 3600;
    assert seconds == h * 3600 + r;
    assert r == (r / 60) * 60 + r % 60;
    assert seconds == (h * 60 + r / 60) * 60 + r % 60;
    (h, r / 60, seconds % 60)
  }

  /** Python's {:02d}: zero-padded to width 2, the sign counting toward the width. */
  function Pad2(i: int): (s: string)
    ensures ':' !in s && |s| >= 2
    ensures ParseInt(s) == Some(i)
  {
    if 0 <= i < 10 then
      var s := ['0', DigitChar(i)];
      assert AllDigits(s) && DigitsToNat(s) == i by {
        assert s[..1] == "0" && s[..1][..0] == "";
        assert DigitsToNat(s[..1]) == 0;
        assert s[1] as int - '0' as int == i;
      }
      ParseDigits(s);
      s
    else
      IntToStringAvoids(i, ':');
      ParseIntRoundTrip(i);
      IntToString(i)
  }

  /** format_time: HH:MM:SS. */
  function FormatTime(seconds: int): (s: string)
    ensures |Split(s, ':')| == 3
  {
    var t := TimeParts(seconds);
    SplitJoin([Pad2(t.0), Pad2(t.1), Pad2(t.2)], ':');
    Join([Pad2(t.0), Pad2(t.1), Pad2(t.2)], ':')
  }

  /** Reading HH:MM:SS back: three ':'-separated integers. */
  function ParseTime(s: string): Option<int>
  {
    var parts := Split(s, ':');
    if |parts| != 3 then None
    else
      match (ParseInt(parts[0]), ParseInt(parts[1]), ParseInt(parts[2]))
      case (Some(h), Some(m), Some(sec)) => Some(HmsToSeconds(h, m, sec))
      case _ => None
  }

  /** The formatted time reads back as the same number of seconds, for every integer. */
  lemma FormatTimeRoundTrip(seconds: int)
    ensures ParseTime(FormatTime(seconds)) == Some(seconds)
  {
    var t := TimeParts(seconds);
    var parts := [Pad2(t.0), Pad2(t.1), Pad2(t.2)];
    SplitJoin(parts, ':');
    assert Split(FormatTime(seconds), ':') == parts;
    assert ParseInt(parts[0]) == Some(t.0) && ParseInt(parts[1]) == Some(t.1) && ParseInt(parts[2]) == Some(t.2);
  }

  /** Below 100 hours the text is exactly two digits, ':', two digits, ':', two digits. */
  lemma FormatTimeLayout(seconds: int)
    requires 0 <= seconds < 360000
    ensures var s := FormatTime(seconds);
      |s| == 8 && s[2] == ':' && s[5] == ':' &&
      forall k :: 0 <= k < 8 && k != 2 && k != 5 ==> IsDigit(s[k])
  {
    var t := TimeParts(seconds);
    HoursBelow100(seconds);
    var h, m, c := Pad2(t.0), Pad2(t.1), Pad2(t.2);
    Pad2Digits(t.0);
    Pad2Digits(t.1);
    Pad2Digits(t.2);
    JoinThree(h, m, c);
    ClockLayout(h, m, c);
  }

  /** Three two-digit fields joined by ':' put the digits and colons at fixed places. */
  lemma ClockLayout(h: string, m: string, c: string)
    requires |h| == |m| == |c| == 2
    requires IsDigit(h[0]) && IsDigit(h[1]) && IsDigit(m[0]) && IsDigit(m[1]) && IsDigit(c[0]) && IsDigit(c[1])
    ensures var s := h + [':'] + (m + [':'] + c);
      |s| == 8 && s[2] == ':' && s[5] == ':' &&
      forall k :: 0 <= k < 8 && k != 2 && k != 5 ==> IsDigit(s[k])
  {
    var s := h + [':'] + (m + [':'] + c);
    forall k | 0 <= k < 8 && k != 2 && k != 5
      ensures IsDigit(s[k])
    {
      if k < 2 {
        assert s[k] == h[k];
      } else if k < 5 {
        assert s[k] == m[k - 3];
      } else {
        assert s[k] == c[k - 6];
      }
    }
  }

  lemma HoursBelow100(seconds: int)
    requires 0 <= seconds < 360000
    ensures 0 <= TimeParts(seconds).0 < 100
  {
    assert TimeParts(seconds).0 == seconds / 3600;
  }

  lemma JoinThree(a: string, b: string, c: string)
    ensures Join([a, b, c], ':') == a + [':'] + (b + [':'] + c)
  {
    assert [a, b, c][1..] == [b, c] && [b, c][1..] == [c];
    assert Join([c], ':') == c;
    assert Join([b, c], ':') == b + [':'] + c;
  }

  /** Below 100, {:02d} writes exactly two digits. */
  lemma Pad2Digits(i: int)
    requires 0 <= i < 100
    ensures |Pad2(i)| == 2 && IsDigit(Pad2(i)[0]) && IsDigit(Pad2(i)[1])
  {
    if i >= 10 {
      assert Pad2(i) == NatToString(i);
      assert |NatToString(i / 10)| == 1;
    }
  }
}
