/**
 * The board evaluator shared by the AIs and the game review: the pattern
 * table, the pattern recogniser (the run of same-coloured stones through a
 * cell in each of four directions), the score of a whole board for one
 * colour, the change one move makes to it, and the quality of a move
 * measured against the best empty cell.
 *
 * The evaluator is a value: its board size and its table of position
 * weights are fixed when it is built and never change.  The weights table
 * is a parameter (its construction uses square roots).  Pattern weights are
 * the default evaluation weights.
 */
module Evaluator {
  import opened Constants
  import opened Boards
  import opened Windows
  import Seqs

  /** The pattern names, strongest first. */
  datatype Pattern = Five | Four | BlockedFour | Three | BlockedThree | Two | BlockedTwo | One

  function PatternName(p: Pattern): string
  {
    match p
    case Five => "FIVE"
    case Four => "FOUR"
    case BlockedFour => "BLOCKED_FOUR"
    case Three => "THREE"
    case BlockedThree => "BLOCKED_THREE"
    case Two => "TWO"
    case BlockedTwo => "BLOCKED_TWO"
    case One => "ONE"
  }

  /** 0 for the strongest pattern, 7 for the weakest. */
  function Rank(p: Pattern): nat
  {
    match p
    case Five => 0
    case Four => 1
    case BlockedFour => 2
    case Three => 3
    case BlockedThree => 4
    case Two => 5
    case BlockedTwo => 6
    case One => 7
  }

  /** The weight the evaluation table gives each pattern. */
  function PatternWeight(p: Pattern, w: Weights): int
  {
    match p
    case Five => w.five
    case Four => w.four
    case BlockedFour => w.blockedFour
    case Three => w.three
    case BlockedThree => w.blockedThree
    case Two => w.two
    case BlockedTwo => w.blockedTwo
    case One => w.one
  }

  /** Names are one per pattern, and with strictly decreasing weights the stronger pattern weighs more. */
  lemma PatternOrder(p: Pattern, q: Pattern, w: Weights)
    ensures PatternName(p) == PatternName(q) ==> p == q
    ensures StrictlyDecreasing(w) ==> (Rank(p) < Rank(q) <==> PatternWeight(p, w) > PatternWeight(q, w))
  {
  }

  /** The run length a pattern stands for: five or more, four, three, two, or a single stone. */
  function RunOf(p: Pattern): nat
  {
    match p
    case Five => 5
    case Four => 4
    case BlockedFour => 4
    case Three => 3
    case BlockedThree => 3
    case Two => 2
    case BlockedTwo => 2
    case One => 1
  }

  /** The patterns whose run has both ends free. */
  predicate IsOpen(p: Pattern)
  {
    p == Four || p == Three || p == Two
  }

  /**
   * The pattern formed by a run of count stones of which blocked ends are
   * closed: the run length (capped at five, at least one) and, for runs of
   * two to four, whether no end is closed.
   */
  function GetPatternName(count: int, blocked: int): (p: Pattern)
    ensures RunOf(p) == if count >= 5 then 5 else if count <= 1 then 1 else count
    ensures IsOpen(p) <==> 2 <= count <= 4 && blocked == 0
  {
    if count >= 5 then Five
    else if count == 4 then (if blocked == 0 then Four else BlockedFour)
    else if count == 3 then (if blocked == 0 then Three else BlockedThree)
    else if count == 2 then (if blocked == 0 then Two else BlockedTwo)
    else One
  }

  /** The score of such a run: always the weight of the pattern the run is named after. */
  function CalcPatternScore(count: int, blocked: int, w: Weights): (s: int)
    ensures s == PatternWeight(GetPatternName(count, blocked), w)
  {
    if count >= 5 then w.five
    else if count == 4 then (if blocked == 0 then w.four else w.blockedFour)
    else if count == 3 then (if blocked == 0 then w.three else w.blockedThree)
    else if count == 2 then (if blocked == 0 then w.two else w.blockedTwo)
    else w.one
  }

  /**
   * The native branch names the pattern of a native move score by
   * thresholds: the strongest pattern whose weight the score reaches, or
   * ONE when it reaches none of FIVE down to BLOCKED_TWO.
   */
  function ClassifyScore(score: int, w: Weights): (p: Pattern)
    ensures p != One ==> score >= PatternWeight(p, w)
    ensures p == One ==> score < w.blockedTwo
  {
    if score >= w.five then Five
    else if score >= w.four then Four
    else if score >= w.blockedFour then BlockedFour
    else if score >= w.three then Three
    else if score >= w.blockedThree then BlockedThree
    else if score >= w.two then Two
    else if score >= w.blockedTwo then BlockedTwo
    else One
  }

  /** The threshold names the strongest pattern the score reaches. */
  lemma ClassifyStrongest(score: int, q: Pattern, w: Weights)
    requires StrictlyDecreasing(w) && score >= PatternWeight(q, w)
    ensures Rank(ClassifyScore(score, w)) <= Rank(q)
  {
  }

  /** Scoring exactly a pattern's weight classifies as that pattern. */
  lemma ClassifyWeight(p: Pattern, w: Weights)
    requires StrictlyDecreasing(w)
    ensures ClassifyScore(PatternWeight(p, w), w) == p
  {
  }

  /** A fixed board size and a table of position weights, one positive weight per cell. */
  datatype BoardEvaluator = BoardEvaluator(boardSize: nat, positionWeights: seq<seq<real>>)
  {
    predicate Valid()
    {
      |positionWeights| == boardSize
      && (forall i :: 0 <= i < boardSize ==> |positionWeights[i]| == boardSize)
      && forall i, j :: 0 <= i < boardSize && 0 <= j < boardSize ==> positionWeights[i][j] > 0.0
    }

    function PositionWeight(p: Pos): real
      requires Valid() && InBounds(boardSize, p)
    {
      positionWeights[p.0][p.1]
    }
  }

  /** 1 when q is an occupied cell of the board, 0 when it is empty or off the board. */
  function Closes(b: Board, n: nat, q: Pos): int
    requires IsSquare(b, n)
  {
    if InBounds(n, q) && At(b, q) != EMPTY then 1 else 0
  }

  /** How many ends of the run of colour c through p along d lie next to an occupied cell. */
  function DirBlocked(b: Board, n: nat, p: Pos, c: int, d: (int, int)): (k: int)
    requires IsSquare(b, n) && UnitDir(d.0, d.1)
    ensures 0 <= k <= 2
  {
    Closes(b, n, RunEnd(b, n, Along(p, d.0, d.1, 1), d.0, d.1, c))
      + Closes(b, n, RunEnd(b, n, Along(p, -d.0, -d.1, 1), -d.0, -d.1, c))
  }

  /** The score of the run through p along direction i of Dirs(). */
  function DirScore(b: Board, n: nat, p: Pos, c: int, i: nat): int
    requires IsSquare(b, n) && i < 4
  {
    CalcPatternScore(Total(b, n, p, c, Dirs()[i]), DirBlocked(b, n, p, c, Dirs()[i]), EvalWeights())
  }

  /** The pattern of that run. */
  function DirPattern(b: Board, n: nat, p: Pos, c: int, i: nat): Pattern
    requires IsSquare(b, n) && i < 4
  {
    GetPatternName(Total(b, n, p, c, Dirs()[i]), DirBlocked(b, n, p, c, Dirs()[i]))
  }

  /** The four direction scores, in the order of Dirs(). */
  function DirScores(b: Board, n: nat, p: Pos, c: int): (s: seq<real>)
    requires IsSquare(b, n)
  {
    seq(4, i requires 0 <= i < 4 => DirScore(b, n, p, c, i) as real)
  }

  /**
   * The recognised pattern and its unweighted score: a running maximum over
   * the four directions that starts at (ONE, 0) and moves only to a strictly
   * greater direction score.
   */
  function Recognize(b: Board, n: nat, p: Pos, c: int): (Pattern, int)
    requires IsSquare(b, n)
  {
    var i := Seqs.FirstAbove(DirScores(b, n, p, c), 0.0);
    if i < 0 then (One, 0) else (DirPattern(b, n, p, c, i), DirScore(b, n, p, c, i))
  }

  /**
   * The recognised score is the greatest direction score; it is positive,
   * so it comes from a direction, the first direction that reaches it, and
   * it is the weight of the recognised pattern.
   */
  lemma RecognizeIsFirstMax(b: Board, n: nat, p: Pos, c: int)
    requires IsSquare(b, n)
    ensures var r := Recognize(b, n, p, c);
      (forall i :: 0 <= i < 4 ==> DirScore(b, n, p, c, i) <= r.1)
      && r.1 >= EvalWeights().one
      && r.1 == PatternWeight(r.0, EvalWeights())
      && exists i :: 0 <= i < 4 && r == (DirPattern(b, n, p, c, i), DirScore(b, n, p, c, i))
           && forall j :: 0 <= j < i ==> DirScore(b, n, p, c, j) < r.1
  {
    var s := DirScores(b, n, p, c);
    Seqs.FirstAboveSpec(s, 0.0);
    assert s[0] == DirScore(b, n, p, c, 0) as real >= EvalWeights().one as real;
    var i := Seqs.FirstAbove(s, 0.0);
    assert i >= 0;
    forall j | 0 <= j < 4
      ensures DirScore(b, n, p, c, j) <= DirScore(b, n, p, c, i)
    {
      assert s[j] <= s[i];
    }
    forall j | 0 <= j < i
      ensures DirScore(b, n, p, c, j) < DirScore(b, n, p, c, i)
    {
      assert s[j] < s[i];
    }
  }

  /**
   * One walk of the pure recogniser: from (x, y) on, in direction (dx, dy),
   * each stone of colour c adds one to count; the walk stops on the first
   * cell that is off the board or not of colour c.
   */
  method Walk(b: Board, n: nat, x: int, y: int, dx: int, dy: int, c: int, count0: int)
    returns (count: int, nx: int, ny: int)
    requires IsSquare(b, n) && UnitDir(dx, dy)
    ensures count == count0 + RunLength(b, n, (x, y), dx, dy, c)
    ensures (nx, ny) == RunEnd(b, n, (x, y), dx, dy, c)
  {
    count, nx, ny := count0, x, y;
    while 0 <= nx < n && 0 <= ny < n && b[nx][ny] == c
      invariant RunLength(b, n, (x, y), dx, dy, c) == count - count0 + RunLength(b, n, (nx, ny), dx, dy, c)
      invariant RunEnd(b, n, (x, y), dx, dy, c) == RunEnd(b, n, (nx, ny), dx, dy, c)
      decreases Remaining(n, (nx, ny), dx, dy)
    {
      RunLengthStep(b, n, (nx, ny), dx, dy, c);
      RunEndStep(b, n, (nx, ny), dx, dy, c);
      count := count + 1;
      nx, ny := nx + dx, ny + dy;
    }
  }

  /** The run through (x, y) and its closed ends, read from the two neighbours of (x, y). */
  lemma Neighbours(b: Board, n: nat, x: int, y: int, c: int, dx: int, dy: int)
    requires IsSquare(b, n) && UnitDir(dx, dy)
    ensures Total(b, n, (x, y), c, (dx, dy))
      == 1 + RunLength(b, n, (x + dx, y + dy), dx, dy, c) + RunLength(b, n, (x - dx, y - dy), -dx, -dy, c)
    ensures DirBlocked(b, n, (x, y), c, (dx, dy))
      == Closes(b, n, RunEnd(b, n, (x + dx, y + dy), dx, dy, c)) + Closes(b, n, RunEnd(b, n, (x - dx, y - dy), -dx, -dy, c))
  {
    assert Along((x, y), dx, dy, 1) == (x + dx, y + dy);
    assert Along((x, y), -dx, -dy, 1) == (x - dx, y - dy);
  }

  /**
   * The run through (x, y) along (dx, dy) as the pure recogniser measures
   * it: the count starts at 1 and grows over the stones of colour c forward
   * and then backward; each walk that stops on an occupied cell of the
   * board closes one end.
   */
  method ScanDirection(b: Board, n: nat, x: int, y: int, c: int, dx: int, dy: int)
    returns (count: int, blocked: int)
    requires IsSquare(b, n) && UnitDir(dx, dy)
    ensures count == 1 + RunLength(b, n, (x + dx, y + dy), dx, dy, c) + RunLength(b, n, (x - dx, y - dy), -dx, -dy, c)
    ensures blocked == Closes(b, n, RunEnd(b, n, (x + dx, y + dy), dx, dy, c))
      + Closes(b, n, RunEnd(b, n, (x - dx, y - dy), -dx, -dy, c))
  {
    count := 1;
    blocked := 0;
    var nx, ny;
    count, nx, ny := Walk(b, n, x + dx, y + dy, dx, dy, c, count);
    if 0 <= nx < n && 0 <= ny < n && b[nx][ny] != EMPTY {
      blocked := blocked + 1;
    }
    ghost var front := Closes(b, n, (nx, ny));
    assert blocked == front;
    count, nx, ny := Walk(b, n, x - dx, y - dy, -dx, -dy, c, count);
    if 0 <= nx < n && 0 <= ny < n && b[nx][ny] != EMPTY {
      blocked := blocked + 1;
    }
    assert blocked == front + Closes(b, n, (nx, ny));
  }

  /** A pattern score scaled by a position weight. */
  function Weighted(score: int, weight: real): real
  {
    score as real * weight
  }

  /** The pattern and the position-weighted score the recogniser reports for (x, y). */
  function Recognized(e: BoardEvaluator, b: Board, p: Pos, c: int): (Pattern, real)
    requires e.Valid() && IsSquare(b, e.boardSize) && InBounds(e.boardSize, p)
  {
    var r := Recognize(b, e.boardSize, p, c);
    (r.0, Weighted(r.1, e.PositionWeight(p)))
  }

  /**
   * After the first i directions the running maximum is maxScore and the
   * pattern is the one of the direction that last raised it (ONE while
   * none has).
   */
  ghost predicate RecognizedUpTo(b: Board, n: nat, p: Pos, c: int, i: nat, maxScore: int, pattern: Pattern)
    requires IsSquare(b, n) && i <= 4
  {
    var s := DirScores(b, n, p, c)[..i];
    var k := Seqs.FirstAbove(s, 0.0);
    maxScore as real == Seqs.ValueAt(s, 0.0, k) && pattern == (if k < 0 then One else DirPattern(b, n, p, c, k))
  }

  /** A direction whose score beats the running maximum replaces it; any other leaves it. */
  lemma RecognizeStep(b: Board, n: nat, p: Pos, c: int, i: nat, maxScore: int, pattern: Pattern, count: int, blocked: int)
    requires IsSquare(b, n) && i < 4 && RecognizedUpTo(b, n, p, c, i, maxScore, pattern)
    requires count == Total(b, n, p, c, Dirs()[i]) && blocked == DirBlocked(b, n, p, c, Dirs()[i])
    ensures var s := CalcPatternScore(count, blocked, EvalWeights());
      (s > maxScore ==> RecognizedUpTo(b, n, p, c, i + 1, s, GetPatternName(count, blocked)))
      && (s <= maxScore ==> RecognizedUpTo(b, n, p, c, i + 1, maxScore, pattern))
  {
    Seqs.FirstAboveStep(DirScores(b, n, p, c), 0.0, i);
  }

  /** After all four directions the running maximum is the recognised score. */
  lemma RecognizedAll(b: Board, n: nat, p: Pos, c: int, maxScore: int, pattern: Pattern)
    requires IsSquare(b, n) && RecognizedUpTo(b, n, p, c, 4, maxScore, pattern)
    ensures Recognize(b, n, p, c) == (pattern, maxScore)
  {
    var s := DirScores(b, n, p, c);
    assert s[..4] == s;
  }

  /** One pass of the recogniser's loop: measure direction i and update the running maximum. */
  method ConsiderDirection(b: Board, n: nat, x: int, y: int, c: int, i: nat, maxScore: int, pattern: Pattern)
    returns (maxScore': int, pattern': Pattern)
    requires IsSquare(b, n) && i < 4 && RecognizedUpTo(b, n, (x, y), c, i, maxScore, pattern)
    ensures RecognizedUpTo(b, n, (x, y), c, i + 1, maxScore', pattern')
  {
    var dx, dy := Dirs()[i].0, Dirs()[i].1;
    var count, blocked := ScanDirection(b, n, x, y, c, dx, dy);
    Neighbours(b, n, x, y, c, dx, dy);
    RecognizeStep(b, n, (x, y), c, i, maxScore, pattern, count, blocked);
    var patternScore := CalcPatternScore(count, blocked, EvalWeights());
    maxScore', pattern' := maxScore, pattern;
    if patternScore > maxScore {
      maxScore' := patternScore;
      pattern' := GetPatternName(count, blocked);
    }
  }

  /**
   * The pure recogniser: for each direction the run and its closed ends,
   * their pattern score, and a running maximum that a direction replaces
   * only with a strictly greater score; the maximum is scaled by the
   * position weight of (x, y).
   */
  method PythonRecognizePattern(e: BoardEvaluator, b: Board, x: int, y: int, c: int)
    returns (pattern: Pattern, score: real)
    requires e.Valid() && IsSquare(b, e.boardSize) && InBounds(e.boardSize, (x, y))
    ensures (pattern, score) == Recognized(e, b, (x, y), c)
  {
    var maxScore := 0;
    pattern := One;
    for i := 0 to 4
      invariant RecognizedUpTo(b, e.boardSize, (x, y), c, i, maxScore, pattern)
    {
      maxScore, pattern := ConsiderDirection(b, e.boardSize, x, y, c, i, maxScore, pattern);
    }
    RecognizedAll(b, e.boardSize, (x, y), c, maxScore, pattern);
    score := Weighted(maxScore, e.positionWeights[x][y]);
  }

  /**
   * What one cell adds to colour c's board score: its recognised score when
   * it holds c, minus the score the opponent's stone there is recognised
   * with, and nothing for any other cell.
   */
  function CellScore(e: BoardEvaluator, b: Board, c: int, p: Pos): real
    requires e.Valid() && IsSquare(b, e.boardSize) && InBounds(e.boardSize, p)
  {
    var v := At(b, p);
    if v == c then Recognized(e, b, p, c).1
    else if v == OpponentColor(c) then -Recognized(e, b, p, v).1
    else 0.0
  }

  /** The cell scores of the cells before (i, j) in row-major order, summed. */
  function ScoreBefore(e: BoardEvaluator, b: Board, c: int, i: nat, j: nat): real
    requires e.Valid() && IsSquare(b, e.boardSize)
    requires i <= e.boardSize && j <= e.boardSize && (i < e.boardSize || j == 0)
    decreases i, j
  {
    if j == 0 then (if i == 0 then 0.0 else ScoreBefore(e, b, c, i - 1, e.boardSize))
    else ScoreBefore(e, b, c, i, j - 1) + CellScore(e, b, c, (i, j - 1))
  }

  /** The board score of colour c: every cell's score, summed. */
  function BoardScore(e: BoardEvaluator, b: Board, c: int): real
    requires e.Valid() && IsSquare(b, e.boardSize)
  {
    ScoreBefore(e, b, c, e.boardSize, 0)
  }

  /** The scan over all cells that adds own stones' scores and subtracts the opponent's. */
  method EvaluateBoard(e: BoardEvaluator, b: Board, c: int) returns (total: real)
    requires e.Valid() && IsSquare(b, e.boardSize)
    ensures total == BoardScore(e, b, c)
  {
    var n := e.boardSize;
    total := 0.0;
    for x := 0 to n
      invariant total == ScoreBefore(e, b, c, x, 0)
    {
      for y := 0 to n
        invariant total == ScoreBefore(e, b, c, x, y)
      {
        if b[x][y] == c {
          var pattern, score := PythonRecognizePattern(e, b, x, y, c);
          total := total + score;
        } else if b[x][y] == OpponentColor(c) {
          var pattern, score := PythonRecognizePattern(e, b, x, y, b[x][y]);
          total := total - score;
        }
      }
    }
  }

  /** Black's view of the board is the negation of White's. */
  lemma {:induction false} ScoreBeforeAntisymmetric(e: BoardEvaluator, b: Board, i: nat, j: nat)
    requires e.Valid() && IsSquare(b, e.boardSize)
    requires i <= e.boardSize && j <= e.boardSize && (i < e.boardSize || j == 0)
    ensures ScoreBefore(e, b, BLACK, i, j) == -ScoreBefore(e, b, WHITE, i, j)
    decreases i, j
  {
    if j == 0 {
      if i > 0 {
        ScoreBeforeAntisymmetric(e, b, i - 1, e.boardSize);
      }
    } else {
      ScoreBeforeAntisymmetric(e, b, i, j - 1);
    }
  }

  /** The board is worth to Black exactly what it costs White. */
  lemma BoardScoreAntisymmetric(e: BoardEvaluator, b: Board)
    requires e.Valid() && IsSquare(b, e.boardSize)
    ensures BoardScore(e, b, BLACK) == -BoardScore(e, b, WHITE)
  {
    ScoreBeforeAntisymmetric(e, b, e.boardSize, 0);
  }

  /**
   * The value of playing c at p: the board score after the move minus the
   * board score before it, plus the position weight of p.
   */
  function MoveValue(e: BoardEvaluator, b: Board, p: Pos, c: int): real
    requires e.Valid() && IsSquare(b, e.boardSize) && InBounds(e.boardSize, p)
  {
    SetKeepsSquare(b, e.boardSize, p, c);
    BoardScore(e, Set(b, p, c), c) - BoardScore(e, b, c) + e.PositionWeight(p)
  }

  /** Scores a copy of the board with the stone placed against the board itself. */
  method EvaluateMove(e: BoardEvaluator, b: Board, x: int, y: int, c: int) returns (s: real)
    requires e.Valid() && IsSquare(b, e.boardSize) && InBounds(e.boardSize, (x, y))
    ensures s == MoveValue(e, b, (x, y), c)
  {
    SetKeepsSquare(b, e.boardSize, (x, y), c);
    var temp := Set(b, (x, y), c);
    var newScore := EvaluateBoard(e, temp, c);
    var oldScore := EvaluateBoard(e, b, c);
    s := newScore - oldScore + e.positionWeights[x][y];
  }

  /** A move onto a cell that already holds the mover's stone is worth its position weight and nothing more. */
  lemma MoveOntoOwnStone(e: BoardEvaluator, b: Board, p: Pos, c: int)
    requires e.Valid() && IsSquare(b, e.boardSize) && InBounds(e.boardSize, p) && At(b, p) == c
    ensures MoveValue(e, b, p, c) == e.PositionWeight(p)
  {
    assert b[p.0][p.1 := c] == b[p.0];
    assert Set(b, p, c) == b;
  }

  /** The move values of the cells cs, in order. */
  function MoveValues(e: BoardEvaluator, b: Board, c: int, cs: seq<Pos>): (vs: seq<real>)
    requires e.Valid() && IsSquare(b, e.boardSize)
    requires forall k :: 0 <= k < |cs| ==> InBounds(e.boardSize, cs[k])
    ensures |vs| == |cs|
  {
    if |cs| == 0 then []
    else MoveValues(e, b, c, cs[..|cs| - 1]) + [MoveValue(e, b, cs[|cs| - 1], c)]
  }

  lemma {:induction false} MoveValuesAt(e: BoardEvaluator, b: Board, c: int, cs: seq<Pos>, k: nat)
    requires e.Valid() && IsSquare(b, e.boardSize)
    requires forall k :: 0 <= k < |cs| ==> InBounds(e.boardSize, cs[k])
    requires k < |cs|
    ensures MoveValues(e, b, c, cs)[k] == MoveValue(e, b, cs[k], c)
  {
    if k < |cs| - 1 {
      MoveValuesAt(e, b, c, cs[..|cs| - 1], k);
    }
  }

  /**
   * The best of the cells cs for c: a running maximum that starts at
   * (fallback, 0) and moves only to a strictly greater move value.
   */
  function BestOf(e: BoardEvaluator, b: Board, c: int, cs: seq<Pos>, fallback: Pos): (Pos, real)
    requires e.Valid() && IsSquare(b, e.boardSize)
    requires forall k :: 0 <= k < |cs| ==> InBounds(e.boardSize, cs[k])
  {
    var vs := MoveValues(e, b, c, cs);
    var k := Seqs.FirstAbove(vs, 0.0);
    (if k < 0 then fallback else cs[k], Seqs.ValueAt(vs, 0.0, k))
  }

  /** One more cell replaces the best only with a strictly greater value. */
  lemma BestOfStep(e: BoardEvaluator, b: Board, c: int, cs: seq<Pos>, p: Pos, fallback: Pos)
    requires e.Valid() && IsSquare(b, e.boardSize)
    requires forall k :: 0 <= k < |cs| ==> InBounds(e.boardSize, cs[k])
    requires InBounds(e.boardSize, p)
    ensures var best := BestOf(e, b, c, cs, fallback);
      BestOf(e, b, c, cs + [p], fallback) == if MoveValue(e, b, p, c) > best.1 then (p, MoveValue(e, b, p, c)) else best
  {
    var cs' := cs + [p];
    assert cs'[..|cs|] == cs;
    var vs' := MoveValues(e, b, c, cs');
    assert vs'[..|cs|] == MoveValues(e, b, c, cs);
  }

  /** Every empty cell is one of the listed empty cells, with its move value at the same index. */
  lemma EmptyCellValue(e: BoardEvaluator, b: Board, c: int, q: Pos) returns (a: nat)
    requires e.Valid() && IsSquare(b, e.boardSize) && InBounds(e.boardSize, q) && At(b, q) == EMPTY
    ensures a < |EmptyCells(b, e.boardSize)| && EmptyCells(b, e.boardSize)[a] == q
    ensures MoveValues(e, b, c, EmptyCells(b, e.boardSize))[a] == MoveValue(e, b, q, c)
  {
    var cs := EmptyCells(b, e.boardSize);
    a :| 0 <= a < |cs| && cs[a] == q;
    MoveValuesAt(e, b, c, cs, a);
  }

  /** No empty cell is worth more than the best, and the best is never below 0. */
  lemma BestIsUpperBound(e: BoardEvaluator, b: Board, c: int, fallback: Pos)
    requires e.Valid() && IsSquare(b, e.boardSize)
    ensures var best := BestOf(e, b, c, EmptyCells(b, e.boardSize), fallback);
      best.1 >= 0.0
      && forall q :: InBounds(e.boardSize, q) && At(b, q) == EMPTY ==> MoveValue(e, b, q, c) <= best.1
  {
    var vs := MoveValues(e, b, c, EmptyCells(b, e.boardSize));
    Seqs.FirstAboveSpec(vs, 0.0);
    forall q | InBounds(e.boardSize, q) && At(b, q) == EMPTY
      ensures MoveValue(e, b, q, c) <= BestOf(e, b, c, EmptyCells(b, e.boardSize), fallback).1
    {
      var a := EmptyCellValue(e, b, c, q);
    }
  }

  /**
   * A best worth more than 0 is an empty cell of exactly that value, and
   * every empty cell before it in row-major order is worth strictly less;
   * a best worth 0 is the fallback.
   */
  lemma BestIsFirstGreatest(e: BoardEvaluator, b: Board, c: int, fallback: Pos)
    requires e.Valid() && IsSquare(b, e.boardSize)
    ensures var best := BestOf(e, b, c, EmptyCells(b, e.boardSize), fallback);
      (best.1 == 0.0 ==> best.0 == fallback)
      && (best.1 > 0.0 ==>
            InBounds(e.boardSize, best.0) && At(b, best.0) == EMPTY && MoveValue(e, b, best.0, c) == best.1
            && forall q :: InBounds(e.boardSize, q) && At(b, q) == EMPTY && RowMajorBefore(q, best.0) ==>
                 MoveValue(e, b, q, c) < best.1)
  {
    var cs := EmptyCells(b, e.boardSize);
    var vs := MoveValues(e, b, c, cs);
    Seqs.FirstAboveSpec(vs, 0.0);
    var k := Seqs.FirstAbove(vs, 0.0);
    if k >= 0 {
      MoveValuesAt(e, b, c, cs, k);
      forall q | InBounds(e.boardSize, q) && At(b, q) == EMPTY && RowMajorBefore(q, cs[k])
        ensures MoveValue(e, b, q, c) < vs[k]
      {
        var a := EmptyCellValue(e, b, c, q);
      }
    }
  }

  /**
   * The best empty cell for c: no empty cell is worth more; when some empty
   * cell is worth more than 0 the best is the first such cell (row-major)
   * of greatest value, and otherwise the best value is 0 and the best cell
   * is the fallback.
   */
  lemma BestEmptyCell(e: BoardEvaluator, b: Board, c: int, fallback: Pos)
    requires e.Valid() && IsSquare(b, e.boardSize)
    ensures var best := BestOf(e, b, c, EmptyCells(b, e.boardSize), fallback);
      best.1 >= 0.0
      && (forall q :: InBounds(e.boardSize, q) && At(b, q) == EMPTY ==> MoveValue(e, b, q, c) <= best.1)
      && (best.1 == 0.0 ==> best.0 == fallback)
      && (best.1 > 0.0 ==>
            InBounds(e.boardSize, best.0) && At(b, best.0) == EMPTY && MoveValue(e, b, best.0, c) == best.1
            && forall q :: InBounds(e.boardSize, q) && At(b, q) == EMPTY && RowMajorBefore(q, best.0) ==>
                 MoveValue(e, b, q, c) < best.1)
  {
    BestIsUpperBound(e, b, c, fallback);
    BestIsFirstGreatest(e, b, c, fallback);
  }

  /** BestOf over the empty cells before (i, j) in row-major order. */
  function BestBefore(e: BoardEvaluator, b: Board, c: int, i: nat, j: nat, fallback: Pos): (Pos, real)
    requires e.Valid() && IsSquare(b, e.boardSize)
    requires i <= e.boardSize && j <= e.boardSize && (i < e.boardSize || j == 0)
  {
    EmptyBeforeSpec(b, e.boardSize, i, j);
    BestOf(e, b, c, EmptyBefore(b, e.boardSize, i, j), fallback)
  }

  /**
   * The quality of a move on a 0 to 100 scale: its value as a percentage of
   * the best value, capped at 100, and 0 when no move is worth more than 0.
   */
  function Quality(moveScore: real, bestScore: real): (q: real)
    ensures bestScore > 0.0 ==> q <= 100.0
    ensures bestScore > 0.0 && moveScore >= bestScore ==> q == 100.0
    ensures bestScore > 0.0 && 0.0 <= moveScore ==> q >= 0.0
    ensures bestScore > 0.0 && moveScore < bestScore ==> q == moveScore / bestScore * 100.0
    ensures bestScore <= 0.0 ==> q == 0.0
  {
    if bestScore > 0.0 then
      var ratio := moveScore / bestScore * 100.0;
      if 100.0 <= ratio then 100.0 else ratio
    else 0.0
  }

  /** One pass of the review's search: an empty cell worth more than the best so far becomes the best. */
  method ConsiderCell(e: BoardEvaluator, b: Board, c: int, nx: nat, ny: nat, fallback: Pos, bestMove: Pos, maxPossibleScore: real)
    returns (bestMove': Pos, maxPossibleScore': real)
    requires e.Valid() && IsSquare(b, e.boardSize) && nx < e.boardSize && ny < e.boardSize
    requires (bestMove, maxPossibleScore) == BestBefore(e, b, c, nx, ny, fallback)
    ensures (bestMove', maxPossibleScore') == BestBefore(e, b, c, nx, ny + 1, fallback)
  {
    var n := e.boardSize;
    EmptyBeforeSpec(b, n, nx, ny);
    bestMove', maxPossibleScore' := bestMove, maxPossibleScore;
    if b[nx][ny] == EMPTY {
      var tempScore := EvaluateMove(e, b, nx, ny, c);
      assert EmptyBefore(b, n, nx, ny + 1) == EmptyBefore(b, n, nx, ny) + [(nx, ny)];
      BestOfStep(e, b, c, EmptyBefore(b, n, nx, ny), (nx, ny), fallback);
      if tempScore > maxPossibleScore {
        maxPossibleScore' := tempScore;
        bestMove' := (nx, ny);
      }
    } else {
      assert EmptyBefore(b, n, nx, ny + 1) == EmptyBefore(b, n, nx, ny);
    }
  }

  /** The review of one move. */
  datatype MoveReport = MoveReport(
    move: Pos, pattern: Pattern, score: real, bestMove: Pos, bestScore: real,
    quality: real, positionWeight: real)

  /**
   * The review of c's move at (x, y): the pattern recognised there, the
   * move's value, the best empty cell and its value, the quality of the
   * move against it, and the position weight of (x, y).
   */
  method AnalyzeMoveQuality(e: BoardEvaluator, b: Board, x: int, y: int, c: int) returns (r: MoveReport)
    requires e.Valid() && IsSquare(b, e.boardSize) && InBounds(e.boardSize, (x, y))
    ensures r.move == (x, y) && r.pattern == Recognized(e, b, (x, y), c).0
    ensures r.score == MoveValue(e, b, (x, y), c)
    ensures (r.bestMove, r.bestScore) == BestOf(e, b, c, EmptyCells(b, e.boardSize), (x, y))
    ensures r.quality == Quality(r.score, r.bestScore)
    ensures r.positionWeight == e.PositionWeight((x, y))
  {
    var n := e.boardSize;
    var pattern, _ := PythonRecognizePattern(e, b, x, y, c);
    var maxPossibleScore := 0.0;
    var bestMove := (x, y);
    for nx := 0 to n
      invariant (bestMove, maxPossibleScore) == BestBefore(e, b, c, nx, 0, (x, y))
    {
      for ny := 0 to n
        invariant (bestMove, maxPossibleScore) == BestBefore(e, b, c, nx, ny, (x, y))
      {
        bestMove, maxPossibleScore := ConsiderCell(e, b, c, nx, ny, (x, y), bestMove, maxPossibleScore);
      }
    }
    var moveScore := EvaluateMove(e, b, x, y, c);
    var quality := Quality(moveScore, maxPossibleScore);
    r := MoveReport((x, y), pattern, moveScore, bestMove, maxPossibleScore, quality, e.positionWeights[x][y]);
  }

  /** A move onto the best empty cell, when that cell is worth more than 0, has quality 100. */
  lemma BestMoveHasFullQuality(e: BoardEvaluator, b: Board, x: int, y: int, c: int)
    requires e.Valid() && IsSquare(b, e.boardSize) && InBounds(e.boardSize, (x, y))
    requires var best := BestOf(e, b, c, EmptyCells(b, e.boardSize), (x, y)); best.0 == (x, y) && best.1 > 0.0
    ensures Quality(MoveValue(e, b, (x, y), c), BestOf(e, b, c, EmptyCells(b, e.boardSize), (x, y)).1) == 100.0
  {
    BestEmptyCell(e, b, c, (x, y));
  }
}
