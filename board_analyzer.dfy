/**
 * The game review: the quality of a single move, the situation of a
 * whole board (both sides' scores, threats and best moves), and the replay
 * report that walks a game's move history, analysing each move on the
 * board before it and then playing it.
 */
module BoardAnalyzer {
  import opened Wrappers
  import opened Constants
  import opened Boards
  import Seqs
  import Evaluator

  /** min(100, max(0, v)). */
  function Clamp(v: real): (r: real)
    ensures 0.0 <= r <= 100.0
    ensures 0.0 <= v <= 100.0 ==> r == v
    ensures v < 0.0 ==> r == 0.0
    ensures 100.0 < v ==> r == 100.0
  {
    if v < 0.0 then 0.0 else if 100.0 < v then 100.0 else v
  }

  // ------------------------------------------------------------------
  // The best move of one side
  // ------------------------------------------------------------------

  /** What the best-move search ranks a cell by: its move value times its position weight. */
  function RankScore(e: Evaluator.BoardEvaluator, b: Board, c: int, p: Pos): real
    requires e.Valid() && IsSquare(b, e.boardSize) && InBounds(e.boardSize, p)
  {
    Evaluator.MoveValue(e, b, p, c) * e.PositionWeight(p)
  }

  function RankScores(e: Evaluator.BoardEvaluator, b: Board, c: int, cs: seq<Pos>): (vs: seq<real>)
    requires e.Valid() && IsSquare(b, e.boardSize)
    requires forall k :: 0 <= k < |cs| ==> InBounds(e.boardSize, cs[k])
    ensures |vs| == |cs| && forall k :: 0 <= k < |cs| ==> vs[k] == RankScore(e, b, c, cs[k])
  {
    seq(|cs|, k requires 0 <= k < |cs| => RankScore(e, b, c, cs[k]))
  }

  /** A rank score as a percentage of the FIVE weight, clamped to 0..100. */
  function Normalize(score: real): (r: real)
    ensures 0.0 <= r <= 100.0
  {
    Clamp(score / EvalWeights().five as real * 100.0)
  }

  /**
   * The best move of c and its normalised score: (0, 0) and 0 on a full
   * board, otherwise the first empty cell (row-major) of greatest rank score.
   */
  function BestMove(e: Evaluator.BoardEvaluator, b: Board, c: int): (Pos, real)
    requires e.Valid() && IsSquare(b, e.boardSize)
  {
    var cs := EmptyCells(b, e.boardSize);
    if |cs| == 0 then ((0, 0), 0.0)
    else
      var k := Seqs.FirstMaxIndex(RankScores(e, b, c, cs));
      (cs[k], Normalize(RankScore(e, b, c, cs[k])))
  }

  /** The index of an empty cell in the list of empty cells. */
  lemma EmptyCellIndex(b: Board, n: nat, q: Pos) returns (a: nat)
    requires IsSquare(b, n) && InBounds(n, q) && At(b, q) == EMPTY
    ensures a < |EmptyCells(b, n)| && EmptyCells(b, n)[a] == q
  {
    var cs := EmptyCells(b, n);
    assert q in cs;
    a :| 0 <= a < |cs| && cs[a] == q;
  }

  /**
   * The best move: on a full board (0, 0) with score 0; otherwise an empty
   * cell whose rank score no empty cell beats and every empty cell before
   * it in row-major order falls short of, with that rank score normalised.
   */
  lemma BestMoveSpec(e: Evaluator.BoardEvaluator, b: Board, c: int)
    requires e.Valid() && IsSquare(b, e.boardSize)
    ensures var (m, s) := BestMove(e, b, c);
      0.0 <= s <= 100.0
      && (IsFull(b, e.boardSize) ==> m == (0, 0) && s == 0.0)
      && (!IsFull(b, e.boardSize) ==>
            InBounds(e.boardSize, m) && At(b, m) == EMPTY && s == Normalize(RankScore(e, b, c, m))
            && (forall q :: InBounds(e.boardSize, q) && At(b, q) == EMPTY ==> RankScore(e, b, c, q) <= RankScore(e, b, c, m))
            && (forall q :: InBounds(e.boardSize, q) && At(b, q) == EMPTY && RowMajorBefore(q, m) ==>
                  RankScore(e, b, c, q) < RankScore(e, b, c, m)))
  {
    var n := e.boardSize;
    var cs := EmptyCells(b, n);
    FullIffNoEmptyCells(b, n);
    if |cs| > 0 {
      var vs := RankScores(e, b, c, cs);
      Seqs.FirstMaxIndexSpec(vs);
      var k := Seqs.FirstMaxIndex(vs);
      assert cs[k] in cs;
      forall q | InBounds(n, q) && At(b, q) == EMPTY
        ensures RankScore(e, b, c, q) <= RankScore(e, b, c, cs[k])
        ensures RowMajorBefore(q, cs[k]) ==> RankScore(e, b, c, q) < RankScore(e, b, c, cs[k])
      {
        var a := EmptyCellIndex(b, n, q);
        if RowMajorBefore(q, cs[k]) {
          assert a < k;
        }
      }
    }
  }

  /**
   * The best-move search: the rank score of every empty cell collected in
   * row-major order, the first greatest of them taken, its score normalised.
   */
  method FindBestMove(e: Evaluator.BoardEvaluator, b: Board, c: int) returns (best: Pos, score: real)
    requires e.Valid() && IsSquare(b, e.boardSize)
    ensures (best, score) == BestMove(e, b, c)
  {
    var cs := CollectEmpty(b, e.boardSize);
    if |cs| == 0 {
      return (0, 0), 0.0;
    }
    var scores: seq<real> := [];
    for i := 0 to |cs|
      invariant |scores| == i && forall k :: 0 <= k < i ==> scores[k] == RankScore(e, b, c, cs[k])
    {
      var (x, y) := cs[i];
      var s := Evaluator.EvaluateMove(e, b, x, y, c);
      scores := scores + [s * e.positionWeights[x][y]];
    }
    assert scores == RankScores(e, b, c, cs);
    var k := Seqs.FirstMaxIndex(scores);
    best := cs[k];
    score := Normalize(scores[k]);
  }

  // ------------------------------------------------------------------
  // Threats
  // ------------------------------------------------------------------

  datatype Level = High | Medium

  /** A cell where c's stone would lift c's board score to a four (high) or a three (medium). */
  datatype Threat = Threat(position: Pos, level: Level, score: real)

  /** c's board score once c plays at p. */
  function PostMoveScore(e: Evaluator.BoardEvaluator, b: Board, c: int, p: Pos): real
    requires e.Valid() && IsSquare(b, e.boardSize) && InBounds(e.boardSize, p)
  {
    SetKeepsSquare(b, e.boardSize, p, c);
    Evaluator.BoardScore(e, Set(b, p, c), c)
  }

  /** The threat level of a post-move score: at least FOUR is high, at least THREE medium. */
  function LevelOf(score: real): Option<Level>
  {
    if score >= EvalWeights().four as real then Some(High)
    else if score >= EvalWeights().three as real then Some(Medium)
    else None
  }

  /** c's post-move board scores at the cells cs. */
  function PostMoveScores(e: Evaluator.BoardEvaluator, b: Board, c: int, cs: seq<Pos>): (ss: seq<real>)
    requires e.Valid() && IsSquare(b, e.boardSize)
    requires forall k :: 0 <= k < |cs| ==> InBounds(e.boardSize, cs[k])
    ensures |ss| == |cs| && forall k :: 0 <= k < |cs| ==> ss[k] == PostMoveScore(e, b, c, cs[k])
  {
    seq(|cs|, k requires 0 <= k < |cs| => PostMoveScore(e, b, c, cs[k]))
  }

  /** The threats at the cells cs whose post-move scores are ss, in the order of cs. */
  function ThreatsOf(cs: seq<Pos>, ss: seq<real>): seq<Threat>
    requires |cs| == |ss|
  {
    if |cs| == 0 then []
    else
      ThreatsOf(cs[..|cs| - 1], ss[..|ss| - 1])
        + match LevelOf(ss[|ss| - 1]) case Some(l) => [Threat(cs[|cs| - 1], l, ss[|ss| - 1])] case None => []
  }

  /** Scanning one more cell appends that cell's threat, if its score gives one. */
  lemma ThreatsOfStep(cs: seq<Pos>, ss: seq<real>, i: nat)
    requires |cs| == |ss| && i < |cs|
    ensures ThreatsOf(cs[..i + 1], ss[..i + 1])
         == ThreatsOf(cs[..i], ss[..i])
              + match LevelOf(ss[i]) case Some(l) => [Threat(cs[i], l, ss[i])] case None => []
  {
    assert cs[..i + 1][..i] == cs[..i] && ss[..i + 1][..i] == ss[..i];
  }

  /** The threats of c on b: one per empty cell whose post-move score reaches THREE. */
  function Threats(e: Evaluator.BoardEvaluator, b: Board, c: int): seq<Threat>
    requires e.Valid() && IsSquare(b, e.boardSize)
  {
    var cs := EmptyCells(b, e.boardSize);
    ThreatsOf(cs, PostMoveScores(e, b, c, cs))
  }

  /** Every threat sits at one of the cells, with that cell's score and the level the score gives. */
  lemma {:induction false} ThreatsOfSound(cs: seq<Pos>, ss: seq<real>)
    requires |cs| == |ss|
    ensures forall t :: t in ThreatsOf(cs, ss) ==>
      exists k :: 0 <= k < |cs| && cs[k] == t.position && ss[k] == t.score && LevelOf(t.score) == Some(t.level)
  {
    if |cs| > 0 {
      var n := |cs| - 1;
      var init, sinit := cs[..n], ss[..n];
      ThreatsOfSound(init, sinit);
      var ts0 := ThreatsOf(init, sinit);
      forall t | t in ThreatsOf(cs, ss)
        ensures exists k :: 0 <= k < |cs| && cs[k] == t.position && ss[k] == t.score && LevelOf(t.score) == Some(t.level)
      {
        if t in ts0 {
          var k :| 0 <= k < |init| && init[k] == t.position && sinit[k] == t.score && LevelOf(t.score) == Some(t.level);
          assert cs[k] == t.position && ss[k] == t.score;
        } else {
          assert cs[n] == t.position && ss[n] == t.score;
        }
      }
    }
  }

  /** The threats' cells in strictly increasing row-major order. */
  predicate InOrder(ts: seq<Threat>)
  {
    forall i, j :: 0 <= i < j < |ts| ==> RowMajorBefore(ts[i].position, ts[j].position)
  }

  /** Over cells in strictly increasing row-major order the threats keep that order, so no cell has two. */
  lemma {:induction false} ThreatsOfOrdered(cs: seq<Pos>, ss: seq<real>)
    requires |cs| == |ss|
    requires forall k, l :: 0 <= k < l < |cs| ==> RowMajorBefore(cs[k], cs[l])
    ensures InOrder(ThreatsOf(cs, ss))
  {
    if |cs| > 0 {
      var n := |cs| - 1;
      var init, sinit := cs[..n], ss[..n];
      ThreatsOfOrdered(init, sinit);
      ThreatsOfSound(init, sinit);
      var ts0 := ThreatsOf(init, sinit);
      forall t | t in ts0 ensures RowMajorBefore(t.position, cs[n]) {
        var k :| 0 <= k < |init| && init[k] == t.position && sinit[k] == t.score && LevelOf(t.score) == Some(t.level);
        assert cs[k] == t.position;
      }
      var tail := match LevelOf(ss[n]) case Some(l) => [Threat(cs[n], l, ss[n])] case None => [];
      var ts := ThreatsOf(cs, ss);
      assert ts == ts0 + tail;
      forall i, j | 0 <= i < j < |ts| ensures RowMajorBefore(ts[i].position, ts[j].position) {
        if j < |ts0| {
          assert ts[i] == ts0[i] && ts[j] == ts0[j];
        } else {
          assert ts[j] == tail[0] && ts[i] == ts0[i];
          assert ts0[i] in ts0;
        }
      }
    }
  }

  /** Every cell whose score reaches THREE has a threat. */
  lemma {:induction false} ThreatsOfComplete(cs: seq<Pos>, ss: seq<real>)
    requires |cs| == |ss|
    ensures forall k :: 0 <= k < |cs| && LevelOf(ss[k]).Some? ==>
      exists t :: t in ThreatsOf(cs, ss) && t.position == cs[k]
  {
    if |cs| > 0 {
      var n := |cs| - 1;
      var init, sinit := cs[..n], ss[..n];
      ThreatsOfComplete(init, sinit);
      var ts0 := ThreatsOf(init, sinit);
      var ts := ThreatsOf(cs, ss);
      forall k | 0 <= k < |cs| && LevelOf(ss[k]).Some?
        ensures exists t :: t in ts && t.position == cs[k]
      {
        if k < n {
          assert init[k] == cs[k] && sinit[k] == ss[k];
          var t :| t in ts0 && t.position == init[k];
          assert t in ts;
        } else {
          assert ts[|ts| - 1].position == cs[k];
        }
      }
    }
  }

  /** The threat scan: every empty cell tried in row-major order, with c's stone placed on a copy. */
  method DetectThreats(e: Evaluator.BoardEvaluator, b: Board, c: int) returns (ts: seq<Threat>)
    requires e.Valid() && IsSquare(b, e.boardSize)
    ensures ts == Threats(e, b, c)
  {
    var n := e.boardSize;
    var cs := CollectEmpty(b, n);
    ghost var ss := PostMoveScores(e, b, c, cs);
    ts := [];
    for i := 0 to |cs|
      invariant ts == ThreatsOf(cs[..i], ss[..i])
    {
      var p := cs[i];
      ThreatsOfStep(cs, ss, i);
      SetKeepsSquare(b, n, p, c);
      var temp := Set(b, p, c);
      var score := Evaluator.EvaluateBoard(e, temp, c);
      assert score == ss[i];
      if score >= EvalWeights().four as real {
        ts := ts + [Threat(p, High, score)];
      } else if score >= EvalWeights().three as real {
        ts := ts + [Threat(p, Medium, score)];
      }
    }
    assert cs[..|cs|] == cs && ss[..|ss|] == ss;
  }

  /**
   * The threats of c: each at an empty cell, at most one per cell and in
   * row-major order; the level is high exactly when the post-move score
   * reaches FOUR and medium exactly when it reaches THREE but not FOUR; and
   * every empty cell whose post-move score reaches THREE is listed.
   */
  lemma DetectThreatsSpec(e: Evaluator.BoardEvaluator, b: Board, c: int)
    requires e.Valid() && IsSquare(b, e.boardSize)
    ensures var ts := Threats(e, b, c);
      (forall t :: t in ts ==>
         InBounds(e.boardSize, t.position) && At(b, t.position) == EMPTY
         && t.score == PostMoveScore(e, b, c, t.position)
         && (t.level == High <==> t.score >= EvalWeights().four as real)
         && (t.level == Medium <==> EvalWeights().three as real <= t.score < EvalWeights().four as real))
      && InOrder(ts)
      && (forall p :: (InBounds(e.boardSize, p) && At(b, p) == EMPTY
            && PostMoveScore(e, b, c, p) >= EvalWeights().three as real) ==>
            exists t :: t in ts && t.position == p)
  {
    var cs := EmptyCells(b, e.boardSize);
    var ss := PostMoveScores(e, b, c, cs);
    ThreatsOfSound(cs, ss);
    ThreatsOfOrdered(cs, ss);
    ThreatsOfComplete(cs, ss);
    var ts := ThreatsOf(cs, ss);
    forall t | t in ts
      ensures InBounds(e.boardSize, t.position) && At(b, t.position) == EMPTY
      ensures t.score == PostMoveScore(e, b, c, t.position) && LevelOf(t.score) == Some(t.level)
    {
      var k :| 0 <= k < |cs| && cs[k] == t.position && ss[k] == t.score && LevelOf(t.score) == Some(t.level);
      assert cs[k] in cs;
    }
    forall p | InBounds(e.boardSize, p) && At(b, p) == EMPTY && PostMoveScore(e, b, c, p) >= EvalWeights().three as real
      ensures exists t :: t in ts && t.position == p
    {
      var k := EmptyCellIndex(b, e.boardSize, p);
      assert LevelOf(ss[k]).Some?;
    }
  }

  // ------------------------------------------------------------------
  // The situation of a board
  // ------------------------------------------------------------------

  datatype Situation = BlackAttack | WhiteAttack | BlackAdvantage | WhiteAdvantage | Balanced

  /** A side attacks when it has two threats or a high one. */
  predicate Attacking(ts: seq<Threat>)
  {
    |ts| >= 2 || exists k :: 0 <= k < |ts| && ts[k].level == High
  }

  /**
   * The verdict, first match wins: Black attacking, White attacking, Black
   * ahead by more than 50, White ahead by more than 50, balanced.
   */
  function Classify(blackThreats: seq<Threat>, whiteThreats: seq<Threat>, gap: real): Situation
  {
    if Attacking(blackThreats) then BlackAttack
    else if Attacking(whiteThreats) then WhiteAttack
    else if gap > 50.0 then BlackAdvantage
    else if gap < -50.0 then WhiteAdvantage
    else Balanced
  }

  /** The same verdict seen from the other side. */
  function Mirror(s: Situation): Situation
  {
    match s
    case BlackAttack => WhiteAttack
    case WhiteAttack => BlackAttack
    case BlackAdvantage => WhiteAdvantage
    case WhiteAdvantage => BlackAdvantage
    case Balanced => Balanced
  }

  /**
   * Swapping the sides (their threats, and the sign of the gap) mirrors the
   * verdict, except when both sides attack: then Black is named either way.
   */
  lemma ClassifyMirror(blackThreats: seq<Threat>, whiteThreats: seq<Threat>, gap: real)
    ensures !(Attacking(blackThreats) && Attacking(whiteThreats)) ==>
      Classify(whiteThreats, blackThreats, -gap) == Mirror(Classify(blackThreats, whiteThreats, gap))
    ensures Attacking(blackThreats) && Attacking(whiteThreats) ==>
      Classify(whiteThreats, blackThreats, -gap) == Classify(blackThreats, whiteThreats, gap) == BlackAttack
  {
  }

  /** The situation report of a board. */
  datatype SituationReport = SituationReport(
    blackScore: real, whiteScore: real, scoreGap: real,
    blackThreats: seq<Threat>, whiteThreats: seq<Threat>,
    blackBestMove: Pos, whiteBestMove: Pos, situation: Situation)

  function SituationOf(e: Evaluator.BoardEvaluator, b: Board): SituationReport
    requires e.Valid() && IsSquare(b, e.boardSize)
  {
    var black := Evaluator.BoardScore(e, b, BLACK);
    var white := Evaluator.BoardScore(e, b, WHITE);
    var bt := Threats(e, b, BLACK);
    var wt := Threats(e, b, WHITE);
    SituationReport(black, white, black - white, bt, wt,
      BestMove(e, b, BLACK).0, BestMove(e, b, WHITE).0, Classify(bt, wt, black - white))
  }

  /** Both sides' board scores, threats and best moves, and the verdict they give. */
  method AnalyzeBoardSituation(e: Evaluator.BoardEvaluator, b: Board) returns (r: SituationReport)
    requires e.Valid() && IsSquare(b, e.boardSize)
    ensures r == SituationOf(e, b)
  {
    var blackScore := Evaluator.EvaluateBoard(e, b, BLACK);
    var whiteScore := Evaluator.EvaluateBoard(e, b, WHITE);
    var scoreGap := blackScore - whiteScore;
    var blackThreats := DetectThreats(e, b, BLACK);
    var whiteThreats := DetectThreats(e, b, WHITE);
    var blackBest, _ := FindBestMove(e, b, BLACK);
    var whiteBest, _ := FindBestMove(e, b, WHITE);
    var situation := Classify(blackThreats, whiteThreats, scoreGap);
    r := SituationReport(blackScore, whiteScore, scoreGap, blackThreats, whiteThreats, blackBest, whiteBest, situation);
  }

  /**
   * The two scores are each other's negation, so the gap is twice Black's
   * score; Black's verdicts need Black threats or a positive gap and
   * White's need White threats or a negative gap.
   */
  lemma SituationSpec(e: Evaluator.BoardEvaluator, b: Board)
    requires e.Valid() && IsSquare(b, e.boardSize)
    ensures var r := SituationOf(e, b);
      r.whiteScore == -r.blackScore && r.scoreGap == 2.0 * r.blackScore
      && (r.situation == BlackAttack ==> r.blackThreats != [])
      && (r.situation == WhiteAttack ==> r.whiteThreats != [] && !Attacking(r.blackThreats))
      && (r.situation == BlackAdvantage ==> r.blackScore > 25.0)
      && (r.situation == WhiteAdvantage ==> r.blackScore < -25.0)
      && (r.situation == Balanced ==> -25.0 <= r.blackScore <= 25.0)
  {
    Evaluator.BoardScoreAntisymmetric(e, b);
  }

  // ------------------------------------------------------------------
  // The quality of one move
  // ------------------------------------------------------------------

  /** The review of one move. */
  datatype QualityReport = QualityReport(
    move: Pos, pattern: Evaluator.Pattern, patternScore: real, positionWeight: real,
    impactScore: real, quality: real, bestMove: Pos, bestScore: real, qualityGap: real)

  function QualityOf(e: Evaluator.BoardEvaluator, b: Board, x: int, y: int, c: int): QualityReport
    requires e.Valid() && IsSquare(b, e.boardSize) && InBounds(e.boardSize, (x, y))
  {
    var (pattern, patternScore) := Evaluator.Recognized(e, b, (x, y), c);
    var weight := e.PositionWeight((x, y));
    var impact := PostMoveScore(e, b, c, (x, y)) - Evaluator.BoardScore(e, b, c);
    var quality := Clamp(patternScore * 0.5 + weight * 20.0 + impact * 0.3);
    var (best, bestScore) := BestMove(e, b, c);
    QualityReport((x, y), pattern, patternScore, weight, impact, quality, best, bestScore, bestScore - quality)
  }

  /**
   * The recognised pattern and its score, the position weight, the change
   * of c's board score the move makes, their blend clamped to 0..100, and
   * the best move with its gap to this one.
   */
  method AnalyzeMoveQuality(e: Evaluator.BoardEvaluator, b: Board, x: int, y: int, c: int) returns (r: QualityReport)
    requires e.Valid() && IsSquare(b, e.boardSize) && InBounds(e.boardSize, (x, y))
    ensures r == QualityOf(e, b, x, y, c)
  {
    var pattern, patternScore := Evaluator.PythonRecognizePattern(e, b, x, y, c);
    var posWeight := e.positionWeights[x][y];
    var preScore := Evaluator.EvaluateBoard(e, b, c);
    SetKeepsSquare(b, e.boardSize, (x, y), c);
    var tempBoard := Set(b, (x, y), c);
    var postScore := Evaluator.EvaluateBoard(e, tempBoard, c);
    var impactScore := postScore - preScore;
    var totalScore := patternScore * 0.5 + posWeight * 20.0 + impactScore * 0.3;
    var quality := Clamp(totalScore);
    var bestMove, bestScore := FindBestMove(e, b, c);
    r := QualityReport((x, y), pattern, patternScore, posWeight, impactScore, quality, bestMove, bestScore, bestScore - quality);
  }

  /**
   * The quality and the best score both lie in 0..100 and the gap is their
   * difference; the impact plus the position weight is the evaluator's
   * move value of (x, y).
   */
  lemma QualitySpec(e: Evaluator.BoardEvaluator, b: Board, x: int, y: int, c: int)
    requires e.Valid() && IsSquare(b, e.boardSize) && InBounds(e.boardSize, (x, y))
    ensures var r := QualityOf(e, b, x, y, c);
      0.0 <= r.quality <= 100.0 && 0.0 <= r.bestScore <= 100.0
      && r.qualityGap == r.bestScore - r.quality && -100.0 <= r.qualityGap <= 100.0
      && r.impactScore + r.positionWeight == Evaluator.MoveValue(e, b, (x, y), c)
      && r.pattern == Evaluator.Recognized(e, b, (x, y), c).0
      && r.bestMove == BestMove(e, b, c).0
  {
    BestMoveSpec(e, b, c);
  }

  // ------------------------------------------------------------------
  // Key moments
  // ------------------------------------------------------------------

  /** One row of the replay's move table. */
  datatype MoveEntry = MoveEntry(
    moveIdx: nat, x: int, y: int, color: int, quality: real,
    pattern: Evaluator.Pattern, bestMove: Pos, qualityGap: real)

  /** One row of the replay's threat table. */
  datatype ThreatEntry = ThreatEntry(moveIdx: nat, blackThreats: nat, whiteThreats: nat, situation: Situation)

  datatype MomentKind =
    | BlackThreatIncrease(blackThreats: nat)
    | WhiteThreatIncrease(whiteThreats: nat)
    | BadKeyMove(quality: real, bestMove: Pos)

  datatype KeyMoment = KeyMoment(moveIdx: nat, kind: MomentKind)

  /** Black's threat count rose by at least one at move i. */
  predicate BlackRise(th: seq<ThreatEntry>, i: nat)
    requires i < |th|
  {
    i > 0 && th[i].blackThreats - th[i - 1].blackThreats >= 1
  }

  predicate WhiteRise(th: seq<ThreatEntry>, i: nat)
    requires i < |th|
  {
    i > 0 && th[i].whiteThreats - th[i - 1].whiteThreats >= 1
  }

  /** A low-quality move that left a large gap to the best one. */
  predicate BadMove(m: MoveEntry)
  {
    m.quality < 50.0 && m.qualityGap > 30.0
  }

  /** The key moments of move i: a Black rise, else a White rise; then a bad move. */
  function MomentsAt(th: seq<ThreatEntry>, mq: seq<MoveEntry>, i: nat): seq<KeyMoment>
    requires i < |th| <= |mq|
  {
    (if BlackRise(th, i) then [KeyMoment(i + 1, BlackThreatIncrease(th[i].blackThreats))]
     else if WhiteRise(th, i) then [KeyMoment(i + 1, WhiteThreatIncrease(th[i].whiteThreats))]
     else [])
    + (if BadMove(mq[i]) then [KeyMoment(i + 1, BadKeyMove(mq[i].quality, mq[i].bestMove))] else [])
  }

  /** The key moments of the first i moves. */
  function KeyMomentsBefore(th: seq<ThreatEntry>, mq: seq<MoveEntry>, i: nat): seq<KeyMoment>
    requires i <= |th| <= |mq|
  {
    if i == 0 then [] else KeyMomentsBefore(th, mq, i - 1) + MomentsAt(th, mq, i - 1)
  }

  /** The scan over the threat table, appending each move's moments. */
  method IdentifyKeyMoments(th: seq<ThreatEntry>, mq: seq<MoveEntry>) returns (km: seq<KeyMoment>)
    requires |th| <= |mq|
    ensures km == KeyMomentsBefore(th, mq, |th|)
  {
    km := [];
    for i := 0 to |th|
      invariant km == KeyMomentsBefore(th, mq, i)
    {
      if i > 0 {
        var prevBlack: int, prevWhite: int := th[i - 1].blackThreats, th[i - 1].whiteThreats;
        var currBlack: int, currWhite: int := th[i].blackThreats, th[i].whiteThreats;
        if currBlack - prevBlack >= 1 {
          km := km + [KeyMoment(i + 1, BlackThreatIncrease(currBlack))];
        } else if currWhite - prevWhite >= 1 {
          km := km + [KeyMoment(i + 1, WhiteThreatIncrease(currWhite))];
        }
      }
      if mq[i].quality < 50.0 && mq[i].qualityGap > 30.0 {
        km := km + [KeyMoment(i + 1, BadKeyMove(mq[i].quality, mq[i].bestMove))];
      }
    }
  }

  /**
   * The key moments of the first i moves, move by move: each names one of
   * those moves; move j has a Black event exactly when Black's threats rose,
   * a White event exactly when White's rose and Black's did not (never
   * both), and a bad-move event exactly when its quality is below 50 with a
   * gap above 30.
   */
  lemma {:induction false} KeyMomentsSpec(th: seq<ThreatEntry>, mq: seq<MoveEntry>, i: nat)
    requires i <= |th| <= |mq|
    ensures var km := KeyMomentsBefore(th, mq, i);
      (forall m :: m in km ==> 1 <= m.moveIdx <= i)
      && (forall j :: 0 <= j < i ==>
            ((exists m :: m in km && m.moveIdx == j + 1 && m.kind.BlackThreatIncrease?) <==> BlackRise(th, j))
            && ((exists m :: m in km && m.moveIdx == j + 1 && m.kind.WhiteThreatIncrease?) <==> !BlackRise(th, j) && WhiteRise(th, j))
            && (KeyMoment(j + 1, BadKeyMove(mq[j].quality, mq[j].bestMove)) in km <==> BadMove(mq[j])))
  {
    if i > 0 {
      KeyMomentsSpec(th, mq, i - 1);
      var km0 := KeyMomentsBefore(th, mq, i - 1);
      var last := MomentsAt(th, mq, i - 1);
      var km := km0 + last;
      assert forall m :: m in last ==> m.moveIdx == i;
      forall j | 0 <= j < i
        ensures (exists m :: m in km && m.moveIdx == j + 1 && m.kind.BlackThreatIncrease?) <==> BlackRise(th, j)
        ensures (exists m :: m in km && m.moveIdx == j + 1 && m.kind.WhiteThreatIncrease?) <==> !BlackRise(th, j) && WhiteRise(th, j)
        ensures KeyMoment(j + 1, BadKeyMove(mq[j].quality, mq[j].bestMove)) in km <==> BadMove(mq[j])
      {
        if j < i - 1 {
          assert forall m :: m in km && m.moveIdx == j + 1 ==> m in km0;
        } else {
          assert forall m :: m in km && m.moveIdx == j + 1 ==> m in last;
          if BlackRise(th, j) {
            assert last[0] in km;
          } else if WhiteRise(th, j) {
            assert last[0] in km;
          }
        }
      }
    }
  }

  // ------------------------------------------------------------------
  // The replay report
  // ------------------------------------------------------------------

  /** One move of a game's history. */
  datatype HistoryMove = HistoryMove(x: int, y: int, color: int)

  predicate MovesInBounds(n: nat, history: seq<HistoryMove>)
  {
    forall k :: 0 <= k < |history| ==> InBounds(n, (history[k].x, history[k].y))
  }

  /** The board after the first k moves of the history, starting from an empty board. */
  function BoardAfter(n: nat, history: seq<HistoryMove>, k: nat): (b: Board)
    requires MovesInBounds(n, history) && k <= |history|
    ensures IsSquare(b, n)
  {
    if k == 0 then EmptyBoard(n)
    else
      var prev := BoardAfter(n, history, k - 1);
      var m := history[k - 1];
      SetKeepsSquare(prev, n, (m.x, m.y), m.color);
      Set(prev, (m.x, m.y), m.color)
  }

  /** The move table row of move k, analysed on the board before it. */
  function MoveEntryAt(e: Evaluator.BoardEvaluator, history: seq<HistoryMove>, k: nat): MoveEntry
    requires e.Valid() && MovesInBounds(e.boardSize, history) && k < |history|
  {
    var m := history[k];
    var q := QualityOf(e, BoardAfter(e.boardSize, history, k), m.x, m.y, m.color);
    MoveEntry(k + 1, m.x, m.y, m.color, q.quality, q.pattern, q.bestMove, q.qualityGap)
  }

  /** The threat table row of move k, taken on the board before it. */
  function ThreatEntryAt(e: Evaluator.BoardEvaluator, history: seq<HistoryMove>, k: nat): ThreatEntry
    requires e.Valid() && MovesInBounds(e.boardSize, history) && k < |history|
  {
    var s := SituationOf(e, BoardAfter(e.boardSize, history, k));
    ThreatEntry(k + 1, |s.blackThreats|, |s.whiteThreats|, s.situation)
  }

  function Qualities(mq: seq<MoveEntry>): (qs: seq<real>)
    ensures |qs| == |mq| && forall k :: 0 <= k < |mq| ==> qs[k] == mq[k].quality
  {
    seq(|mq|, k requires 0 <= k < |mq| => mq[k].quality)
  }

  function Sum(s: seq<real>): real
  {
    if |s| == 0 then 0.0 else Sum(s[..|s| - 1]) + s[|s| - 1]
  }

  /** The number of values at least t. */
  function CountAtLeast(s: seq<real>, t: real): (r: nat)
    ensures r <= |s|
  {
    if |s| == 0 then 0 else CountAtLeast(s[..|s| - 1], t) + (if s[|s| - 1] >= t then 1 else 0)
  }

  /** The number of values below t. */
  function CountBelow(s: seq<real>, t: real): (r: nat)
    ensures r <= |s|
  {
    if |s| == 0 then 0 else CountBelow(s[..|s| - 1], t) + (if s[|s| - 1] < t then 1 else 0)
  }

  /** A sum of values in 0..100 lies in 0..100 times their number. */
  lemma {:induction false} SumBounds(s: seq<real>)
    requires forall k :: 0 <= k < |s| ==> 0.0 <= s[k] <= 100.0
    ensures 0.0 <= Sum(s) <= 100.0 * |s| as real
  {
    if |s| > 0 {
      SumBounds(s[..|s| - 1]);
    }
  }

  function Patterns(mq: seq<MoveEntry>): (ps: seq<Evaluator.Pattern>)
    ensures |ps| == |mq| && forall k :: 0 <= k < |mq| ==> ps[k] == mq[k].pattern
  {
    seq(|mq|, k requires 0 <= k < |mq| => mq[k].pattern)
  }

  /** The most frequent pattern; among equally frequent ones, the one that occurs first. */
  function MostCommon(ps: seq<Evaluator.Pattern>): Evaluator.Pattern
    requires |ps| > 0
  {
    var counts := seq(|ps|, k requires 0 <= k < |ps| => multiset(ps)[ps[k]] as real);
    ps[Seqs.FirstMaxIndex(counts)]
  }

  /** The most common pattern occurs, and no pattern occurs more often. */
  lemma MostCommonSpec(ps: seq<Evaluator.Pattern>)
    requires |ps| > 0
    ensures MostCommon(ps) in ps
    ensures forall p :: multiset(ps)[p] <= multiset(ps)[MostCommon(ps)]
  {
    var counts := seq(|ps|, k requires 0 <= k < |ps| => multiset(ps)[ps[k]] as real);
    Seqs.FirstMaxIndexSpec(counts);
    var i := Seqs.FirstMaxIndex(counts);
    forall p ensures multiset(ps)[p] <= multiset(ps)[ps[i]] {
      if p in ps {
        var a :| 0 <= a < |ps| && ps[a] == p;
        assert counts[a] <= counts[i];
      }
    }
  }

  datatype ReplayReport = ReplayReport(
    totalMoves: nat, avgQuality: real, highQualityRate: real, lowQualityCount: nat,
    mostCommonPattern: Evaluator.Pattern, moveQualities: seq<MoveEntry>,
    threatHistory: seq<ThreatEntry>, keyMoments: seq<KeyMoment>)

  /** The statistics of the tables: mean quality, share of moves of quality 85 or more, count below 60. */
  function Summary(mq: seq<MoveEntry>, th: seq<ThreatEntry>): ReplayReport
    requires 0 < |th| == |mq|
  {
    var qs := Qualities(mq);
    ReplayReport(|mq|, Sum(qs) / |qs| as real, CountAtLeast(qs, 85.0) as real / |qs| as real * 100.0,
      CountBelow(qs, 60.0), MostCommon(Patterns(mq)), mq, th, KeyMomentsBefore(th, mq, |th|))
  }

  /** The first i values of f: [f(0), ..., f(i - 1)]. */
  function Tabulate<T>(f: nat --> T, i: nat): (r: seq<T>)
    requires forall k :: 0 <= k < i ==> f.requires(k)
    ensures |r| == i
  {
    if i == 0 then [] else Tabulate(f, i - 1) + [f(i - 1)]
  }

  lemma {:induction false} TabulateAt<T>(f: nat --> T, i: nat, k: nat)
    requires forall k :: 0 <= k < i ==> f.requires(k)
    requires k < i
    ensures Tabulate(f, i)[k] == f(k)
  {
    if k < i - 1 {
      TabulateAt(f, i - 1, k);
    }
  }

  /** The move table rows of the first i moves. */
  function MoveEntries(e: Evaluator.BoardEvaluator, history: seq<HistoryMove>, i: nat): (mq: seq<MoveEntry>)
    requires e.Valid() && MovesInBounds(e.boardSize, history) && i <= |history|
    ensures |mq| == i
  {
    Tabulate((k: nat) requires k < |history| => MoveEntryAt(e, history, k), i)
  }

  /** The threat table rows of the first i moves. */
  function ThreatEntries(e: Evaluator.BoardEvaluator, history: seq<HistoryMove>, i: nat): (th: seq<ThreatEntry>)
    requires e.Valid() && MovesInBounds(e.boardSize, history) && i <= |history|
    ensures |th| == i
  {
    Tabulate((k: nat) requires k < |history| => ThreatEntryAt(e, history, k), i)
  }

  /** Row k of the move table is the analysis of move k. */
  lemma MoveEntriesAt(e: Evaluator.BoardEvaluator, history: seq<HistoryMove>, i: nat, k: nat)
    requires e.Valid() && MovesInBounds(e.boardSize, history) && k < i <= |history|
    ensures MoveEntries(e, history, i)[k] == MoveEntryAt(e, history, k)
  {
    var f := (k: nat) requires k < |history| => MoveEntryAt(e, history, k);
    assert MoveEntries(e, history, i) == Tabulate(f, i);
    TabulateAt(f, i, k);
  }

  /** Row k of the threat table is the situation before move k. */
  lemma ThreatEntriesAt(e: Evaluator.BoardEvaluator, history: seq<HistoryMove>, i: nat, k: nat)
    requires e.Valid() && MovesInBounds(e.boardSize, history) && k < i <= |history|
    ensures ThreatEntries(e, history, i)[k] == ThreatEntryAt(e, history, k)
  {
    var f := (k: nat) requires k < |history| => ThreatEntryAt(e, history, k);
    assert ThreatEntries(e, history, i) == Tabulate(f, i);
    TabulateAt(f, i, k);
  }

  /** The report of a non-empty history. */
  function Report(e: Evaluator.BoardEvaluator, history: seq<HistoryMove>): ReplayReport
    requires e.Valid() && MovesInBounds(e.boardSize, history) && |history| > 0
  {
    Summary(MoveEntries(e, history, |history|), ThreatEntries(e, history, |history|))
  }

  /** Analyse move i on the board before it. */
  method ReplayStep(e: Evaluator.BoardEvaluator, history: seq<HistoryMove>, i: nat, board: Board)
    returns (entry: MoveEntry, threat: ThreatEntry)
    requires e.Valid() && MovesInBounds(e.boardSize, history) && i < |history|
    requires board == BoardAfter(e.boardSize, history, i)
    ensures entry == MoveEntryAt(e, history, i) && threat == ThreatEntryAt(e, history, i)
  {
    var m := history[i];
    var q := AnalyzeMoveQuality(e, board, m.x, m.y, m.color);
    entry := MoveEntry(i + 1, m.x, m.y, m.color, q.quality, q.pattern, q.bestMove, q.qualityGap);
    var s := AnalyzeBoardSituation(e, board);
    threat := ThreatEntry(i + 1, |s.blackThreats|, |s.whiteThreats|, s.situation);
  }

  /** The loop over the history: analyse each move on the current board, then play it. */
  method AnalyzeHistory(e: Evaluator.BoardEvaluator, history: seq<HistoryMove>)
    returns (moveQualities: seq<MoveEntry>, threatHistory: seq<ThreatEntry>)
    requires e.Valid() && MovesInBounds(e.boardSize, history)
    ensures moveQualities == MoveEntries(e, history, |history|)
    ensures threatHistory == ThreatEntries(e, history, |history|)
  {
    var board := EmptyBoard(e.boardSize);
    moveQualities, threatHistory := [], [];
    for i := 0 to |history|
      invariant board == BoardAfter(e.boardSize, history, i)
      invariant moveQualities == MoveEntries(e, history, i)
      invariant threatHistory == ThreatEntries(e, history, i)
    {
      var entry, threat := ReplayStep(e, history, i, board);
      moveQualities := moveQualities + [entry];
      threatHistory := threatHistory + [threat];
      var m := history[i];
      board := Set(board, (m.x, m.y), m.color);
    }
  }

  /** The statistics and key moments of the two tables. */
  method Summarize(moveQualities: seq<MoveEntry>, threatHistory: seq<ThreatEntry>) returns (r: ReplayReport)
    requires 0 < |threatHistory| == |moveQualities|
    ensures r == Summary(moveQualities, threatHistory)
  {
    var keyMoments := IdentifyKeyMoments(threatHistory, moveQualities);
    var qs := Qualities(moveQualities);
    r := ReplayReport(|moveQualities|, Sum(qs) / |qs| as real,
      CountAtLeast(qs, 85.0) as real / |qs| as real * 100.0, CountBelow(qs, 60.0),
      MostCommon(Patterns(moveQualities)), moveQualities, threatHistory, keyMoments);
  }

  /**
   * The replay: an error for an empty history; otherwise each move in turn
   * analysed on the board before it and then played, and the statistics
   * and key moments of the resulting tables.
   */
  method GenerateReplayReport(e: Evaluator.BoardEvaluator, history: seq<HistoryMove>, boardSize: nat)
    returns (r: Result<ReplayReport>)
    requires e.Valid() && boardSize == e.boardSize && MovesInBounds(boardSize, history)
    ensures r.Err? <==> history == []
    ensures r.Ok? ==> r.value == Report(e, history)
  {
    if |history| == 0 {
      return Err("no move history");
    }
    var moveQualities, threatHistory := AnalyzeHistory(e, history);
    var report := Summarize(moveQualities, threatHistory);
    r := Ok(report);
  }

  /** A total of at most 100 per item, divided by the number of items, lies in 0..100. */
  lemma RatioBounds(total: real, n: nat)
    requires n > 0 && 0.0 <= total <= 100.0 * n as real
    ensures 0.0 <= total / n as real <= 100.0
  {
  }

  /** h of n items, as a percentage, lies in 0..100. */
  lemma ShareBounds(h: nat, n: nat)
    requires 0 < n && h <= n
    ensures 0.0 <= h as real / n as real * 100.0 <= 100.0
  {
    assert h as real / n as real <= 1.0;
  }

  /**
   * The statistics of tables whose qualities lie in 0..100: the mean
   * quality and the high-quality share in 0..100, the low-quality count at
   * most the number of moves, and a most common pattern that no pattern
   * beats.
   */
  lemma SummarySpec(mq: seq<MoveEntry>, th: seq<ThreatEntry>)
    requires 0 < |th| == |mq|
    requires forall k :: 0 <= k < |mq| ==> 0.0 <= mq[k].quality <= 100.0
    ensures var r := Summary(mq, th);
      0.0 <= r.avgQuality <= 100.0
      && 0.0 <= r.highQualityRate <= 100.0
      && r.lowQualityCount <= |mq|
      && r.mostCommonPattern in Patterns(mq)
      && forall p :: multiset(Patterns(mq))[p] <= multiset(Patterns(mq))[r.mostCommonPattern]
  {
    var qs := Qualities(mq);
    SumBounds(qs);
    MostCommonSpec(Patterns(mq));
    RatioBounds(Sum(qs), |qs|);
    ShareBounds(CountAtLeast(qs, 85.0), |qs|);
  }

  /** Row k of the report's tables: numbered k + 1, move k's cell, its quality on the board before it. */
  lemma ReportRow(e: Evaluator.BoardEvaluator, history: seq<HistoryMove>, k: nat)
    requires e.Valid() && MovesInBounds(e.boardSize, history) && k < |history|
    ensures var mq := MoveEntries(e, history, |history|);
      var th := ThreatEntries(e, history, |history|);
      var m := history[k];
      mq[k].moveIdx == k + 1 == th[k].moveIdx
      && (mq[k].x, mq[k].y) == (m.x, m.y)
      && mq[k].quality == QualityOf(e, BoardAfter(e.boardSize, history, k), m.x, m.y, m.color).quality
      && 0.0 <= mq[k].quality <= 100.0
  {
    MoveEntriesAt(e, history, |history|, k);
    ThreatEntriesAt(e, history, |history|, k);
    var m := history[k];
    QualitySpec(e, BoardAfter(e.boardSize, history, k), m.x, m.y, m.color);
  }

  /**
   * The report of a history of n moves: n rows in each table, row k
   * numbered k + 1 and analysed on the board the first k moves leave, with
   * statistics as SummarySpec states.
   */
  lemma ReportSpec(e: Evaluator.BoardEvaluator, history: seq<HistoryMove>)
    requires e.Valid() && MovesInBounds(e.boardSize, history) && |history| > 0
    ensures var r := Report(e, history);
      r.totalMoves == |history| == |r.moveQualities| == |r.threatHistory|
      && (forall k :: 0 <= k < |history| ==>
            r.moveQualities[k].moveIdx == k + 1 == r.threatHistory[k].moveIdx
            && (r.moveQualities[k].x, r.moveQualities[k].y) == (history[k].x, history[k].y)
            && r.moveQualities[k].quality
                 == QualityOf(e, BoardAfter(e.boardSize, history, k), history[k].x, history[k].y, history[k].color).quality)
      && 0.0 <= r.avgQuality <= 100.0
      && 0.0 <= r.highQualityRate <= 100.0
      && r.lowQualityCount <= |history|
      && r.keyMoments == KeyMomentsBefore(r.threatHistory, r.moveQualities, |history|)
  {
    var mq := MoveEntries(e, history, |history|);
    var th := ThreatEntries(e, history, |history|);
    forall k | 0 <= k < |history|
      ensures mq[k].moveIdx == k + 1 == th[k].moveIdx
      ensures (mq[k].x, mq[k].y) == (history[k].x, history[k].y)
      ensures mq[k].quality == QualityOf(e, BoardAfter(e.boardSize, history, k), history[k].x, history[k].y, history[k].color).quality
      ensures 0.0 <= mq[k].quality <= 100.0
    {
      ReportRow(e, history, k);
    }
    SummarySpec(mq, th);
  }
}
