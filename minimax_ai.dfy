/**
 * The minimax searcher: a depth-bounded alpha-beta search over the empty
 * cells, each level ordered by the evaluation of the board after the
 * move and cut to its first fifteen cells, a win test before every
 * expansion, and an evaluation that either takes the best native move
 * score among the first ten empty cells (memoised) or sums a simple
 * per-stone pattern score in Python.
 *
 * The search is specified by the pure functions Search and SearchLoop;
 * the class methods are the loops of the source and are proved to compute
 * them, including the best move the root level records.
 */
module MinimaxAi {
  import opened Wrappers
  import opened Constants
  import opened Boards
  import opened Windows
  import opened ExtReals
  import opened Sorting
  import opened BaseAi
  import Evaluator
  import GobangCore

  // ---------------------------------------------------------------------
  // Depth by level
  // ---------------------------------------------------------------------

  /** _get_max_depth: the search depth of each difficulty level, 5 for an unknown one. */
  function GetMaxDepth(level: string): (d: nat)
    ensures level == EASY ==> d == 3
    ensures level == MEDIUM ==> d == 4
    ensures level == HARD ==> d == 5
    ensures level == EXPERT ==> d == 6
    ensures level !in AiLevels() ==> d == 5
    ensures 3 <= d <= 6
  {
    if level == EASY then 3
    else if level == MEDIUM then 4
    else if level == EXPERT then 6
    else 5
  }

  // ---------------------------------------------------------------------
  // The Python evaluation
  // ---------------------------------------------------------------------

  /** The score table of _calc_pos_score for one direction's (count, blocked). */
  function PosTable(count: int, blocked: int): (s: real)
    ensures 0.0 <= s <= 10000.0
    ensures s == 10000.0 <==> count >= 5
    ensures count <= 2 ==> s == 0.0
  {
    if count >= 5 then 10000.0
    else if count == 4 && blocked == 0 then 1000.0
    else if count == 4 && blocked == 1 then 100.0
    else if count == 3 && blocked == 0 then 100.0
    else if count == 3 && blocked == 1 then 10.0
    else 0.0
  }

  /** A longer run never scores less, and a more blocked one never more. */
  lemma PosTableMonotone(c1: int, c2: int, b1: int, b2: int)
    requires c1 <= c2 && 0 <= b2 <= b1
    ensures PosTable(c1, b1) <= PosTable(c2, b2)
  {
  }

  /** What direction i of Dirs() adds to the position score of c at p. */
  function DirPosScore(b: Board, n: nat, p: Pos, c: int, i: nat): real
    requires IsSquare(b, n) && i < 4
  {
    PosTable(Total(b, n, p, c, Dirs()[i]), Evaluator.DirBlocked(b, n, p, c, Dirs()[i]))
  }

  /** The first k directions' scores, summed. */
  function PosScoreUpTo(b: Board, n: nat, p: Pos, c: int, k: nat): (s: real)
    requires IsSquare(b, n) && k <= 4
    ensures 0.0 <= s <= 10000.0 * k as real
  {
    if k == 0 then 0.0 else PosScoreUpTo(b, n, p, c, k - 1) + DirPosScore(b, n, p, c, k - 1)
  }

  /** _calc_pos_score: the table scores of the four directions, summed. */
  function PosScore(b: Board, n: nat, p: Pos, c: int): real
    requires IsSquare(b, n)
  {
    PosScoreUpTo(b, n, p, c, 4)
  }

  /** A five through p in any direction puts the position score at 10000 or more. */
  lemma {:induction false} FiveScoresAtLeast(b: Board, n: nat, p: Pos, c: int, i: nat, k: nat)
    requires IsSquare(b, n) && i < k <= 4 && Total(b, n, p, c, Dirs()[i]) >= 5
    ensures PosScoreUpTo(b, n, p, c, k) >= 10000.0
  {
    if i < k - 1 {
      FiveScoresAtLeast(b, n, p, c, i, k - 1);
    }
  }

  /** What one cell adds to _python_evaluate: its own stone's score, minus an opponent stone's. */
  function PyCell(n: nat, opponent: int, b: Board, c: int, p: Pos): real
    requires IsSquare(b, n) && InBounds(n, p)
  {
    var v := At(b, p);
    if v == c then PosScore(b, n, p, c)
    else if v == opponent then -PosScore(b, n, p, opponent)
    else 0.0
  }

  /** The cell contributions before (i, j) in row-major order, summed. */
  function PyBefore(n: nat, opponent: int, b: Board, c: int, i: nat, j: nat): real
    requires IsSquare(b, n) && i <= n && j <= n && (i < n || j == 0)
    decreases i, j
  {
    if j == 0 then (if i == 0 then 0.0 else PyBefore(n, opponent, b, c, i - 1, n))
    else PyBefore(n, opponent, b, c, i, j - 1) + PyCell(n, opponent, b, c, (i, j - 1))
  }

  /** _python_evaluate of colour c against the stored opponent colour. */
  function PyEval(n: nat, opponent: int, b: Board, c: int): real
    requires IsSquare(b, n)
  {
    PyBefore(n, opponent, b, c, n, 0)
  }

  lemma {:induction false} PyBeforeAntisymmetric(n: nat, b: Board, i: nat, j: nat)
    requires IsSquare(b, n) && i <= n && j <= n && (i < n || j == 0)
    ensures PyBefore(n, WHITE, b, BLACK, i, j) == -PyBefore(n, BLACK, b, WHITE, i, j)
    decreases i, j
  {
    if j == 0 {
      if i > 0 {
        PyBeforeAntisymmetric(n, b, i - 1, n);
      }
    } else {
      PyBeforeAntisymmetric(n, b, i, j - 1);
    }
  }

  /** Black's Python evaluation is the negation of White's. */
  lemma PyEvalAntisymmetric(n: nat, b: Board)
    requires IsSquare(b, n)
    ensures PyEval(n, WHITE, b, BLACK) == -PyEval(n, BLACK, b, WHITE)
  {
    PyBeforeAntisymmetric(n, b, n, 0);
  }

  // ---------------------------------------------------------------------
  // The native evaluation
  // ---------------------------------------------------------------------

  /** The running maximum from -inf that a strictly greater value replaces. */
  function XMaxOf(s: seq<XReal>): (m: XReal)
    ensures forall k :: 0 <= k < |s| ==> LessEq(s[k], m)
    ensures m == NegInf || exists k :: 0 <= k < |s| && s[k] == m
  {
    if |s| == 0 then NegInf
    else
      var m := XMaxOf(s[..|s| - 1]);
      assert forall k :: 0 <= k < |s| - 1 ==> s[..|s| - 1][k] == s[k];
      if Less(m, s[|s| - 1]) then s[|s| - 1] else m
  }

  /** Over finite values the maximum is -inf exactly when there is no value, and otherwise one of them. */
  lemma XMaxOfFinite(s: seq<XReal>)
    requires forall k :: 0 <= k < |s| ==> s[k].Fin?
    ensures XMaxOf(s) == NegInf <==> |s| == 0
    ensures |s| > 0 ==> exists k :: 0 <= k < |s| && s[k] == XMaxOf(s)
  {
    if |s| > 0 {
      assert LessEq(s[0], XMaxOf(s));
    }
  }

  /** Appending a value raises the maximum to it exactly when it is strictly greater. */
  lemma XMaxOfSnoc(s: seq<XReal>, x: XReal)
    ensures XMaxOf(s + [x]) == if Less(XMaxOf(s), x) then x else XMaxOf(s)
  {
    assert (s + [x])[..|s|] == s;
  }

  /** The native move scores of c at the given cells. */
  function NativeScores(b: Board, n: nat, c: int, cells: seq<Pos>): (s: seq<XReal>)
    requires IsSquare(b, n) && forall k :: 0 <= k < |cells| ==> InBounds(n, cells[k])
    ensures |s| == |cells| && forall k :: 0 <= k < |s| ==> s[k].Fin?
  {
    seq(|cells|, k requires 0 <= k < |cells| => Fin(GobangCore.MoveScore(b, n, cells[k], c, EvalWeights()) as real))
  }

  /** The scores of one more cell are the earlier scores and the new cell's. */
  lemma NativeScoresSnoc(b: Board, n: nat, c: int, cells: seq<Pos>, k: nat)
    requires IsSquare(b, n) && forall j :: 0 <= j < |cells| ==> InBounds(n, cells[j])
    requires k < |cells|
    ensures NativeScores(b, n, c, cells[..k + 1])
      == NativeScores(b, n, c, cells[..k]) + [Fin(GobangCore.MoveScore(b, n, cells[k], c, EvalWeights()) as real)]
  {
    var longer, shorter := NativeScores(b, n, c, cells[..k + 1]), NativeScores(b, n, c, cells[..k]);
    assert forall j :: 0 <= j < k ==> longer[j] == shorter[j];
  }

  /**
   * The native _evaluate: the best native move score among the first ten
   * empty cells, -inf when the board has none.
   */
  function NativeEval(b: Board, n: nat, c: int): (v: XReal)
    requires IsSquare(b, n)
    ensures v == NegInf <==> EmptyCells(b, n) == []
  {
    var s := NativeScores(b, n, c, Take(EmptyCells(b, n), 10));
    XMaxOfFinite(s);
    XMaxOf(s)
  }

  // ---------------------------------------------------------------------
  // The search, as pure functions
  // ---------------------------------------------------------------------

  /**
   * The game as the search sees it: whether the side to move at a level
   * has already won, the value of a leaf, the cells a level searches in
   * order, the board after the mover of a level plays a cell, and the
   * depth at which the best move is recorded.
   */
  datatype Game = Game(won: (Board, bool) -> bool, leaf: Board -> XReal, order: (Board, bool) -> seq<Pos>,
                       play: (Board, Pos, bool) -> Board, maxDepth: nat)

  /** The value of a win found before expanding: 10000 * (1 + depth / 10), negated for the opponent. */
  function WinValue(depth: nat, isMax: bool): (v: XReal)
    ensures v.Fin? && (isMax <==> v.r > 0.0)
  {
    var w := 10000.0 * (1.0 + depth as real / 10.0);
    if isMax then Fin(w) else Fin(-w)
  }

  /**
   * _minimax as a function of its arguments and of the best move recorded
   * so far: the value and the best move afterwards.  A win of the side to
   * move is scored at once; at depth 0 the leaf is evaluated; otherwise
   * the ordered cells are searched by SearchLoop.
   */
  function Search(g: Game, b: Board, depth: nat, alpha: XReal, beta: XReal, isMax: bool, best: Pos): (XReal, Pos)
    decreases depth, 1
  {
    if g.won(b, isMax) then (WinValue(depth, isMax), best)
    else if depth == 0 then (g.leaf(b), best)
    else SearchLoop(g, b, depth, g.order(b, isMax), 0, alpha, beta, isMax, if isMax then NegInf else PosInf, best)
  }

  /** The state of a level's loop after one cell: best score, window, recorded move, and whether to stop. */
  datatype Window = Window(score: XReal, alpha: XReal, beta: XReal, best: Pos, stop: bool)

  /**
   * One pass of _minimax's loop once the child's value s is known.  The
   * maximizer keeps a strictly better score, records the cell when it is
   * at the root, raises alpha, and stops once beta <= alpha; the minimizer
   * keeps a strictly lower score, lowers beta, and stops once beta <= alpha.
   */
  function Advance(isMax: bool, root: bool, move: Pos, alpha: XReal, beta: XReal, score: XReal, s: XReal, best: Pos): Window
  {
    if isMax then
      var improved := Less(score, s);
      var score' := if improved then s else score;
      var alpha' := Max(alpha, score');
      Window(score', alpha', beta, if improved && root then move else best, LessEq(beta, alpha'))
    else
      var score' := if Less(s, score) then s else score;
      var beta' := Min(beta, score');
      Window(score', alpha, beta', best, LessEq(beta', alpha))
  }

  /**
   * After a pass the best score is the larger (maximizer) or smaller
   * (minimizer) of the old score and the child's, the window edge of the
   * side to move has moved to it, the loop stops exactly when the window
   * is closed, and the recorded move changes only at the root of a
   * maximizer that strictly improved.
   */
  lemma AdvanceSpec(isMax: bool, root: bool, move: Pos, alpha: XReal, beta: XReal, score: XReal, s: XReal, best: Pos)
    ensures var w := Advance(isMax, root, move, alpha, beta, score, s, best);
      && (isMax ==> w.beta == beta && w.alpha == Max(alpha, w.score) && LessEq(score, w.score) && LessEq(s, w.score))
      && (!isMax ==> w.alpha == alpha && w.beta == Min(beta, w.score) && LessEq(w.score, score) && LessEq(w.score, s))
      && (w.score == s || w.score == score)
      && (w.stop <==> LessEq(w.beta, w.alpha))
      && (w.best == best || (isMax && root && w.best == move && Less(score, s)))
  {
    LessIsStrictTotal(score, s, score);
    LessIsStrictTotal(s, score, s);
  }

  /**
   * The loop over the cells from index k, with the window and the best
   * score so far: each cell's child is searched one level down with the
   * current window and folded in by Advance, until the cells run out or
   * the window closes.
   */
  function SearchLoop(g: Game, b: Board, depth: nat, moves: seq<Pos>, k: nat,
                      alpha: XReal, beta: XReal, isMax: bool, score: XReal, best: Pos): (XReal, Pos)
    requires depth >= 1 && k <= |moves|
    decreases depth, 0, |moves| - k
  {
    if k == |moves| then (score, best)
    else
      var (s, best1) := Search(g, g.play(b, moves[k], isMax), depth - 1, alpha, beta, !isMax, best);
      var w := Advance(isMax, depth == g.maxDepth, moves[k], alpha, beta, score, s, best1);
      if w.stop then (w.score, w.best)
      else SearchLoop(g, b, depth, moves, k + 1, w.alpha, w.beta, isMax, w.score, w.best)
  }

  /** Below the maximum depth the recorded best move is never touched. */
  lemma {:induction false} SearchKeepsBest(g: Game, b: Board, depth: nat, alpha: XReal, beta: XReal, isMax: bool, best: Pos)
    requires depth < g.maxDepth
    ensures Search(g, b, depth, alpha, beta, isMax, best).1 == best
    decreases depth, 1
  {
    if !g.won(b, isMax) && depth > 0 {
      LoopKeepsBest(g, b, depth, g.order(b, isMax), 0, alpha, beta, isMax, if isMax then NegInf else PosInf, best);
    }
  }

  lemma {:induction false} LoopKeepsBest(g: Game, b: Board, depth: nat, moves: seq<Pos>, k: nat,
                                         alpha: XReal, beta: XReal, isMax: bool, score: XReal, best: Pos)
    requires 1 <= depth < g.maxDepth && k <= |moves|
    ensures SearchLoop(g, b, depth, moves, k, alpha, beta, isMax, score, best).1 == best
    decreases depth, 0, |moves| - k
  {
    if k < |moves| {
      var child := g.play(b, moves[k], isMax);
      SearchKeepsBest(g, child, depth - 1, alpha, beta, !isMax, best);
      var s := Search(g, child, depth - 1, alpha, beta, !isMax, best).0;
      var w := Advance(isMax, false, moves[k], alpha, beta, score, s, best);
      LoopKeepsBest(g, b, depth, moves, k + 1, w.alpha, w.beta, isMax, w.score, best);
    }
  }

  /**
   * At the maximum depth the maximizer's recorded move is the one it was
   * given or one of the cells it searched.
   */
  lemma RootBestIsSearched(g: Game, b: Board, alpha: XReal, beta: XReal, best: Pos)
    requires g.maxDepth >= 1
    ensures var r := Search(g, b, g.maxDepth, alpha, beta, true, best).1;
      r == best || r in g.order(b, true)
  {
    if !g.won(b, true) {
      RootLoopBest(g, b, g.order(b, true), 0, alpha, beta, NegInf, best, best);
    }
  }

  lemma {:induction false} RootLoopBest(g: Game, b: Board, moves: seq<Pos>, k: nat,
                                        alpha: XReal, beta: XReal, score: XReal, best: Pos, start: Pos)
    requires g.maxDepth >= 1 && k <= |moves|
    requires best == start || best in moves
    ensures var r := SearchLoop(g, b, g.maxDepth, moves, k, alpha, beta, true, score, best).1;
      r == start || r in moves
    decreases |moves| - k
  {
    if k < |moves| {
      var child := g.play(b, moves[k], true);
      SearchKeepsBest(g, child, g.maxDepth - 1, alpha, beta, false, best);
      var s := Search(g, child, g.maxDepth - 1, alpha, beta, false, best).0;
      var w := Advance(true, true, moves[k], alpha, beta, score, s, best);
      RootLoopBest(g, b, moves, k + 1, w.alpha, w.beta, w.score, w.best, start);
    }
  }

  /** A level with no cell to search is worth -inf to the maximizer and +inf to the minimizer. */
  lemma NoCellsIsInfinite(g: Game, b: Board, depth: nat, alpha: XReal, beta: XReal, isMax: bool, best: Pos)
    requires depth >= 1 && !g.won(b, isMax) && g.order(b, isMax) == []
    ensures Search(g, b, depth, alpha, beta, isMax, best) == (if isMax then NegInf else PosInf, best)
  {
  }

  // ---------------------------------------------------------------------
  // The minimax searcher's game
  // ---------------------------------------------------------------------

  /** The searcher's settings: its colour and the opponent's, the board size, the path, the depth. */
  datatype Config = Config(color: int, opponent: int, n: nat, useCpp: bool, maxDepth: nat)

  /** _evaluate: the native path or the Python one. */
  function Eval(cfg: Config, b: Board, c: int): XReal
    requires IsSquare(b, cfg.n)
  {
    if cfg.useCpp then NativeEval(b, cfg.n, c) else Fin(PyEval(cfg.n, cfg.opponent, b, c))
  }

  /** The colour that moves at a maximizing or minimizing level. */
  function Mover(cfg: Config, isMax: bool): int
  {
    if isMax then cfg.color else cfg.opponent
  }

  /** _simulate_move: a copy of the board with c at p. */
  function Child(cfg: Config, b: Board, p: Pos, c: int): (r: Board)
    requires IsSquare(b, cfg.n) && InBounds(cfg.n, p)
    ensures IsSquare(r, cfg.n) && At(r, p) == c
    ensures forall q :: InBounds(cfg.n, q) && q != p ==> At(r, q) == At(b, q)
  {
    SetKeepsSquare(b, cfg.n, p, c);
    Set(b, p, c)
  }

  /** The sort key of cell p: the searcher's evaluation after the mover plays p. */
  function KeyOf(cfg: Config, b: Board, p: Pos, mover: int): XReal
    requires IsSquare(b, cfg.n) && InBounds(cfg.n, p)
  {
    Eval(cfg, Child(cfg, b, p, mover), cfg.color)
  }

  /** The cells paired with their sort keys. */
  function Keyed(cfg: Config, b: Board, cells: seq<Pos>, mover: int): (r: seq<(XReal, Pos)>)
    requires IsSquare(b, cfg.n) && forall k :: 0 <= k < |cells| ==> InBounds(cfg.n, cells[k])
    ensures |r| == |cells| && forall k :: 0 <= k < |cells| ==> r[k] == (KeyOf(cfg, b, cells[k], mover), cells[k])
  {
    seq(|cells|, k requires 0 <= k < |cells| => (KeyOf(cfg, b, cells[k], mover), cells[k]))
  }

  /**
   * The cells a level searches: the empty cells sorted by key (best first
   * for the maximizer, worst first for the minimizer, stably) and cut to
   * the first fifteen.  Each is an empty cell of the board.
   */
  function Candidates(cfg: Config, b: Board, isMax: bool): (r: seq<Pos>)
    requires IsSquare(b, cfg.n)
    ensures |r| <= 15 && |r| <= |EmptyCells(b, cfg.n)|
    ensures forall k :: 0 <= k < |r| ==> InBounds(cfg.n, r[k]) && At(b, r[k]) == EMPTY
  {
    var cells := EmptyCells(b, cfg.n);
    var keyed := Keyed(cfg, b, cells, Mover(cfg, isMax));
    var sorted := SortBy(keyed, isMax);
    SortBySpec(keyed, isMax);
    forall k | 0 <= k < |sorted| ensures sorted[k].1 in cells {
      assert sorted[k] in multiset(keyed);
      var j :| 0 <= j < |keyed| && keyed[j] == sorted[k];
    }
    Take(Items(sorted), 15)
  }

  /** Whether the side to move at a level has five: _is_win for the mover. */
  function WonAt(cfg: Config, b: Board, isMax: bool): bool
  {
    IsSquare(b, cfg.n) && IsWin(b, cfg.n, Mover(cfg, isMax)).0
  }

  /** The leaf value: _evaluate(board, self.color). */
  function LeafAt(cfg: Config, b: Board): XReal
  {
    if IsSquare(b, cfg.n) then Eval(cfg, b, cfg.color) else NegInf
  }

  /** The ordered, cut list of cells a level searches. */
  function OrderAt(cfg: Config, b: Board, isMax: bool): seq<Pos>
  {
    if IsSquare(b, cfg.n) then Candidates(cfg, b, isMax) else []
  }

  /** The board after the mover of a level plays p. */
  function PlayAt(cfg: Config, b: Board, p: Pos, isMax: bool): Board
  {
    if IsSquare(b, cfg.n) && InBounds(cfg.n, p) then Child(cfg, b, p, Mover(cfg, isMax)) else b
  }

  /**
   * The game MinimaxAI searches.  Every board the search meets from a
   * square board is square (a level plays only its own empty cells), and
   * there the four parts are _is_win, _evaluate, the sorted cut and
   * _simulate_move; their values on other boards are never used.
   */
  function MinimaxGame(cfg: Config): Game
  {
    Game((b, isMax) => WonAt(cfg, b, isMax), b => LeafAt(cfg, b), (b, isMax) => OrderAt(cfg, b, isMax),
         (b, p, isMax) => PlayAt(cfg, b, p, isMax), cfg.maxDepth)
  }

  /**
   * g plays as MinimaxAI with settings cfg does on square boards: its
   * parts are _is_win for the mover, _evaluate for the searcher's colour,
   * the sorted cut and _simulate_move, and it records at cfg's depth.
   */
  ghost predicate Agrees(g: Game, cfg: Config)
  {
    g.maxDepth == cfg.maxDepth
    && (forall b, isMax {:trigger g.won(b, isMax), IsSquare(b, cfg.n)} :: IsSquare(b, cfg.n) ==> g.won(b, isMax) == IsWin(b, cfg.n, Mover(cfg, isMax)).0)
    && (forall b {:trigger g.leaf(b), IsSquare(b, cfg.n)} :: IsSquare(b, cfg.n) ==> g.leaf(b) == Eval(cfg, b, cfg.color))
    && (forall b, isMax {:trigger g.order(b, isMax), IsSquare(b, cfg.n)} :: IsSquare(b, cfg.n) ==> g.order(b, isMax) == Candidates(cfg, b, isMax))
    && (forall b, p, isMax {:trigger g.play(b, p, isMax), IsSquare(b, cfg.n)} :: IsSquare(b, cfg.n) && InBounds(cfg.n, p) ==>
          g.play(b, p, isMax) == Set(b, p, Mover(cfg, isMax)))
  }

  /** MinimaxGame(cfg) is the game MinimaxAI with settings cfg plays. */
  lemma MinimaxGameAgrees(cfg: Config)
    ensures Agrees(MinimaxGame(cfg), cfg)
  {
    var g := MinimaxGame(cfg);
    forall b, p, isMax | IsSquare(b, cfg.n) && InBounds(cfg.n, p)
      ensures g.play(b, p, isMax) == Set(b, p, Mover(cfg, isMax))
    {
      assert g.play(b, p, isMax) == PlayAt(cfg, b, p, isMax);
    }
  }

  /**
   * The root of a search of a game that agrees with MinimaxAI, from a
   * square board, records either the move it started from or an empty
   * cell of that board.
   */
  lemma RootBestIsEmptyCell(g: Game, cfg: Config, b: Board, alpha: XReal, beta: XReal, start: Pos)
    requires Agrees(g, cfg) && IsSquare(b, cfg.n) && cfg.maxDepth >= 1
    ensures var r := Search(g, b, cfg.maxDepth, alpha, beta, true, start).1;
      r == start || (InBounds(cfg.n, r) && At(b, r) == EMPTY)
  {
    RootBestIsSearched(g, b, alpha, beta, start);
    assert g.order(b, true) == Candidates(cfg, b, true);
  }

  // ---------------------------------------------------------------------
  // The searcher
  // ---------------------------------------------------------------------

  /**
   * What a thinking notification carries: a board-sized grid of scores,
   * the best move so far, the cells under consideration, the search depth
   * and the iteration number.
   */
  datatype ThinkingData = ThinkingData(scores: seq<seq<XReal>>, bestMove: Pos, consideringMoves: seq<Pos>, depth: nat, iteration: nat)

  /** np.zeros((n, n)). */
  function ZeroGrid(n: nat): seq<seq<XReal>>
  {
    seq(n, i => seq(n, j => Fin(0.0)))
  }

  /** The zero grid with v written at each of the given cells. */
  function Painted(n: nat, cells: seq<Pos>, v: XReal): (g: seq<seq<XReal>>)
    ensures |g| == n && forall i :: 0 <= i < n ==> |g[i]| == n
    ensures forall i, j :: 0 <= i < n && 0 <= j < n ==> g[i][j] == if (i, j) in cells then v else Fin(0.0)
  {
    seq(n, i => seq(n, j => if (i, j) in cells then v else Fin(0.0)))
  }

  lemma PaintedNothing(n: nat, v: XReal)
    ensures Painted(n, [], v) == ZeroGrid(n)
  {
    assert forall i :: 0 <= i < n ==> Painted(n, [], v)[i] == ZeroGrid(n)[i];
  }

  /** Writing v at one more cell. */
  lemma PaintStep(n: nat, cells: seq<Pos>, k: nat, v: XReal)
    requires k < |cells| && InBounds(n, cells[k])
    ensures var g := Painted(n, cells[..k], v); var (x, y) := cells[k];
      Painted(n, cells[..k + 1], v) == g[x := g[x][y := v]]
  {
    var g := Painted(n, cells[..k], v);
    var (x, y) := cells[k];
    var h := g[x := g[x][y := v]];
    var g' := Painted(n, cells[..k + 1], v);
    assert cells[..k + 1] == cells[..k] + [cells[k]];
    forall i | 0 <= i < n ensures g'[i] == h[i] {
      assert forall j :: 0 <= j < n ==> g'[i][j] == h[i][j];
    }
  }

  /** The data move() announces first: zero scores, the centre, no cells, the depth, iteration 0. */
  function InitialData(n: nat, depth: nat): ThinkingData
  {
    ThinkingData(ZeroGrid(n), (n / 2, n / 2), [], depth, 0)
  }

  /**
   * The data move() announces after a search: the first ten empty cells
   * each scored with twenty times the evaluation of the whole board, the
   * recorded best move, and the first five of those cells.
   */
  function FinalData(cfg: Config, b: Board, best: Pos): ThinkingData
    requires IsSquare(b, cfg.n)
  {
    var cells := Take(EmptyCells(b, cfg.n), 10);
    InitialData(cfg.n, cfg.maxDepth).(scores := Painted(cfg.n, cells, Scale(Eval(cfg, b, cfg.color), 20.0)),
                                      bestMove := best, consideringMoves := Take(cells, 5))
  }

  /** The cache holds only true native move scores of colour key.3 at (key.1, key.2) on board key.0. */
  ghost predicate CacheSound(cache: map<(Board, int, int, int), real>, n: nat)
  {
    forall key :: key in cache ==>
      IsSquare(key.0, n) && InBounds(n, (key.1, key.2))
      && cache[key] == GobangCore.MoveScore(key.0, n, (key.1, key.2), key.3, EvalWeights()) as real
  }

  class MinimaxAI {
    const color: int
    const opponentColor: int
    const level: string
    const boardSize: nat
    const useCpp: bool
    const maxDepth: nat
    const alpha: XReal
    const beta: XReal
    var bestMove: Pos
    var evalCache: map<(Board, int, int, int), real>
    var thinkingCallback: Option<nat>
    /** The notifications delivered so far, in order. */
    var notified: seq<Notification<ThinkingData>>

    ghost predicate Valid()
      reads this
    {
      3 <= maxDepth <= 6 && CacheSound(evalCache, boardSize)
    }

    /** The settings the search depends on. */
    function Cfg(): Config
    {
      Config(color, opponentColor, boardSize, useCpp, maxDepth)
    }

    /** A searcher for colour color at the given level on boards of the configured size. */
    constructor (color: int, level: string, useCpp: bool, boardSize: nat)
      ensures Valid()
      ensures this.color == color && this.level == level && this.useCpp == useCpp && this.boardSize == boardSize
      ensures opponentColor == OpponentColor(color) && maxDepth == GetMaxDepth(level)
      ensures alpha == NegInf && beta == PosInf
      ensures bestMove == (0, 0) && evalCache == map[] && thinkingCallback == None && notified == []
    {
      this.color := color;
      this.opponentColor := OpponentColor(color);
      this.level := level;
      this.boardSize := boardSize;
      this.useCpp := useCpp;
      this.maxDepth := GetMaxDepth(level);
      this.alpha := NegInf;
      this.beta := PosInf;
      this.bestMove := (0, 0);
      this.evalCache := map[];
      this.thinkingCallback := None;
      this.notified := [];
    }

    /** _notify_thinking: delivered to the callback when one is set. */
    method Notify(data: ThinkingData)
      modifies this`notified
      ensures notified == old(notified) + NotifyThinking(thinkingCallback, data)
    {
      notified := notified + NotifyThinking(thinkingCallback, data);
    }

    /** _simulate_move: a fresh copy of the board with c at (x, y), every other cell as before. */
    method SimulateMove(b: Board, x: int, y: int, c: int) returns (nb: Board)
      requires 0 <= x < |b| && 0 <= y < |b[x]|
      ensures |nb| == |b| && (forall i :: 0 <= i < |b| ==> |nb[i]| == |b[i]|)
      ensures nb[x][y] == c
      ensures forall i, j :: 0 <= i < |b| && 0 <= j < |b[i]| && (i, j) != (x, y) ==> nb[i][j] == b[i][j]
      ensures nb == Set(b, (x, y), c)
    {
      var row := b[x];
      row := row[y := c];
      nb := b[x := row];
    }

    /** _calc_pos_score: the four direction scans, each scored by the table and summed. */
    method CalcPosScore(b: Board, x: int, y: int, c: int) returns (score: real)
      requires IsSquare(b, boardSize)
      ensures score == PosScore(b, boardSize, (x, y), c)
    {
      score := 0.0;
      for i := 0 to 4
        invariant score == PosScoreUpTo(b, boardSize, (x, y), c, i)
      {
        var dx, dy := Dirs()[i].0, Dirs()[i].1;
        var count, blocked := Evaluator.ScanDirection(b, boardSize, x, y, c, dx, dy);
        Evaluator.Neighbours(b, boardSize, x, y, c, dx, dy);
        score := score + PosTable(count, blocked);
      }
    }

    /** _python_evaluate: own stones' position scores minus the opponent's. */
    method PythonEvaluate(b: Board, c: int) returns (score: real)
      requires IsSquare(b, boardSize)
      ensures score == PyEval(boardSize, opponentColor, b, c)
    {
      score := 0.0;
      for x := 0 to boardSize
        invariant score == PyBefore(boardSize, opponentColor, b, c, x, 0)
      {
        for y := 0 to boardSize
          invariant score == PyBefore(boardSize, opponentColor, b, c, x, y)
        {
          if b[x][y] == c {
            var s := CalcPosScore(b, x, y, c);
            score := score + s;
          } else if b[x][y] == opponentColor {
            var s := CalcPosScore(b, x, y, opponentColor);
            score := score - s;
          }
        }
      }
    }

    /** One cell of the native _evaluate: the cached score, or the native one stored in the cache. */
    method CachedScore(b: Board, x: int, y: int, c: int) returns (score: real)
      requires Valid() && IsSquare(b, boardSize) && InBounds(boardSize, (x, y))
      modifies this`evalCache
      ensures Valid() && old(evalCache).Keys <= evalCache.Keys
      ensures score == GobangCore.MoveScore(b, boardSize, (x, y), c, EvalWeights()) as real
    {
      var key := (b, x, y, c);
      if key in evalCache {
        score := evalCache[key];
      } else {
        var s := GobangCore.EvaluateMove(b, boardSize, x, y, c, EvalWeights());
        score := s as real;
        evalCache := evalCache[key := score];
      }
    }

    /** _evaluate: the native path with its cache, or the Python path. */
    method Evaluate(b: Board, c: int) returns (r: XReal)
      requires Valid() && IsSquare(b, boardSize)
      modifies this`evalCache
      ensures Valid()
      ensures r == Eval(Cfg(), b, c)
    {
      if useCpp {
        r := NativeEvaluate(b, c);
      } else {
        var s := PythonEvaluate(b, c);
        r := Fin(s);
      }
    }

    /** The native branch of _evaluate: the best cached native score among the first ten empty cells. */
    method NativeEvaluate(b: Board, c: int) returns (r: XReal)
      requires Valid() && IsSquare(b, boardSize)
      modifies this`evalCache
      ensures Valid() && old(evalCache).Keys <= evalCache.Keys
      ensures r == NativeEval(b, boardSize, c)
    {
      var empties := CollectEmpty(b, boardSize);
      var cells := Take(empties, 10);
      r := NegInf;
      ghost var scores: seq<XReal> := [];
      for k := 0 to |cells|
        invariant Valid() && old(evalCache).Keys <= evalCache.Keys
        invariant scores == NativeScores(b, boardSize, c, cells[..k]) && r == XMaxOf(scores)
      {
        var score := CachedScore(b, cells[k].0, cells[k].1, c);
        NativeScoresSnoc(b, boardSize, c, cells, k);
        XMaxOfSnoc(scores, Fin(score));
        scores := scores + [Fin(score)];
        if Less(r, Fin(score)) {
          r := Fin(score);
        }
      }
      assert cells[..|cells|] == cells;
    }

    /** The sort of one level: every empty cell keyed by the evaluation after the mover plays it. */
    method OrderedMoves(b: Board, isMax: bool) returns (moves: seq<Pos>)
      requires Valid() && IsSquare(b, boardSize)
      modifies this`evalCache
      ensures Valid()
      ensures moves == Candidates(Cfg(), b, isMax)
    {
      var empties := CollectEmpty(b, boardSize);
      var mover := if isMax then color else opponentColor;
      var keyed: seq<(XReal, Pos)> := [];
      for k := 0 to |empties|
        invariant Valid()
        invariant keyed == Keyed(Cfg(), b, empties[..k], mover)
      {
        assert empties[k] in EmptyCells(b, boardSize);
        var child := SimulateMove(b, empties[k].0, empties[k].1, mover);
        var key := Evaluate(child, color);
        keyed := keyed + [(key, empties[k])];
      }
      assert empties[..|empties|] == empties;
      moves := Take(Items(SortBy(keyed, isMax)), 15);
    }

    /**
     * _minimax: the value of the position and, through bestMove, the move
     * the root level records; both as Search computes them.
     */
    method Minimax(ghost g: Game, b: Board, depth: nat, alpha: XReal, beta: XReal, isMax: bool) returns (r: XReal)
      requires Valid() && Agrees(g, Cfg()) && IsSquare(b, boardSize)
      modifies this`evalCache, this`bestMove
      ensures Valid()
      ensures (r, bestMove) == Search(g, b, depth, alpha, beta, isMax, old(bestMove))
      decreases depth, 2
    {
      assert g.won(b, isMax) == IsWin(b, boardSize, Mover(Cfg(), isMax)).0;
      var win := IsWin(b, boardSize, if isMax then color else opponentColor);
      if win.0 {
        return WinValue(depth, isMax);
      }
      if depth == 0 {
        assert g.leaf(b) == Eval(Cfg(), b, color);
        r := Evaluate(b, color);
        return;
      }
      var moves := OrderedMoves(b, isMax);
      assert g.order(b, isMax) == moves;
      r := SearchMoves(g, b, depth, moves, alpha, beta, isMax);
    }

    /** _minimax's loop over the ordered cells of one level, stopping once the window closes. */
    method SearchMoves(ghost g: Game, b: Board, depth: nat, moves: seq<Pos>, alpha: XReal, beta: XReal, isMax: bool)
      returns (r: XReal)
      requires Valid() && IsSquare(b, boardSize) && depth >= 1
      requires forall j :: 0 <= j < |moves| ==> InBounds(boardSize, moves[j])
      requires Agrees(g, Cfg())
      modifies this`evalCache, this`bestMove
      ensures Valid()
      ensures (r, bestMove) == SearchLoop(g, b, depth, moves, 0, alpha, beta, isMax, if isMax then NegInf else PosInf, old(bestMove))
      decreases depth, 1
    {
      ghost var target := SearchLoop(g, b, depth, moves, 0, alpha, beta, isMax, if isMax then NegInf else PosInf, bestMove);
      var a, bt := alpha, beta;
      r := if isMax then NegInf else PosInf;
      var k := 0;
      while k < |moves|
        invariant Valid() && k <= |moves|
        invariant SearchLoop(g, b, depth, moves, k, a, bt, isMax, r, bestMove) == target
        decreases |moves| - k
      {
        var s := SearchChild(g, b, depth, moves[k], a, bt, isMax);
        var stop;
        r, a, bt, stop := Fold(isMax, depth, moves[k], a, bt, r, s);
        if stop {
          return;
        }
        k := k + 1;
      }
    }

    /** The child of one pass of _minimax's loop: the board after the mover plays move, searched one level down. */
    method SearchChild(ghost g: Game, b: Board, depth: nat, move: Pos, a: XReal, bt: XReal, isMax: bool) returns (s: XReal)
      requires Valid() && IsSquare(b, boardSize) && depth >= 1 && InBounds(boardSize, move)
      requires Agrees(g, Cfg())
      modifies this`evalCache, this`bestMove
      ensures Valid()
      ensures (s, bestMove) == Search(g, g.play(b, move, isMax), depth - 1, a, bt, !isMax, old(bestMove))
      decreases depth, 0
    {
      var mover := if isMax then color else opponentColor;
      var child := SimulateMove(b, move.0, move.1, mover);
      assert child == g.play(b, move, isMax);
      SetKeepsSquare(b, boardSize, move, mover);
      s := Minimax(g, child, depth - 1, a, bt, !isMax);
    }

    /**
     * The rest of one pass of _minimax's loop, once the child's value s is
     * known: the best score, the recorded move and the window are updated
     * as Advance says, and stop tells whether the loop breaks.
     */
    method Fold(isMax: bool, depth: nat, move: Pos, a: XReal, bt: XReal, score: XReal, s: XReal)
      returns (score': XReal, a': XReal, bt': XReal, stop: bool)
      modifies this`bestMove
      ensures Window(score', a', bt', bestMove, stop) == Advance(isMax, depth == maxDepth, move, a, bt, score, s, old(bestMove))
    {
      a', bt' := a, bt;
      if isMax {
        score' := score;
        if Less(score, s) {
          score' := s;
          if depth == maxDepth {
            bestMove := move;
          }
        }
        a' := Max(a, score');
        stop := LessEq(bt, a');
      } else {
        score' := if Less(s, score) then s else score;
        bt' := Min(bt, score');
        stop := LessEq(bt', a);
      }
    }

    /** The start of move(): take the callback, clear the cache, default to the centre, announce the initial data. */
    method BeginMove(callback: Option<nat>) returns (d: ThinkingData)
      requires Valid()
      modifies this`evalCache, this`bestMove, this`thinkingCallback, this`notified
      ensures Valid() && thinkingCallback == callback && evalCache == map[]
      ensures bestMove == (boardSize / 2, boardSize / 2) && d == InitialData(boardSize, maxDepth)
      ensures notified == old(notified) + NotifyThinking(callback, d)
    {
      thinkingCallback := callback;
      evalCache := map[];
      bestMove := (boardSize / 2, boardSize / 2);
      d := ThinkingData(ZeroGrid(boardSize), bestMove, [], maxDepth, 0);
      Notify(d);
    }

    /** The score grid of move(): each given cell holds twenty times the evaluation of the whole board. */
    method ScoreGrid(b: Board, cells: seq<Pos>) returns (grid: seq<seq<XReal>>)
      requires Valid() && IsSquare(b, boardSize)
      requires forall k :: 0 <= k < |cells| ==> InBounds(boardSize, cells[k])
      modifies this`evalCache
      ensures Valid() && grid == Painted(boardSize, cells, Scale(Eval(Cfg(), b, color), 20.0))
    {
      grid := ZeroGrid(boardSize);
      ghost var v := Scale(Eval(Cfg(), b, color), 20.0);
      PaintedNothing(boardSize, v);
      for k := 0 to |cells|
        invariant Valid() && grid == Painted(boardSize, cells[..k], v)
      {
        var e := Evaluate(b, color);
        PaintStep(boardSize, cells, k, v);
        grid := grid[cells[k].0 := grid[cells[k].0][cells[k].1 := Scale(e, 20.0)]];
      }
      assert cells[..|cells|] == cells;
    }

    /**
     * The rest of move() when no immediate win is taken: the full-depth
     * search from the root, the score grid of the first ten empty cells,
     * and the final announcement; the result is the recorded best move.
     */
    method SearchAndReport(b: Board) returns (r: Pos)
      requires Valid() && IsSquare(b, boardSize)
      modifies this`evalCache, this`bestMove, this`notified
      ensures Valid() && r == bestMove
      ensures r == Search(MinimaxGame(Cfg()), b, maxDepth, alpha, beta, true, old(bestMove)).1
      ensures notified == old(notified) + NotifyThinking(thinkingCallback, FinalData(Cfg(), b, r))
    {
      MinimaxGameAgrees(Cfg());
      var score := Minimax(MinimaxGame(Cfg()), b, maxDepth, alpha, beta, true);
      var empties := CollectEmpty(b, boardSize);
      var cells := Take(empties, 10);
      assert forall k :: 0 <= k < |cells| ==> cells[k] in EmptyCells(b, boardSize);
      var grid := ScoreGrid(b, cells);
      Notify(ThinkingData(grid, bestMove, Take(cells, 5), maxDepth, 0));
      r := bestMove;
    }

    /**
     * move() as written: with the native core it returns whatever
     * find_winning_move answers, because the answer is a pair and a pair
     * is always true in a test; (-1, -1), the native "no winning move",
     * comes back as the move, as it does on the empty board.
     */
    method Move(b: Board, callback: Option<nat>) returns (r: Pos)
      requires Valid() && IsSquare(b, boardSize)
      modifies this`evalCache, this`bestMove, this`thinkingCallback, this`notified
      ensures Valid() && thinkingCallback == callback
      ensures useCpp ==> (r == (-1, -1) <==> forall p :: InBounds(boardSize, p) ==> !GobangCore.WinsAt(b, boardSize, p, color))
      ensures useCpp && r != (-1, -1) ==> GobangCore.WinsAt(b, boardSize, r, color)
      ensures useCpp && b == EmptyBoard(boardSize) ==> r == (-1, -1)
      ensures useCpp ==> notified == old(notified) + NotifyThinking(callback, InitialData(boardSize, maxDepth))
                                    + NotifyThinking(callback, InitialData(boardSize, maxDepth).(bestMove := r))
      ensures !useCpp ==> r == Search(MinimaxGame(Cfg()), b, maxDepth, alpha, beta, true, (boardSize / 2, boardSize / 2)).1
      ensures !useCpp ==> notified == old(notified) + NotifyThinking(callback, InitialData(boardSize, maxDepth))
                                     + NotifyThinking(callback, FinalData(Cfg(), b, r))
    {
      var d := BeginMove(callback);
      if useCpp {
        var winning := GobangCore.FindWinningMove(b, boardSize, color);
        GobangCore.NoWinOnEmptyBoard(boardSize, color);
        Notify(d.(bestMove := winning));
        return winning;
      }
      r := SearchAndReport(b);
    }

    /**
     * move() as evidently intended: a native answer of (-1, -1) means no
     * immediate win, and the search runs.  The move is then an immediate
     * win when one exists (the first in row-major order), and otherwise
     * the root's recorded move, which is the centre or an empty cell.
     */
    method MoveIntended(b: Board, callback: Option<nat>) returns (r: Pos)
      requires Valid() && IsSquare(b, boardSize)
      modifies this`evalCache, this`bestMove, this`thinkingCallback, this`notified
      ensures Valid() && thinkingCallback == callback
      ensures r == (boardSize / 2, boardSize / 2) || (InBounds(boardSize, r) && At(b, r) == EMPTY)
      ensures useCpp && (exists p :: InBounds(boardSize, p) && GobangCore.WinsAt(b, boardSize, p, color)) ==>
        && GobangCore.WinsAt(b, boardSize, r, color)
        && (forall p :: InBounds(boardSize, p) && RowMajorBefore(p, r) ==> !GobangCore.WinsAt(b, boardSize, p, color))
        && notified == old(notified) + NotifyThinking(callback, InitialData(boardSize, maxDepth))
                       + NotifyThinking(callback, InitialData(boardSize, maxDepth).(bestMove := r))
      ensures (!useCpp || forall p :: InBounds(boardSize, p) ==> !GobangCore.WinsAt(b, boardSize, p, color)) ==>
        && r == Search(MinimaxGame(Cfg()), b, maxDepth, alpha, beta, true, (boardSize / 2, boardSize / 2)).1
        && notified == old(notified) + NotifyThinking(callback, InitialData(boardSize, maxDepth))
                       + NotifyThinking(callback, FinalData(Cfg(), b, r))
    {
      var d := BeginMove(callback);
      if useCpp {
        var winning := GobangCore.FindWinningMove(b, boardSize, color);
        if winning != (-1, -1) {
          Notify(d.(bestMove := winning));
          return winning;
        }
      }
      MinimaxGameAgrees(Cfg());
      RootBestIsEmptyCell(MinimaxGame(Cfg()), Cfg(), b, alpha, beta, bestMove);
      r := SearchAndReport(b);
    }
  }
}
