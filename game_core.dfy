/**
 * The game session: the board, the move history, whose turn it is and
 * whether a game is running, as reset and each placement update them; the
 * checks an AI move must pass; and the statistics of the training-mode
 * replay report (average, best and worst quality, pattern distribution).
 *
 * The rule engine's validate_move and check_game_end always dispatch to
 * the native core, so a placement is validated by the native rules
 * (position, occupied, player id; no turn-parity rule) and the game end is
 * the native scan.  The game-end listener, which the session registers on
 * itself, deactivates the game as part of the placement that ends it.
 */
module GameCore {
  import opened Wrappers
  import opened Constants
  import opened Boards
  import opened Windows
  import RuleEngine
  import GobangCore
  import Seqs
  import opened Evaluator

  /** One history entry: the move, who made it and the review of it. */
  datatype MoveRecord = MoveRecord(
    x: int, y: int, color: int, isAi: bool, timestamp: real,
    score: real, quality: real, pattern: Pattern)

  datatype GameResult = GameResult(winner: string, winLine: seq<Pos>, moveCount: nat)

  /** The events the session publishes, in order. */
  datatype GameEvent = MoveMade(move: MoveRecord) | GameEnded(result: GameResult)

  /** The observable session state. */
  datatype Session = Session(
    board: Board, moveHistory: seq<MoveRecord>, gameActive: bool, currentPlayer: int,
    gameResult: Option<GameResult>, emitted: seq<GameEvent>)

  /** The result's winner name: black, else white for any other stone, else a draw. */
  function WinnerName(w: int): (s: string)
    ensures s == "draw" <==> w == EMPTY
    ensures s == "black" <==> w == BLACK
  {
    if w == BLACK then "black" else if w != EMPTY then "white" else "draw"
  }

  /** The history entry for colour c at (x, y), reviewed on the board after the move. */
  function Review(e: BoardEvaluator, b: Board, x: int, y: int, c: int, isAi: bool, now: real): (rec: MoveRecord)
    requires e.Valid() && IsSquare(b, e.boardSize) && InBounds(e.boardSize, (x, y))
    ensures rec.x == x && rec.y == y && rec.color == c && rec.isAi == isAi && rec.timestamp == now
    ensures rec.quality <= 100.0
  {
    var score := MoveValue(e, b, (x, y), c);
    MoveRecord(x, y, c, isAi, now, score,
      Quality(score, BestOf(e, b, c, EmptyCells(b, e.boardSize), (x, y)).1),
      Recognized(e, b, (x, y), c).0)
  }

  /** analyze_move_quality on the board after the move, kept as the move's history entry. */
  method ReviewMove(e: BoardEvaluator, b: Board, x: int, y: int, c: int, isAi: bool, now: real) returns (rec: MoveRecord)
    requires e.Valid() && IsSquare(b, e.boardSize) && InBounds(e.boardSize, (x, y))
    ensures rec == Review(e, b, x, y, c, isAi, now)
  {
    var evalResult := Evaluator.AnalyzeMoveQuality(e, b, x, y, c);
    rec := MoveRecord(x, y, c, isAi, now, evalResult.score, evalResult.quality, evalResult.pattern);
  }

  /**
   * place_piece on a session: refused when no game is running, refused
   * with the reason the C++ core's validate_move writes for an illegal
   * move (the ctypes wrapper as written raises when it reads that reason
   * instead of returning it; the core's answer is modelled); otherwise the stone
   * goes down, the move is reviewed and recorded, and either the game ends
   * (result recorded, game inactive, the mover stays the current player)
   * or the turn passes to the other colour.
   */
  function Place(e: BoardEvaluator, n: nat, s: Session, x: int, y: int, isAi: bool, now: real): (r: (Session, string))
    requires e.Valid() && e.boardSize == n && IsSquare(s.board, n)
    ensures s.moveHistory <= r.0.moveHistory && |r.0.moveHistory| <= |s.moveHistory| + 1
    ensures r.0.moveHistory == s.moveHistory ==> r.0 == s
  {
    if !s.gameActive then (s, "game_not_active")
    else
      var v := GobangCore.ValidateMove(s.board, n, x, y, s.currentPlayer);
      if !v.0 then (s, v.1)
      else
        var b := Set(s.board, (x, y), s.currentPlayer);
        Commit(s, b, Review(e, b, x, y, s.currentPlayer, isAi, now), GameEnd(b, n, NativeScans(n)))
  }

  /**
   * The rest of an accepted placement, given the new board, the move's
   * history entry and the game-end check of the new board.
   */
  function Commit(s: Session, b: Board, rec: MoveRecord, end: GameEndResult): (r: (Session, string))
    ensures r.0.gameActive <==> !end.isEnd
    ensures s.emitted < r.0.emitted && |r.0.emitted| == |s.emitted| + (if end.isEnd then 2 else 1)
  {
    var h := s.moveHistory + [rec];
    if end.isEnd then
      var res := GameResult(WinnerName(end.winner), end.winLine, |h|);
      (Session(b, h, false, s.currentPlayer, Some(res), s.emitted + [MoveMade(rec), GameEnded(res)]), "game_end")
    else
      (Session(b, h, true, OpponentColor(s.currentPlayer), s.gameResult, s.emitted + [MoveMade(rec)]), "success")
  }

  /** Every recorded move is on the board and is a black or white stone. */
  predicate MovesOnBoard(n: nat, h: seq<MoveRecord>)
  {
    forall i :: 0 <= i < |h| ==> InBounds(n, (h[i].x, h[i].y)) && (h[i].color == BLACK || h[i].color == WHITE)
  }

  /** The board the history builds from an empty board. */
  function Replay(n: nat, h: seq<MoveRecord>): (b: Board)
    requires MovesOnBoard(n, h)
    ensures IsSquare(b, n)
  {
    if |h| == 0 then EmptyBoard(n)
    else
      var m := h[|h| - 1];
      Set(Replay(n, h[..|h| - 1]), (m.x, m.y), m.color)
  }

  /** Black to move with equal counts, or white to move one stone behind. */
  predicate Parity(b: Board, player: int)
  {
    || (player == BLACK && CountColor(b, BLACK) == CountColor(b, WHITE))
    || (player == WHITE && CountColor(b, BLACK) == CountColor(b, WHITE) + 1)
  }

  /**
   * What every reachable session satisfies: the board is the replay of the
   * history, one stone per history entry, the player to move is a colour,
   * and while a game runs the turn matches the stone counts and the board
   * holds no five.
   */
  ghost predicate Consistent(n: nat, s: Session)
  {
    && MovesOnBoard(n, s.moveHistory)
    && s.board == Replay(n, s.moveHistory)
    && CountColor(s.board, BLACK) + CountColor(s.board, WHITE) == |s.moveHistory|
    && (s.currentPlayer == BLACK || s.currentPlayer == WHITE)
    && (s.gameActive ==> Parity(s.board, s.currentPlayer) && NoFive(s.board, n, NativeScans(n)))
  }

  /** The session reset_game leaves. */
  function Fresh(n: nat, emitted: seq<GameEvent>): Session
  {
    Session(EmptyBoard(n), [], true, BLACK, None, emitted)
  }

  /** A stone of colour d is on the empty board nowhere. */
  lemma {:induction false} CountColorEmptyBoard(n: nat, d: int)
    requires d != EMPTY
    ensures CountColor(EmptyBoard(n), d) == 0
  {
    var b := EmptyBoard(n);
    if n > 0 {
      assert CountRow(b[|b| - 1], d) == 0 by { CountRowEmpty(b[|b| - 1], d); }
      assert b[..|b| - 1] == EmptyRows(n - 1, n);
      CountColorEmptyRows(n - 1, n, d);
    }
  }

  function EmptyRows(k: nat, n: nat): (b: Board)
    ensures |b| == k && forall i :: 0 <= i < k ==> b[i] == seq(n, j => EMPTY)
  {
    seq(k, i => seq(n, j => EMPTY))
  }

  lemma {:induction false} CountRowEmpty(row: seq<int>, d: int)
    requires d != EMPTY && forall j :: 0 <= j < |row| ==> row[j] == EMPTY
    ensures CountRow(row, d) == 0
  {
    if |row| > 0 {
      CountRowEmpty(row[..|row| - 1], d);
    }
  }

  lemma {:induction false} CountColorEmptyRows(k: nat, n: nat, d: int)
    requires d != EMPTY
    ensures CountColor(EmptyRows(k, n), d) == 0
  {
    var b := EmptyRows(k, n);
    if k > 0 {
      CountRowEmpty(b[k - 1], d);
      assert b[..k - 1] == EmptyRows(k - 1, n);
      CountColorEmptyRows(k - 1, n, d);
    }
  }

  /** No window of the empty board holds five stones. */
  lemma EmptyBoardNoFive(n: nat)
    ensures NoFive(EmptyBoard(n), n, NativeScans(n))
  {
    var b := EmptyBoard(n);
    forall m, a, c | 0 <= m < 4 && InRange(NativeScans(n)[m], a, c)
      ensures !FiveIn(b, n, NativeScans(n)[m], a, c)
    {
      var q := StartOf(NativeScans(n)[m], a, c);
      if InBounds(n, q) {
        assert At(b, q) == EMPTY;
      }
    }
  }

  /** reset_game yields a consistent session with black to move on an empty board. */
  lemma FreshConsistent(n: nat, emitted: seq<GameEvent>)
    ensures Consistent(n, Fresh(n, emitted))
  {
    CountColorEmptyBoard(n, BLACK);
    CountColorEmptyBoard(n, WHITE);
    EmptyBoardNoFive(n);
  }

  /** A five of another colour than the new stone was already on the board before it. */
  lemma FiveWithoutStone(b: Board, n: nat, p: Pos, c: int, q: Pos, di: int, dj: int)
    requires IsSquare(b, n) && InBounds(n, p)
    requires FiveAt(Set(b, p, c), n, q, di, dj) && At(Set(b, p, c), q) != c
    ensures FiveAt(b, n, q, di, dj)
  {
    var b1 := Set(b, p, c);
    forall k | 0 <= k < 5
      ensures At(b, Along(q, di, dj, k)) == At(b, q)
    {
      assert At(b1, Along(q, di, dj, k)) == At(b1, q);
    }
  }

  /**
   * A five that appears when colour c is placed on a board without one
   * runs through the new stone, so its colour is c.
   */
  lemma NewFiveIsMovers(b: Board, n: nat, p: Pos, c: int)
    requires IsSquare(b, n) && InBounds(n, p) && c != EMPTY
    requires NoFive(b, n, NativeScans(n))
    ensures GameEnd(Set(b, p, c), n, NativeScans(n)).winner == EMPTY
         || GameEnd(Set(b, p, c), n, NativeScans(n)).winner == c
  {
    var b1 := Set(b, p, c);
    var scans := NativeScans(n);
    var r := GameEnd(b1, n, scans);
    GameEndWinner(b1, n, scans);
    if r.winner != EMPTY && r.winner != c {
      var m, a, e :| 0 <= m < |scans| && InRange(scans[m], a, e)
        && FiveIn(b1, n, scans[m], a, e)
        && r.winLine == Line(StartOf(scans[m], a, e), scans[m].di, scans[m].dj);
      var q := StartOf(scans[m], a, e);
      assert r.winLine[0] == q;
      FiveWithoutStone(b, n, p, c, q, scans[m].di, scans[m].dj);
    }
  }

  /** Every placement keeps the session consistent. */
  lemma {:induction false} PlacePreserves(e: BoardEvaluator, n: nat, s: Session, x: int, y: int, isAi: bool, now: real)
    requires e.Valid() && e.boardSize == n && Consistent(n, s)
    ensures Consistent(n, Place(e, n, s, x, y, isAi, now).0)
  {
    if s.gameActive && GobangCore.ValidateMove(s.board, n, x, y, s.currentPlayer).0 {
      var b := Set(s.board, (x, y), s.currentPlayer);
      var rec := Review(e, b, x, y, s.currentPlayer, isAi, now);
      var end := GameEnd(b, n, NativeScans(n));
      assert Place(e, n, s, x, y, isAi, now) == Commit(s, b, rec, end);
      GameEndWinner(b, n, NativeScans(n));
      GameEndNoWinner(b, n, NativeScans(n));
      CommitPreserves(n, s, b, rec, end);
    }
  }

  /** Recording a legal move for the player to move keeps a running session consistent. */
  lemma {:induction false} CommitPreserves(n: nat, s: Session, b: Board, rec: MoveRecord, end: GameEndResult)
    requires Consistent(n, s) && s.gameActive
    requires InBounds(n, (rec.x, rec.y)) && At(s.board, (rec.x, rec.y)) == EMPTY && rec.color == s.currentPlayer
    requires b == Set(s.board, (rec.x, rec.y), rec.color)
    requires !end.isEnd ==> NoFive(b, n, NativeScans(n))
    ensures Consistent(n, Commit(s, b, rec, end).0)
  {
    var r := Commit(s, b, rec, end).0;
    var h := r.moveHistory;
    assert h[..|h| - 1] == s.moveHistory;
    assert Replay(n, h) == b;
    CountColorWrite(s.board, (rec.x, rec.y), rec.color, BLACK);
    CountColorWrite(s.board, (rec.x, rec.y), rec.color, WHITE);
  }

  /** The player to move is a black or white stone on a board of the session's size. */
  predicate Placeable(e: BoardEvaluator, n: nat, s: Session)
  {
    e.Valid() && e.boardSize == n && IsSquare(s.board, n) && (s.currentPlayer == BLACK || s.currentPlayer == WHITE)
  }

  /**
   * place_piece refuses without any change when no game runs, when the
   * cell is off the board and when it is occupied; it accepts every other
   * move.
   */
  lemma PlaceRefusals(e: BoardEvaluator, n: nat, s: Session, x: int, y: int, isAi: bool, now: real)
    requires Placeable(e, n, s)
    ensures var (s1, r) := Place(e, n, s, x, y, isAi, now);
      && (!s.gameActive ==> s1 == s && r == "game_not_active")
      && (s.gameActive && !InBounds(n, (x, y)) ==> s1 == s && r == "invalid_position")
      && (s.gameActive && InBounds(n, (x, y)) && At(s.board, (x, y)) != EMPTY ==> s1 == s && r == "occupied")
      && ((r == "success" || r == "game_end") <==> s.gameActive && InBounds(n, (x, y)) && At(s.board, (x, y)) == EMPTY)
  {
  }

  /**
   * An accepted move is recorded by Commit with the mover's stone added,
   * the move reviewed on the new board and the native game-end check of
   * the new board.
   */
  lemma PlaceAccepted(e: BoardEvaluator, n: nat, s: Session, x: int, y: int, isAi: bool, now: real)
    requires Placeable(e, n, s) && s.gameActive && InBounds(n, (x, y)) && At(s.board, (x, y)) == EMPTY
    ensures var b := Set(s.board, (x, y), s.currentPlayer);
      Place(e, n, s, x, y, isAi, now)
        == Commit(s, b, Review(e, b, x, y, s.currentPlayer, isAi, now), GameEnd(b, n, NativeScans(n)))
  {
  }

  /**
   * Recording a move stores the new board, appends exactly one history
   * entry and announces it; then either the game ends (inactive, the mover
   * still current, the result with the full move count announced after
   * the move) or it goes on with the turn passed to the other colour and
   * the result untouched.
   */
  lemma CommitSpec(s: Session, b: Board, rec: MoveRecord, end: GameEndResult)
    ensures var (s1, r) := Commit(s, b, rec, end);
      && s1.board == b && s1.moveHistory == s.moveHistory + [rec]
      && (r == "game_end" <==> end.isEnd) && (r == "success" <==> !end.isEnd)
      && (end.isEnd ==>
            && !s1.gameActive && s1.currentPlayer == s.currentPlayer
            && s1.gameResult == Some(GameResult(WinnerName(end.winner), end.winLine, |s.moveHistory| + 1))
            && s1.emitted == s.emitted + [MoveMade(rec), GameEnded(s1.gameResult.value)])
      && (!end.isEnd ==>
            && s1.gameActive && s1.currentPlayer == OpponentColor(s.currentPlayer)
            && s1.gameResult == s.gameResult && s1.emitted == s.emitted + [MoveMade(rec)])
  {
  }

  /**
   * The game ends in a win only for the player who just moved, and in a
   * draw only on a full board.
   */
  lemma {:induction false} WinnerIsMover(e: BoardEvaluator, n: nat, s: Session, x: int, y: int, isAi: bool, now: real)
    requires e.Valid() && e.boardSize == n && IsSquare(s.board, n) && Consistent(n, s)
    ensures var p := Place(e, n, s, x, y, isAi, now);
      p.1 == "game_end" ==>
        && p.0.gameResult.Some?
        && (|| p.0.gameResult.value.winner == WinnerName(s.currentPlayer)
            || (p.0.gameResult.value.winner == "draw" && IsFull(p.0.board, n)))
  {
    if s.gameActive && GobangCore.ValidateMove(s.board, n, x, y, s.currentPlayer).0 {
      var b := Set(s.board, (x, y), s.currentPlayer);
      var rec := Review(e, b, x, y, s.currentPlayer, isAi, now);
      var end := GameEnd(b, n, NativeScans(n));
      assert Place(e, n, s, x, y, isAi, now) == Commit(s, b, rec, end);
      CommitSpec(s, b, rec, end);
      NewFiveIsMovers(s.board, n, (x, y), s.currentPlayer);
      GameEndNoWinner(b, n, NativeScans(n));
    }
  }

  /**
   * Within a running game the rule engine's own fallback rules, which add
   * the turn-parity rule, give the same answer as the native rules: the
   * session's turn always agrees with the stone counts.
   */
  lemma {:induction false} FallbackAgrees(n: nat, s: Session, x: int, y: int)
    requires Consistent(n, s) && s.gameActive
    ensures RuleEngine.ValidateMove(s.board, n, x, y, s.currentPlayer).reason
         == GobangCore.ValidateMove(s.board, n, x, y, s.currentPlayer).1
  {
    var v := RuleEngine.ValidatePlayerTurn(s.board, s.currentPlayer);
    assert v.valid;
  }

  /** The game session. */
  class GameCore {
    const boardSize: nat
    const evaluator: BoardEvaluator
    /** The colour of the attached AI (current_ai.color); None when no AI is attached. */
    var aiColor: Option<int>
    var board: Board
    var moveHistory: seq<MoveRecord>
    var gameActive: bool
    var currentPlayer: int
    var gameResult: Option<GameResult>
    var emitted: seq<GameEvent>
    /** The evaluation cache; the session only ever clears it. */
    var evalCache: map<string, real>

    function Snapshot(): Session
      reads this
    {
      Session(board, moveHistory, gameActive, currentPlayer, gameResult, emitted)
    }

    ghost predicate Valid()
      reads this
    {
      evaluator.Valid() && evaluator.boardSize == boardSize && Consistent(boardSize, Snapshot())
    }

    /** A new session: empty board, no history, no game running, black to move. */
    constructor (e: BoardEvaluator, ai: Option<int>)
      requires e.Valid()
      ensures Valid()
      ensures boardSize == e.boardSize && evaluator == e && aiColor == ai
      ensures board == EmptyBoard(e.boardSize) && moveHistory == [] && !gameActive
      ensures currentPlayer == BLACK && gameResult == None && emitted == [] && evalCache == map[]
    {
      boardSize := e.boardSize;
      evaluator := e;
      aiColor := ai;
      board := EmptyBoard(e.boardSize);
      moveHistory := [];
      gameActive := false;
      currentPlayer := BLACK;
      gameResult := None;
      emitted := [];
      evalCache := map[];
      new;
      CountColorEmptyBoard(boardSize, BLACK);
      CountColorEmptyBoard(boardSize, WHITE);
    }

    /** reset_game: an empty board, no history, a running game with black to move, no result, an empty cache. */
    method ResetGame()
      requires Valid()
      modifies this`board, this`moveHistory, this`gameActive, this`currentPlayer, this`gameResult, this`evalCache
      ensures Valid()
      ensures Snapshot() == Fresh(boardSize, old(emitted))
      ensures evalCache == map[]
    {
      board := EmptyBoard(boardSize);
      moveHistory := [];
      gameActive := true;
      currentPlayer := BLACK;
      gameResult := None;
      evalCache := map[];
      FreshConsistent(boardSize, emitted);
    }

    /** place_piece: the session moves as Place says, and stays consistent. */
    method PlacePiece(x: int, y: int, isAi: bool, now: real) returns (r: string)
      requires Valid()
      modifies this`board, this`moveHistory, this`gameActive, this`currentPlayer, this`gameResult, this`emitted
      ensures Valid()
      ensures (Snapshot(), r) == Place(evaluator, boardSize, old(Snapshot()), x, y, isAi, now)
    {
      PlacePreserves(evaluator, boardSize, Snapshot(), x, y, isAi, now);
      if !gameActive {
        return "game_not_active";
      }
      var (valid, reason) := GobangCore.ValidateMove(board, boardSize, x, y, currentPlayer);
      if !valid {
        return reason;
      }
      var c := currentPlayer;
      var b := GobangCore.PlacePiece(board, boardSize, x, y, c);
      var moveData := ReviewMove(evaluator, b, x, y, c, isAi, now);
      var endResult := GobangCore.CheckGameEnd(b, boardSize);
      assert Place(evaluator, boardSize, Snapshot(), x, y, isAi, now) == Commit(Snapshot(), b, moveData, endResult);
      r := Record(b, moveData, endResult);
    }

    /**
     * The rest of an accepted placement: the new board and the history
     * entry are stored and announced, then the game ends with its result or
     * the turn passes to the other colour.
     */
    method Record(b: Board, moveData: MoveRecord, endResult: GameEndResult) returns (r: string)
      requires gameActive
      modifies this`board, this`moveHistory, this`gameActive, this`currentPlayer, this`gameResult, this`emitted
      ensures (Snapshot(), r) == Commit(old(Snapshot()), b, moveData, endResult)
    {
      board, moveHistory := b, moveHistory + [moveData];
      if endResult.isEnd {
        var result := GameResult(WinnerName(endResult.winner), endResult.winLine, |moveHistory|);
        gameResult, gameActive := Some(result), false;
        emitted := emitted + [MoveMade(moveData), GameEnded(result)];
        r := "game_end";
      } else {
        currentPlayer := if currentPlayer == BLACK then WHITE else BLACK;
        emitted := emitted + [MoveMade(moveData)];
        r := "success";
      }
    }

    /**
     * ai_move with the AI's chosen cell given: refused (error 2002) when no
     * game runs or no AI is attached, refused (error 2003) when it is not the
     * AI's colour to move; otherwise the cell is placed as an AI move and
     * returned.
     */
    method AiMove(choice: Pos, now: real) returns (r: Result<Pos>)
      requires Valid()
      modifies this`board, this`moveHistory, this`gameActive, this`currentPlayer, this`gameResult, this`emitted
      ensures Valid()
      ensures !old(gameActive) || old(aiColor).None? ==> r.Err? && unchanged(this)
      ensures old(gameActive) && old(aiColor).Some? && old(currentPlayer) != old(aiColor).value ==>
        r.Err? && unchanged(this)
      ensures old(gameActive) && old(aiColor) == Some(old(currentPlayer)) ==>
        r == Ok(choice) && Snapshot() == Place(evaluator, boardSize, old(Snapshot()), choice.0, choice.1, true, now).0
      ensures r.Err? <==> !(old(gameActive) && old(aiColor) == Some(old(currentPlayer)))
    {
      if !gameActive || aiColor.None? {
        return Err("AI落子失败：游戏未激活或AI未初始化");
      }
      if currentPlayer != aiColor.value {
        return Err("当前不是AI回合");
      }
      var (x, y) := choice;
      var _ := PlacePiece(x, y, true, now);
      return Ok((x, y));
    }

    /**
     * _generate_replay_report as written: nothing for an empty history.
     * Otherwise the statistics are gathered and then ai_suggestions, which
     * raises at the first move whose quality is below 60 (see
     * AiSuggestionsAsWritten); the error ends the game-end listener, the
     * event manager logs it, and no report is saved.  With no such move the
     * report carries no suggestions.
     */
    method GenerateReplayReport() returns (r: Result<Option<ReplayReport>>)
      requires Valid()
      ensures |moveHistory| == 0 ==> r == Ok(None)
      ensures |moveHistory| > 0 ==> (r.Err? <==> HasLowQuality(moveHistory))
      ensures |moveHistory| > 0 && r.Ok? ==> r == Ok(Some(ReplayOf(moveHistory, [])))
    {
      if |moveHistory| == 0 {
        return Ok(None);
      }
      var qs := Qualities(moveHistory);
      var total := SumQualities(qs);
      var best := FirstMaxOf(qs);
      var worst := FirstMaxOf(Negated(qs));
      var counts := CountPatterns(Patterns(moveHistory));
      var suggestions := AiSuggestionsAsWritten();
      if suggestions.Err? {
        return Err(suggestions.error);
      }
      r := Ok(Some(ReplayReport(|moveHistory|, total / |moveHistory| as real,
        moveHistory[best], moveHistory[worst], counts, suggestions.value)));
    }

    /**
     * _get_ai_suggestions as written: for a move whose quality is below 60
     * the best cell is found, and then the reason text calls evaluate_move
     * with five arguments where it takes four, which raises a TypeError.
     * So the list is empty, or there is an error exactly when some move's
     * quality is below 60.
     */
    method AiSuggestionsAsWritten() returns (r: Result<seq<Suggestion>>)
      ensures r.Err? <==> HasLowQuality(moveHistory)
      ensures r.Ok? ==> r.value == []
    {
      for i := 0 to |moveHistory|
        invariant forall k :: 0 <= k < i ==> !LowQuality(moveHistory[k])
      {
        if LowQuality(moveHistory[i]) {
          return Err("evaluate_move() takes 5 positional arguments but 6 were given");
        }
      }
      return Ok([]);
    }

    /**
     * _generate_replay_report with evaluate_move called as declared: none
     * for an empty history, otherwise the statistics and one suggestion
     * for each move whose quality is below 60.
     */
    method GenerateReplayReportIntended() returns (r: Option<ReplayReport>)
      requires Valid()
      ensures r.None? <==> |moveHistory| == 0
      ensures r.Some? ==> r.value == ReplayOf(moveHistory, Suggestions(evaluator, board, moveHistory))
    {
      if |moveHistory| == 0 {
        return None;
      }
      var qs := Qualities(moveHistory);
      var total := SumQualities(qs);
      var best := FirstMaxOf(qs);
      var worst := FirstMaxOf(Negated(qs));
      var counts := CountPatterns(Patterns(moveHistory));
      var suggestions := AiSuggestions();
      r := Some(ReplayReport(|moveHistory|, total / |moveHistory| as real,
        moveHistory[best], moveHistory[worst], counts, suggestions));
    }

    /** _get_ai_suggestions with evaluate_move called as declared, move by move. */
    method AiSuggestions() returns (ss: seq<Suggestion>)
      requires Valid()
      ensures ss == Suggestions(evaluator, board, moveHistory)
    {
      var h := moveHistory;
      assert MovesOnBoard(boardSize, h) && IsSquare(board, boardSize);
      ss := [];
      for i := 0 to |h|
        invariant MovesOnBoard(boardSize, h[..i])
        invariant ss == Suggestions(evaluator, board, h[..i])
      {
        SuggestionsStep(evaluator, board, h, i);
        var m := h[i];
        if LowQuality(m) {
          var report := Evaluator.AnalyzeMoveQuality(evaluator, board, m.x, m.y, m.color);
          var best := report.bestMove;
          assert best == SuggestedMove(evaluator, board, m);
          var score := Evaluator.EvaluateMove(evaluator, board, best.0, best.1, m.color);
          ss := ss + [Suggestion(i + 1, (m.x, m.y), best, m.quality, score)];
        }
      }
      assert h[..|h|] == h;
    }
  }

  // ------------------------------------------------------------------
  // The replay report of a training game

  datatype ReplayReport = ReplayReport(
    moveCount: nat, avgQuality: real, bestMove: MoveRecord, worstMove: MoveRecord,
    patternDistribution: map<Pattern, nat>, aiSuggestions: seq<Suggestion>)

  /**
   * One of ai_suggestions: the move's 1-based index and cell, the cell
   * analyze_move_quality finds best on the final board for the move's
   * colour, the move's quality, and the value of the suggested cell.
   */
  datatype Suggestion = Suggestion(moveIdx: nat, badMove: Pos, suggestedMove: Pos, quality: real, suggestedScore: real)

  /** A move gets a suggestion when its quality is below 60. */
  predicate LowQuality(m: MoveRecord)
  {
    m.quality < 60.0
  }

  predicate HasLowQuality(h: seq<MoveRecord>)
  {
    exists i :: 0 <= i < |h| && LowQuality(h[i])
  }

  /** The best cell of analyze_move_quality for m's colour, m's own cell when no empty cell is worth more than 0. */
  function SuggestedMove(e: BoardEvaluator, b: Board, m: MoveRecord): (p: Pos)
    requires e.Valid() && IsSquare(b, e.boardSize) && InBounds(e.boardSize, (m.x, m.y))
    ensures InBounds(e.boardSize, p)
  {
    BestEmptyCell(e, b, m.color, (m.x, m.y));
    BestOf(e, b, m.color, EmptyCells(b, e.boardSize), (m.x, m.y)).0
  }

  /** The suggestions for the history's low-quality moves, in order, reviewed on the board b. */
  function Suggestions(e: BoardEvaluator, b: Board, h: seq<MoveRecord>): seq<Suggestion>
    requires e.Valid() && IsSquare(b, e.boardSize) && MovesOnBoard(e.boardSize, h)
  {
    if |h| == 0 then []
    else
      var m := h[|h| - 1];
      var rest := Suggestions(e, b, h[..|h| - 1]);
      if LowQuality(m) then
        var p := SuggestedMove(e, b, m);
        rest + [Suggestion(|h|, (m.x, m.y), p, m.quality, MoveValue(e, b, p, m.color))]
      else rest
  }

  /** Move i adds its suggestion, when it has one, to those of the moves before it. */
  lemma SuggestionsStep(e: BoardEvaluator, b: Board, h: seq<MoveRecord>, i: nat)
    requires e.Valid() && IsSquare(b, e.boardSize) && MovesOnBoard(e.boardSize, h) && i < |h|
    ensures MovesOnBoard(e.boardSize, h[..i]) && MovesOnBoard(e.boardSize, h[..i + 1])
    ensures var m := h[i];
      Suggestions(e, b, h[..i + 1]) == Suggestions(e, b, h[..i]) +
        if LowQuality(m) then
          [Suggestion(i + 1, (m.x, m.y), SuggestedMove(e, b, m), m.quality, MoveValue(e, b, SuggestedMove(e, b, m), m.color))]
        else []
  {
    assert h[..i + 1][..i] == h[..i];
  }

  /** Each suggestion extends the suggestions of the moves before it. */
  lemma SuggestionsPrefix(e: BoardEvaluator, b: Board, h: seq<MoveRecord>)
    requires e.Valid() && IsSquare(b, e.boardSize) && MovesOnBoard(e.boardSize, h) && |h| > 0
    ensures MovesOnBoard(e.boardSize, h[..|h| - 1])
    ensures var rest := Suggestions(e, b, h[..|h| - 1]);
      var ss := Suggestions(e, b, h);
      ss[..|rest|] == rest && |ss| == |rest| + (if LowQuality(h[|h| - 1]) then 1 else 0)
  {
  }

  /**
   * The suggestions are empty exactly when no move's quality is below 60,
   * which is when the as-written report does not raise.
   */
  lemma {:induction false} SuggestionsEmpty(e: BoardEvaluator, b: Board, h: seq<MoveRecord>)
    requires e.Valid() && IsSquare(b, e.boardSize) && MovesOnBoard(e.boardSize, h)
    ensures Suggestions(e, b, h) == [] <==> !HasLowQuality(h)
  {
    if |h| > 0 {
      var init := h[..|h| - 1];
      SuggestionsPrefix(e, b, h);
      SuggestionsEmpty(e, b, init);
      if HasLowQuality(init) {
        var i :| 0 <= i < |init| && LowQuality(init[i]);
        assert LowQuality(h[i]);
      }
      assert forall i :: 0 <= i < |init| ==> init[i] == h[i];
    }
  }

  /**
   * Every suggestion, in the order of the moves, is for a move whose
   * quality is below 60: it names the move's 1-based index, its cell and
   * quality, and the best cell for its colour with that cell's value.
   */
  lemma {:induction false} SuggestionsSound(e: BoardEvaluator, b: Board, h: seq<MoveRecord>)
    requires e.Valid() && IsSquare(b, e.boardSize) && MovesOnBoard(e.boardSize, h)
    ensures var ss := Suggestions(e, b, h);
      && (forall k :: 0 <= k < |ss| ==>
            && 1 <= ss[k].moveIdx <= |h|
            && var m := h[ss[k].moveIdx - 1];
               && LowQuality(m) && ss[k].badMove == (m.x, m.y) && ss[k].quality == m.quality
               && ss[k].suggestedMove == SuggestedMove(e, b, m)
               && ss[k].suggestedScore == MoveValue(e, b, ss[k].suggestedMove, m.color))
      && (forall k, l :: 0 <= k < l < |ss| ==> ss[k].moveIdx < ss[l].moveIdx)
  {
    if |h| > 0 {
      var init := h[..|h| - 1];
      SuggestionsPrefix(e, b, h);
      SuggestionsSound(e, b, init);
      var rest := Suggestions(e, b, init);
      var ss := Suggestions(e, b, h);
      forall k | 0 <= k < |rest|
        ensures ss[k] == rest[k] && h[rest[k].moveIdx - 1] == init[rest[k].moveIdx - 1]
      {
        assert ss[k] == ss[..|rest|][k];
      }
    }
  }

  /** Every move whose quality is below 60 has a suggestion. */
  lemma {:induction false} SuggestionsComplete(e: BoardEvaluator, b: Board, h: seq<MoveRecord>, i: nat)
    requires e.Valid() && IsSquare(b, e.boardSize) && MovesOnBoard(e.boardSize, h)
    requires i < |h| && LowQuality(h[i])
    ensures exists k :: 0 <= k < |Suggestions(e, b, h)| && Suggestions(e, b, h)[k].moveIdx == i + 1
  {
    var init := h[..|h| - 1];
    SuggestionsPrefix(e, b, h);
    var rest := Suggestions(e, b, init);
    var ss := Suggestions(e, b, h);
    if i < |init| {
      assert init[i] == h[i];
      SuggestionsComplete(e, b, init, i);
      var k :| 0 <= k < |rest| && rest[k].moveIdx == i + 1;
      assert ss[k] == ss[..|rest|][k];
    } else {
      assert ss[|rest|].moveIdx == i + 1;
    }
  }

  function Qualities(h: seq<MoveRecord>): (qs: seq<real>)
    ensures |qs| == |h| && forall i :: 0 <= i < |h| ==> qs[i] == h[i].quality
  {
    seq(|h|, i requires 0 <= i < |h| => h[i].quality)
  }

  function Patterns(h: seq<MoveRecord>): (ps: seq<Pattern>)
    ensures |ps| == |h| && forall i :: 0 <= i < |h| ==> ps[i] == h[i].pattern
  {
    seq(|h|, i requires 0 <= i < |h| => h[i].pattern)
  }

  function Negated(s: seq<real>): (r: seq<real>)
    ensures |r| == |s| && forall i :: 0 <= i < |s| ==> r[i] == -s[i]
  {
    seq(|s|, i requires 0 <= i < |s| => -s[i])
  }

  function Sum(s: seq<real>): real
  {
    if |s| == 0 then 0.0 else Sum(s[..|s| - 1]) + s[|s| - 1]
  }

  function Mean(s: seq<real>): real
    requires |s| > 0
  {
    Sum(s) / |s| as real
  }

  /** pattern_counts.get(p, 0). */
  function CountOf(m: map<Pattern, nat>, p: Pattern): nat
  {
    if p in m then m[p] else 0
  }

  /** The dictionary the tally loop builds: each pattern's count goes up by one per occurrence. */
  function Tally(ps: seq<Pattern>): map<Pattern, nat>
  {
    if |ps| == 0 then map[]
    else
      var m := Tally(ps[..|ps| - 1]);
      m[ps[|ps| - 1] := CountOf(m, ps[|ps| - 1]) + 1]
  }

  /** The report: move count, mean quality, the first best and first worst move, the pattern tally, the suggestions. */
  function ReplayOf(h: seq<MoveRecord>, suggestions: seq<Suggestion>): ReplayReport
    requires |h| > 0
  {
    var qs := Qualities(h);
    ReplayReport(|h|, Mean(qs), h[Seqs.FirstMaxIndex(qs)],
      h[Seqs.FirstMaxIndex(Negated(qs))], Tally(Patterns(h)), suggestions)
  }

  /** sum(...) over the qualities. */
  method SumQualities(qs: seq<real>) returns (total: real)
    ensures total == Sum(qs)
  {
    total := 0.0;
    for i := 0 to |qs|
      invariant total == Sum(qs[..i])
    {
      assert qs[..i + 1][..i] == qs[..i];
      total := total + qs[i];
    }
    assert qs[..|qs|] == qs;
  }

  /** max(...) by key: the first greatest, replaced only by a strictly greater one. */
  method FirstMaxOf(s: seq<real>) returns (i: nat)
    requires |s| > 0
    ensures i == Seqs.FirstMaxIndex(s)
  {
    i := 0;
    Seqs.FirstMaxIndexSingle(s);
    for k := 1 to |s|
      invariant i == Seqs.FirstMaxIndex(s[..k])
    {
      Seqs.FirstMaxIndexStep(s, k);
      if s[k] > s[i] {
        i := k;
      }
    }
    assert s[..|s|] == s;
  }

  /** The tally loop. */
  method CountPatterns(ps: seq<Pattern>) returns (counts: map<Pattern, nat>)
    ensures counts == Tally(ps)
  {
    counts := map[];
    for i := 0 to |ps|
      invariant counts == Tally(ps[..i])
    {
      assert ps[..i + 1][..i] == ps[..i];
      counts := counts[ps[i] := CountOf(counts, ps[i]) + 1];
    }
    assert ps[..|ps|] == ps;
  }

  /** Each pattern's count is its number of occurrences, and a pattern is a key exactly when it occurs. */
  lemma {:induction false} TallyCounts(ps: seq<Pattern>)
    ensures forall p :: (p in Tally(ps) <==> p in ps) && CountOf(Tally(ps), p) == multiset(ps)[p]
  {
    if |ps| > 0 {
      var init := ps[..|ps| - 1];
      TallyCounts(init);
      assert ps == init + [ps[|ps| - 1]];
    }
  }

  function AllPatterns(): (ps: seq<Pattern>)
    ensures forall i, j :: 0 <= i < j < |ps| ==> ps[i] != ps[j]
  {
    [Five, Four, BlockedFour, Three, BlockedThree, Two, BlockedTwo, One]
  }

  lemma AllPatternsComplete(p: Pattern)
    ensures p in AllPatterns()
  {
    match p
    case Five => assert AllPatterns()[0] == p;
    case Four => assert AllPatterns()[1] == p;
    case BlockedFour => assert AllPatterns()[2] == p;
    case Three => assert AllPatterns()[3] == p;
    case BlockedThree => assert AllPatterns()[4] == p;
    case Two => assert AllPatterns()[5] == p;
    case BlockedTwo => assert AllPatterns()[6] == p;
    case One => assert AllPatterns()[7] == p;
  }

  /** In a list without repeats every element occurs once. */
  lemma {:induction false} DistinctOnce<T>(ps: seq<T>, p: T)
    requires forall i, j :: 0 <= i < j < |ps| ==> ps[i] != ps[j]
    ensures multiset(ps)[p] == if p in ps then 1 else 0
  {
    if |ps| > 0 {
      var init := ps[..|ps| - 1];
      DistinctOnce(init, p);
      assert ps == init + [ps[|ps| - 1]];
      if p == ps[|ps| - 1] {
        assert p !in init;
      }
    }
  }

  /** The counts of the patterns ps, added up. */
  function Total(m: map<Pattern, nat>, ps: seq<Pattern>): nat
  {
    if |ps| == 0 then 0 else Total(m, ps[..|ps| - 1]) + CountOf(m, ps[|ps| - 1])
  }

  lemma {:induction false} TotalBump(m: map<Pattern, nat>, p: Pattern, ps: seq<Pattern>)
    ensures Total(m[p := CountOf(m, p) + 1], ps) == Total(m, ps) + multiset(ps)[p]
  {
    if |ps| > 0 {
      var init := ps[..|ps| - 1];
      TotalBump(m, p, init);
      assert ps == init + [ps[|ps| - 1]];
    }
  }

  lemma {:induction false} TotalOfEmpty(ps: seq<Pattern>)
    ensures Total(map[], ps) == 0
  {
    if |ps| > 0 {
      TotalOfEmpty(ps[..|ps| - 1]);
    }
  }

  /** The pattern distribution accounts for every move exactly once. */
  lemma {:induction false} TallyTotal(ps: seq<Pattern>, all: seq<Pattern>)
    requires forall i, j :: 0 <= i < j < |all| ==> all[i] != all[j]
    requires forall p :: p in all
    ensures Total(Tally(ps), all) == |ps|
  {
    if |ps| > 0 {
      var init := ps[..|ps| - 1];
      var x := ps[|ps| - 1];
      TallyTotal(init, all);
      TotalBump(Tally(init), x, all);
      DistinctOnce(all, x);
      assert Tally(ps) == Tally(init)[x := CountOf(Tally(init), x) + 1];
    } else {
      TotalOfEmpty(all);
    }
  }

  lemma {:induction false} SumBetween(s: seq<real>, lo: real, hi: real)
    requires forall i :: 0 <= i < |s| ==> lo <= s[i] <= hi
    ensures |s| as real * lo <= Sum(s) <= |s| as real * hi
  {
    if |s| > 0 {
      SumBetween(s[..|s| - 1], lo, hi);
    }
  }

  /** The mean of values between lo and hi lies between lo and hi. */
  lemma MeanBetween(s: seq<real>, lo: real, hi: real)
    requires |s| > 0 && forall i :: 0 <= i < |s| ==> lo <= s[i] <= hi
    ensures lo <= Mean(s) <= hi
  {
    SumBetween(s, lo, hi);
    DivideBounds(Sum(s), |s| as real, lo, hi);
  }

  lemma DivideBounds(total: real, k: real, lo: real, hi: real)
    requires k > 0.0 && k * lo <= total <= k * hi
    ensures lo <= total / k <= hi
  {
  }

  /**
   * The report counts every move; its best move has the highest quality
   * and comes first among equals, its worst move the lowest, first among
   * equals; the mean quality lies between the two.
   */
  lemma ReplayQualities(h: seq<MoveRecord>, suggestions: seq<Suggestion>)
    requires |h| > 0
    ensures var r := ReplayOf(h, suggestions);
      && r.moveCount == |h|
      && (exists i :: 0 <= i < |h| && r.bestMove == h[i] && forall k :: 0 <= k < i ==> h[k].quality < h[i].quality)
      && (forall k :: 0 <= k < |h| ==> h[k].quality <= r.bestMove.quality)
      && (exists i :: 0 <= i < |h| && r.worstMove == h[i] && forall k :: 0 <= k < i ==> h[k].quality > h[i].quality)
      && (forall k :: 0 <= k < |h| ==> h[k].quality >= r.worstMove.quality)
      && r.worstMove.quality <= r.avgQuality <= r.bestMove.quality
  {
    var qs := Qualities(h);
    var nq := Negated(qs);
    Seqs.FirstMaxIndexSpec(qs);
    Seqs.FirstMaxIndexSpec(nq);
    var bi := Seqs.FirstMaxIndex(qs);
    var wi := Seqs.FirstMaxIndex(nq);
    assert forall k :: 0 <= k < |h| ==> h[k].quality <= h[bi].quality;
    assert forall k :: 0 <= k < |h| ==> h[k].quality >= h[wi].quality by {
      forall k | 0 <= k < |h| ensures h[k].quality >= h[wi].quality {
        assert nq[k] <= nq[wi];
      }
    }
    forall k | 0 <= k < wi ensures h[k].quality > h[wi].quality {
      assert nq[k] < nq[wi];
    }
    MeanBetween(qs, h[wi].quality, h[bi].quality);
  }

  /**
   * The pattern distribution counts each pattern's occurrences, has a key
   * exactly for the patterns that occur, and adds up to the number of moves.
   */
  lemma ReplayDistribution(h: seq<MoveRecord>, suggestions: seq<Suggestion>)
    requires |h| > 0
    ensures var r := ReplayOf(h, suggestions);
      && (forall p :: (p in r.patternDistribution <==> p in Patterns(h))
                      && CountOf(r.patternDistribution, p) == multiset(Patterns(h))[p])
      && Total(r.patternDistribution, AllPatterns()) == |h|
  {
    TallyCounts(Patterns(h));
    forall p ensures p in AllPatterns() {
      AllPatternsComplete(p);
    }
    TallyTotal(Patterns(h), AllPatterns());
  }
}
