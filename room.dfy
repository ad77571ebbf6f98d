/**
 * A server room: one game between the host and a second player (PVP), or
 * between the host and the server's AI (PVE), with its members, its board
 * and its move history. The players dict is kept as its key order plus a
 * map; the room state is a value, RoomState, and the class Room holds it in
 * fields that its methods update as the spec functions here say.
 */
module Rooms {
  import opened Wrappers
  import opened Constants
  import opened Boards
  import opened Windows
  import GobangCore

  /** The user id the AI plays under in a PVE room. */
  const AI_USER: string := "ai"

  const NOT_STARTED: string := "游戏未开始"
  const NOT_YOUR_TURN: string := "不是你的回合"
  const OUT_OF_RANGE: string := "坐标超出棋盘范围"
  const OCCUPIED: string := "该位置已落子"
  const PLAYER_LEFT: string := "玩家离开"

  datatype RoomMove = RoomMove(x: int, y: int, userId: string, color: int, timestamp: real)

  /** Why a game stopped: a player left, or the board decided it. */
  datatype RoomResult =
    | Abandoned(winner: string, reason: string)
    | Finished(winner: string, winLine: seq<Pos>, moveCount: nat, duration: real)

  /** The answer to a placement: a refusal with its message, or the mover's colour and the result if the game ended. */
  datatype Reply = Refused(message: string) | Moved(color: int, ended: Option<RoomResult>)

  datatype RoomState = RoomState(
    roomId: string, hostUserId: string, gameMode: string, aiLevel: string,
    order: seq<string>, players: map<string, string>, playerColors: map<string, int>,
    currentPlayer: string, board: Board, moveHistory: seq<RoomMove>,
    gameActive: bool, gameResult: Option<RoomResult>,
    startTime: real, lastMoveTime: real, lastMemberChangeTime: real)

  predicate Distinct(ids: seq<string>)
  {
    forall i, j :: 0 <= i < j < |ids| ==> ids[i] != ids[j]
  }

  /** The ids with u taken out and the rest in their order: del on an insertion-ordered dict. */
  function Without(ids: seq<string>, u: string): (r: seq<string>)
    ensures forall v :: v in r <==> v in ids && v != u
    ensures Distinct(ids) ==> Distinct(r)
    ensures Distinct(ids) && u in ids ==> |r| == |ids| - 1
    ensures u !in ids ==> r == ids
  {
    if ids == [] then []
    else if ids[0] == u then Without(ids[1..], u)
    else
      var r := Without(ids[1..], u);
      if Distinct(ids) then
        assert ids[0] !in ids[1..];
        DistinctCons(ids[0], r);
        [ids[0]] + r
      else [ids[0]] + r
  }

  lemma DistinctCons(x: string, r: seq<string>)
    requires Distinct(r) && x !in r
    ensures Distinct([x] + r)
  {
    forall i, j | 0 <= i < j < |[x] + r| ensures ([x] + r)[i] != ([x] + r)[j] {
      if i == 0 { assert ([x] + r)[j] == r[j - 1]; }
    }
  }

  /**
   * The room invariant: the key order lists each member once, the colour
   * map has the same keys, every colour is black or white, a PVP room has
   * at most two members and any other room at most one, and the board is
   * 15 by 15.
   */
  ghost predicate Valid(s: RoomState)
  {
    && Distinct(s.order)
    && (forall u :: u in s.order <==> u in s.players)
    && s.players.Keys == s.playerColors.Keys
    && (forall u :: u in s.playerColors ==> s.playerColors[u] == BLACK || s.playerColors[u] == WHITE)
    && |s.order| <= (if s.gameMode == PVP then 2 else 1)
    && IsSquare(s.board, BOARD_SIZE)
  }

  /** A new room: the host alone, black and to move, on an empty board, the game not yet started. */
  function NewRoom(id: string, host: string, hostClient: string, mode: string, level: string, now: real): (s: RoomState)
    ensures Valid(s)
  {
    RoomState(id, host, mode, level, [host], map[host := hostClient], map[host := BLACK], host,
      EmptyBoard(BOARD_SIZE), [], false, None, now, now, now)
  }

  /** start_game: running, no result, both clocks restarted; board and history are kept. */
  function Started(s: RoomState, now: real): RoomState
  {
    s.(gameActive := true, gameResult := None, startTime := now, lastMoveTime := now)
  }

  /**
   * add_player: nothing unless the room is PVP with fewer than two members;
   * otherwise u joins as white and the game starts once there are two.
   */
  function Join(s: RoomState, u: string, c: string, now: real): (r: RoomState)
    ensures Valid(s) ==> Valid(r)
  {
    if s.gameMode != PVP || |s.order| >= 2 then s
    else
      var t := s.(order := if u in s.players then s.order else s.order + [u],
                  players := s.players[u := c], playerColors := s.playerColors[u := WHITE],
                  lastMemberChangeTime := now);
      if |t.order| == 2 then Started(t, now) else t
  }

  /** remove_player: a member leaves, and the game stops abandoned with winner "none". */
  function Leave(s: RoomState, u: string, now: real): (r: RoomState)
    ensures Valid(s) ==> Valid(r)
  {
    if u !in s.players then s
    else
      s.(order := Without(s.order, u), players := s.players - {u},
         playerColors := if u in s.playerColors then s.playerColors - {u} else s.playerColors,
         lastMemberChangeTime := now, gameActive := false,
         gameResult := Some(Abandoned("none", PLAYER_LEFT)))
  }

  /** is_full: one member fills a PVE room, two any other. */
  predicate Full(s: RoomState)
  {
    if s.gameMode == PVE then |s.order| >= 1 else |s.order| >= 2
  }

  /** The position of the first id other than u; |ids| when there is none. */
  function FirstOther(ids: seq<string>, u: string): (i: nat)
    ensures i <= |ids| && (i < |ids| ==> ids[i] != u)
    ensures forall j :: 0 <= j < i ==> ids[j] == u
  {
    if ids == [] || ids[0] != u then 0 else 1 + FirstOther(ids[1..], u)
  }

  /** get_peer_client_id: the client of the first member, in join order, other than u. */
  function PeerOf(s: RoomState, u: string): (r: Option<string>)
    requires Valid(s)
    ensures r.None? <==> forall v :: v in s.order ==> v == u
    ensures r.Some? ==> exists v :: v in s.players && v != u && s.players[v] == r.value
  {
    var i := FirstOther(s.order, u);
    if i == |s.order| then None else Some(s.players[s.order[i]])
  }

  /** get_incremental_data: the moves strictly after t, in their order. */
  function Since(h: seq<RoomMove>, t: real): (r: seq<RoomMove>)
    ensures forall m :: m in r <==> m in h && m.timestamp > t
    ensures |r| <= |h|
  {
    if h == [] then [] else (if h[0].timestamp > t then [h[0]] else []) + Since(h[1..], t)
  }

  lemma {:induction false} SinceAppend(h1: seq<RoomMove>, h2: seq<RoomMove>, t: real)
    ensures Since(h1 + h2, t) == Since(h1, t) + Since(h2, t)
  {
    if h1 == [] {
      assert h1 + h2 == h2;
    } else {
      assert (h1 + h2)[1..] == h1[1..] + h2;
      SinceAppend(h1[1..], h2, t);
    }
  }

  predicate Chronological(h: seq<RoomMove>)
  {
    forall i, j :: 0 <= i < j < |h| ==> h[i].timestamp <= h[j].timestamp
  }

  /** The number of leading moves at or before t. */
  function Cut(h: seq<RoomMove>, t: real): (k: nat)
    ensures k <= |h| && forall i :: 0 <= i < k ==> h[i].timestamp <= t
    ensures k < |h| ==> h[k].timestamp > t
  {
    if h == [] || h[0].timestamp > t then 0 else 1 + Cut(h[1..], t)
  }

  /**
   * When the history is in time order, the incremental data is the suffix
   * after the leading moves at or before t.
   */
  lemma {:induction false} SinceIsSuffix(h: seq<RoomMove>, t: real)
    requires Chronological(h)
    ensures Since(h, t) == h[Cut(h, t)..]
  {
    if h != [] {
      if h[0].timestamp > t {
        SinceAll(h, t);
      } else {
        SinceIsSuffix(h[1..], t);
        assert h[1..][Cut(h[1..], t)..] == h[Cut(h, t)..];
      }
    }
  }

  /** Every move of a time-ordered history that starts after t is returned. */
  lemma {:induction false} SinceAll(h: seq<RoomMove>, t: real)
    requires Chronological(h) && h != [] && h[0].timestamp > t
    ensures Since(h, t) == h
  {
    if |h| > 1 {
      assert h[1..][0] == h[1];
      SinceAll(h[1..], t);
    } else {
      assert h[1..] == [];
    }
  }

  /** The first position of u in ids. */
  function IndexIn(ids: seq<string>, u: string): (i: nat)
    requires u in ids
    ensures i < |ids| && ids[i] == u && u !in ids[..i]
  {
    if ids[0] == u then 0 else 1 + IndexIn(ids[1..], u)
  }

  /** The member after u, wrapping round: players[(index(u) + 1) % len(players)]. */
  function Advance(ids: seq<string>, u: string): (v: string)
    requires u in ids
    ensures v in ids
  {
    ids[(IndexIn(ids, u) + 1) % |ids|]
  }

  /** Advancing from the i-th of distinct ids reaches the (i + 1)-th, wrapping round. */
  lemma AdvanceAt(ids: seq<string>, i: nat)
    requires Distinct(ids) && i < |ids|
    ensures Advance(ids, ids[i]) == ids[(i + 1) % |ids|]
  {
    var k := IndexIn(ids, ids[i]);
    assert k == i;
  }

  /** k turns of advancing from u. */
  function Rotate(ids: seq<string>, u: string, k: nat): (v: string)
    requires u in ids
    ensures v in ids
  {
    if k == 0 then u else Advance(ids, Rotate(ids, u, k - 1))
  }

  /** Turns move cyclically through distinct members: k turns from the i-th reach the (i + k)-th. */
  lemma {:induction false} RotateAt(ids: seq<string>, i: nat, k: nat)
    requires Distinct(ids) && i < |ids|
    ensures Rotate(ids, ids[i], k) == ids[(i + k) % |ids|]
  {
    if k == 0 {
      ModUnique(i, |ids|, 0, i);
    } else {
      RotateAt(ids, i, k - 1);
      RotateStep(ids, i, k);
    }
  }

  lemma RotateStep(ids: seq<string>, i: nat, k: nat)
    requires Distinct(ids) && i < |ids| && k > 0
    requires Rotate(ids, ids[i], k - 1) == ids[(i + (k - 1)) % |ids|]
    ensures Rotate(ids, ids[i], k) == ids[(i + k) % |ids|]
  {
    var n := |ids|;
    var j := (i + (k - 1)) % n;
    AdvanceAt(ids, j);
    ModSucc(i + (k - 1), n);
  }

  lemma ModSucc(a: nat, n: nat)
    requires n > 0
    ensures (a % n + 1) % n == (a + 1) % n
  {
    var q, r := a / n, a % n;
    if r + 1 < n {
      ModUnique(a + 1, n, q, r + 1);
      ModUnique(r + 1, n, 0, r + 1);
    } else {
      ModUnique(a + 1, n, q + 1, 0);
      ModUnique(r + 1, n, 1, 0);
    }
  }

  /** The quotient and remainder of a are the only q, r with a == q * n + r and 0 <= r < n. */
  lemma ModUnique(a: int, n: int, q: int, r: int)
    requires n > 0 && 0 <= r < n && a == q * n + r
    ensures a % n == r
  {
    var q', r' := a / n, a % n;
    if q' > q {
      MulMono(q + 1, q', n);
    } else if q' < q {
      MulMono(q' + 1, q, n);
    }
  }

  lemma MulMono(x: int, y: int, n: int)
    requires x <= y && n > 0
    ensures x * n <= y * n
  {
  }

  /** After as many turns as there are members, the turn is back with the first mover. */
  lemma FullCircle(ids: seq<string>, u: string)
    requires Distinct(ids) && u in ids
    ensures Rotate(ids, u, |ids|) == u
  {
    var i := IndexIn(ids, u);
    RotateAt(ids, i, |ids|);
    ModUnique(i + |ids|, |ids|, 1, i);
  }

  /** _switch_turn: host and AI alternate in PVE; otherwise the next member in join order. */
  function NextTurn(s: RoomState): string
    requires s.gameMode != PVE ==> s.currentPlayer in s.order
  {
    if s.gameMode == PVE then (if s.currentPlayer == s.hostUserId then AI_USER else s.hostUserId)
    else Advance(s.order, s.currentPlayer)
  }

  /** A PVE turn switch goes from the host to the AI and back again. */
  lemma PveTurns(s: RoomState)
    requires s.gameMode == PVE && s.hostUserId != AI_USER && s.currentPlayer == s.hostUserId
    ensures NextTurn(s) == AI_USER && NextTurn(s.(currentPlayer := NextTurn(s))) == s.hostUserId
  {
  }

  /** In a full PVP room the turn goes to the other member, and back after two switches. */
  lemma PvpTurns(s: RoomState)
    requires Valid(s) && s.gameMode == PVP && |s.order| == 2 && s.currentPlayer in s.order
    ensures NextTurn(s) in s.order && NextTurn(s) != s.currentPlayer
    ensures NextTurn(s.(currentPlayer := NextTurn(s))) == s.currentPlayer
  {
    var i := IndexIn(s.order, s.currentPlayer);
    AdvanceAt(s.order, i);
    AdvanceAt(s.order, (i + 1) % 2);
  }

  /** Same room, same members: what a placement never changes. */
  predicate SameMembers(s: RoomState, t: RoomState)
  {
    && s.roomId == t.roomId && s.hostUserId == t.hostUserId && s.gameMode == t.gameMode && s.aiLevel == t.aiLevel
    && s.order == t.order && s.players == t.players && s.playerColors == t.playerColors
  }

  /** The checks a placement passes before it is applied. */
  predicate Passes(s: RoomState, u: string, x: int, y: int)
    requires IsSquare(s.board, BOARD_SIZE)
  {
    s.gameActive && u == s.currentPlayer && InBounds(BOARD_SIZE, (x, y)) && s.board[x][y] == EMPTY
  }

  /** The stone at (x, y) and its history entry, stamped now. */
  function Stone(s: RoomState, x: int, y: int, u: string, c: int, now: real): RoomState
    requires IsSquare(s.board, BOARD_SIZE) && InBounds(BOARD_SIZE, (x, y))
  {
    s.(board := Set(s.board, (x, y), c), moveHistory := s.moveHistory + [RoomMove(x, y, u, c, now)],
       lastMoveTime := now)
  }

  /** The game-end check of the native core on a room's board. */
  function EndOf(b: Board): GameEndResult
    requires IsSquare(b, BOARD_SIZE)
  {
    GameEnd(b, BOARD_SIZE, NativeScans(BOARD_SIZE))
  }

  /** The winner's name for a player's move: "black", "white", or "draw". */
  function ColorLabel(w: int): (name: string)
    ensures name == "black" <==> w == BLACK
    ensures name == "white" <==> w == WHITE
    ensures name == "draw" <==> w != BLACK && w != WHITE
  {
    if w == BLACK then "black" else if w == WHITE then "white" else "draw"
  }

  /** The winner's name after an AI move, as written: the AI for white, otherwise the host, a draw included. */
  function AiWinnerAsWritten(host: string, w: int): (name: string)
    ensures host != AI_USER ==> (name == AI_USER <==> w == WHITE)
    ensures name == host <==> w != WHITE || host == AI_USER
  {
    if w == WHITE then AI_USER else host
  }

  /** The winner's name after an AI move, as intended: the AI for white, "draw" for no five, the host for black. */
  function AiWinner(host: string, w: int): (name: string)
    ensures host != AI_USER && host != "draw" ==>
      && (name == AI_USER <==> w == WHITE)
      && (name == "draw" <==> w == EMPTY)
      && (name == host <==> w != WHITE && w != EMPTY)
  {
    if w == WHITE then AI_USER else if w == EMPTY then "draw" else host
  }

  /** A board that ends the game without a five is credited to the host by the code as written. */
  lemma AiDrawCreditsHost(host: string, b: Board)
    requires IsSquare(b, BOARD_SIZE) && EndOf(b).isEnd && EndOf(b).winner == EMPTY
    ensures NoFive(b, BOARD_SIZE, NativeScans(BOARD_SIZE)) && IsFull(b, BOARD_SIZE)
    ensures AiWinnerAsWritten(host, EndOf(b).winner) == host
  {
    GameEndNoWinner(b, BOARD_SIZE, NativeScans(BOARD_SIZE));
  }

  /** With the intended naming the same board is reported as a draw, and a named winner always has a five. */
  lemma AiResultNamesFive(host: string, b: Board)
    requires host != AI_USER && host != "draw" && IsSquare(b, BOARD_SIZE)
    ensures AiWinner(host, EndOf(b).winner) == "draw" <==> NoFive(b, BOARD_SIZE, NativeScans(BOARD_SIZE))
  {
    GameEndNoWinner(b, BOARD_SIZE, NativeScans(BOARD_SIZE));
  }

  /**
   * place_piece: refused, in this order, when no game runs, when it is not
   * u's turn, off the board, and on an occupied cell; otherwise u's stone is
   * placed and the game ends or the turn passes, and in PVE the AI answers
   * at choice.
   */
  function Play(s: RoomState, u: string, x: int, y: int, choice: Pos, now: real): (r: (RoomState, Reply))
    requires Valid(s) && InBounds(BOARD_SIZE, choice)
    requires Passes(s, u, x, y) ==> u in s.playerColors
    ensures Valid(r.0) && SameMembers(s, r.0)
    ensures r.1.Refused? <==> !Passes(s, u, x, y)
    ensures r.1.Refused? ==> r.0 == s
  {
    if !s.gameActive then (s, Refused(NOT_STARTED))
    else if u != s.currentPlayer then (s, Refused(NOT_YOUR_TURN))
    else if !InBounds(BOARD_SIZE, (x, y)) then (s, Refused(OUT_OF_RANGE))
    else if s.board[x][y] != EMPTY then (s, Refused(OCCUPIED))
    else
      var c := s.playerColors[u];
      var t := Stone(s, x, y, u, c, now);
      Settle(t, c, EndOf(t.board), choice, now)
  }

  /** After the mover's stone: the game ends with the board's result, or the turn switches and the AI may answer. */
  function Settle(t: RoomState, c: int, end: GameEndResult, choice: Pos, now: real): (r: (RoomState, Reply))
    requires Valid(t) && InBounds(BOARD_SIZE, choice) && t.currentPlayer in t.order
    ensures Valid(r.0) && SameMembers(t, r.0) && r.1.Moved?
  {
    if end.isEnd then
      var res := Finished(ColorLabel(end.winner), end.winLine, |t.moveHistory|, now - t.startTime);
      (t.(gameActive := false, gameResult := Some(res)), Moved(c, Some(res)))
    else
      var w := t.(currentPlayer := NextTurn(t));
      if w.gameMode == PVE && w.currentPlayer == AI_USER then (AiAnswer(w, choice, now), Moved(c, None))
      else (w, Moved(c, None))
  }

  /** ai_move with the AI's chosen cell: a white stone, then the game ends or the turn returns to the host. */
  function AiAnswer(s: RoomState, choice: Pos, now: real): (r: RoomState)
    requires IsSquare(s.board, BOARD_SIZE) && InBounds(BOARD_SIZE, choice)
    ensures Valid(s) ==> Valid(r)
    ensures SameMembers(s, r)
  {
    if !s.gameActive || s.gameMode != PVE then s
    else
      var t := Stone(s, choice.0, choice.1, AI_USER, WHITE, now);
      AiSettle(t, EndOf(t.board), now)
  }

  /** After the AI's stone, as written: an ended game names the AI for a white winner and the host otherwise. */
  function AiSettle(t: RoomState, end: GameEndResult, now: real): (r: RoomState)
    ensures SameMembers(t, r) && r.board == t.board && r.moveHistory == t.moveHistory
    ensures end.isEnd ==>
      && !r.gameActive && r.currentPlayer == t.currentPlayer
      && r.gameResult == Some(Finished(AiWinnerAsWritten(t.hostUserId, end.winner), end.winLine, |t.moveHistory|, now - t.startTime))
    ensures !end.isEnd ==> r.gameActive == t.gameActive && r.gameResult == t.gameResult && r.currentPlayer == t.hostUserId
  {
    if end.isEnd then
      t.(gameActive := false,
         gameResult := Some(Finished(AiWinnerAsWritten(t.hostUserId, end.winner), end.winLine, |t.moveHistory|, now - t.startTime)))
    else t.(currentPlayer := t.hostUserId)
  }

  /** The four refusals come in the source's order, each with its message. */
  lemma PlayRefusals(s: RoomState, u: string, x: int, y: int, choice: Pos, now: real)
    requires Valid(s) && InBounds(BOARD_SIZE, choice) && (Passes(s, u, x, y) ==> u in s.playerColors)
    ensures !s.gameActive ==> Play(s, u, x, y, choice, now).1 == Refused(NOT_STARTED)
    ensures s.gameActive && u != s.currentPlayer ==> Play(s, u, x, y, choice, now).1 == Refused(NOT_YOUR_TURN)
    ensures s.gameActive && u == s.currentPlayer && !InBounds(BOARD_SIZE, (x, y)) ==>
      Play(s, u, x, y, choice, now).1 == Refused(OUT_OF_RANGE)
    ensures s.gameActive && u == s.currentPlayer && InBounds(BOARD_SIZE, (x, y)) && s.board[x][y] != EMPTY ==>
      Play(s, u, x, y, choice, now).1 == Refused(OCCUPIED)
  {
  }

  /**
   * An accepted move by a player of a room other than PVE: the mover's
   * stone is on the board and is the one new history entry, nothing else
   * on the board changes, and either the game ends with the board's result
   * or the turn passes to the next member.
   */
  lemma PlayAccepted(s: RoomState, u: string, x: int, y: int, choice: Pos, now: real)
    requires Valid(s) && InBounds(BOARD_SIZE, choice) && Passes(s, u, x, y) && u in s.playerColors
    requires s.gameMode != PVE
    ensures var (r, reply) := Play(s, u, x, y, choice, now);
      var c := s.playerColors[u];
      && reply.Moved? && reply.color == c
      && r.board == Set(s.board, (x, y), c)
      && r.moveHistory == s.moveHistory + [RoomMove(x, y, u, c, now)]
      && r.order == s.order && r.players == s.players && r.playerColors == s.playerColors
      && (reply.ended.Some? <==> EndOf(r.board).isEnd)
      && (reply.ended.Some? ==>
            && !r.gameActive && r.gameResult == reply.ended && r.currentPlayer == u
            && reply.ended.value.winner == ColorLabel(EndOf(r.board).winner))
      && (reply.ended.None? ==> r.gameActive && r.currentPlayer == Advance(s.order, u))
  {
  }

  /**
   * An accepted move by the host of a PVE room: the host's stone, then,
   * unless that ended the game, the AI's white stone at its choice; the
   * turn is back with the host unless the AI's stone ended the game.
   */
  lemma PlayAgainstAi(s: RoomState, u: string, x: int, y: int, choice: Pos, now: real)
    requires Valid(s) && InBounds(BOARD_SIZE, choice) && Passes(s, u, x, y) && u in s.playerColors
    requires s.gameMode == PVE && u == s.hostUserId && u != AI_USER
    ensures var (r, reply) := Play(s, u, x, y, choice, now);
      var c := s.playerColors[u];
      var mine := Set(s.board, (x, y), c);
      && reply.Moved? && reply.color == c
      && (EndOf(mine).isEnd ==>
            && r.board == mine && r.moveHistory == s.moveHistory + [RoomMove(x, y, u, c, now)]
            && reply.ended.Some? && !r.gameActive)
      && (!EndOf(mine).isEnd ==>
            && reply.ended.None?
            && r.board == Set(mine, choice, WHITE)
            && r.moveHistory == s.moveHistory + [RoomMove(x, y, u, c, now), RoomMove(choice.0, choice.1, AI_USER, WHITE, now)]
            && (EndOf(r.board).isEnd <==> !r.gameActive)
            && (r.gameActive ==> r.currentPlayer == u))
  {
    var c := s.playerColors[u];
    var t := Stone(s, x, y, u, c, now);
    assert t.board == Set(s.board, (x, y), c);
    if !EndOf(t.board).isEnd {
      assert (t.moveHistory + [RoomMove(choice.0, choice.1, AI_USER, WHITE, now)])
        == s.moveHistory + [RoomMove(x, y, u, c, now), RoomMove(choice.0, choice.1, AI_USER, WHITE, now)];
    }
  }

  /**
   * A room that is not PVP never starts: joining is refused, leaving stops
   * the game, and every placement is refused while the game is not
   * running. So a PVE room's game never becomes active.
   */
  lemma DormantUnlessPvp(s: RoomState, u: string, c: string, x: int, y: int, choice: Pos, now: real)
    requires Valid(s) && s.gameMode != PVP && !s.gameActive && InBounds(BOARD_SIZE, choice)
    ensures !Join(s, u, c, now).gameActive && !Leave(s, u, now).gameActive
    ensures !Play(s, u, x, y, choice, now).0.gameActive
  {
  }

  /** A room's mutable state, held in fields and changed as Join, Leave and Play say. */
  class Room {
    const roomId: string
    const hostUserId: string
    const gameMode: string
    const aiLevel: string
    /** The players dict: its keys in join order, and user id to client id. */
    var order: seq<string>
    var players: map<string, string>
    var playerColors: map<string, int>
    var currentPlayer: string
    var board: Board
    var moveHistory: seq<RoomMove>
    var gameActive: bool
    var gameResult: Option<RoomResult>
    var startTime: real
    var lastMoveTime: real
    var lastMemberChangeTime: real

    function State(): RoomState
      reads this
    {
      RoomState(roomId, hostUserId, gameMode, aiLevel, order, players, playerColors, currentPlayer,
        board, moveHistory, gameActive, gameResult, startTime, lastMoveTime, lastMemberChangeTime)
    }

    constructor (id: string, host: string, hostClient: string, mode: string, level: string, now: real)
      ensures State() == NewRoom(id, host, hostClient, mode, level, now)
    {
      roomId, hostUserId, gameMode, aiLevel := id, host, mode, level;
      order, players, playerColors := [host], map[host := hostClient], map[host := BLACK];
      currentPlayer := host;
      board := EmptyBoard(BOARD_SIZE);
      moveHistory := [];
      gameActive, gameResult := false, None;
      startTime, lastMoveTime, lastMemberChangeTime := now, now, now;
    }

    predicate IsFull()
      reads this
      ensures IsFull() ==> |order| >= 1
      ensures |order| >= 2 ==> IsFull()
    {
      Full(State())
    }

    function MemberList(): (ms: seq<string>)
      reads this
      ensures Valid(State()) ==> Distinct(ms) && forall u :: u in ms <==> u in players
    {
      order
    }

    function PeerClientId(u: string): (r: Option<string>)
      reads this
      requires Valid(State())
      ensures r.None? <==> forall v :: v in order ==> v == u
      ensures r.Some? ==> exists v :: v in players && v != u && players[v] == r.value
    {
      PeerOf(State(), u)
    }

    function IncrementalData(t: real): (r: seq<RoomMove>)
      reads this
      ensures forall m :: m in r <==> m in moveHistory && m.timestamp > t
    {
      Since(moveHistory, t)
    }

    method AddPlayer(u: string, c: string, now: real)
      modifies this`order, this`players, this`playerColors, this`lastMemberChangeTime
      modifies this`gameActive, this`gameResult, this`startTime, this`lastMoveTime
      ensures State() == Join(old(State()), u, c, now)
    {
      if gameMode != PVP || |order| >= 2 {
        return;
      }
      if u !in players {
        order := order + [u];
      }
      players := players[u := c];
      playerColors := playerColors[u := WHITE];
      lastMemberChangeTime := now;
      if |order| == 2 {
        StartGame(now);
      }
    }

    method StartGame(now: real)
      modifies this`gameActive, this`gameResult, this`startTime, this`lastMoveTime
      ensures State() == Started(old(State()), now)
    {
      gameActive, gameResult := true, None;
      startTime, lastMoveTime := now, now;
    }

    method RemovePlayer(u: string, now: real)
      modifies this`order, this`players, this`playerColors, this`lastMemberChangeTime
      modifies this`gameActive, this`gameResult
      ensures State() == Leave(old(State()), u, now)
    {
      if u in players {
        order := Without(order, u);
        players := players - {u};
        if u in playerColors {
          playerColors := playerColors - {u};
        }
        lastMemberChangeTime := now;
        gameActive := false;
        gameResult := Some(Abandoned("none", PLAYER_LEFT));
      }
    }

    method PlacePiece(u: string, x: int, y: int, choice: Pos, now: real) returns (reply: Reply)
      requires Valid(State()) && InBounds(BOARD_SIZE, choice)
      requires Passes(State(), u, x, y) ==> u in playerColors
      modifies this`currentPlayer, this`board, this`moveHistory, this`gameActive, this`gameResult, this`lastMoveTime
      ensures (State(), reply) == Play(old(State()), u, x, y, choice, now)
    {
      if !gameActive {
        return Refused(NOT_STARTED);
      }
      if u != currentPlayer {
        return Refused(NOT_YOUR_TURN);
      }
      if !(0 <= x < BOARD_SIZE && 0 <= y < BOARD_SIZE) {
        return Refused(OUT_OF_RANGE);
      }
      if board[x][y] != EMPTY {
        return Refused(OCCUPIED);
      }
      var c := playerColors[u];
      PutStone(x, y, u, c, now);
      var end := GobangCore.CheckGameEnd(board, BOARD_SIZE);
      reply := Conclude(c, end, choice, now);
    }

    /** The stone at (x, y) and its history entry. */
    method PutStone(x: int, y: int, u: string, c: int, now: real)
      requires IsSquare(board, BOARD_SIZE) && InBounds(BOARD_SIZE, (x, y))
      modifies this`board, this`moveHistory, this`lastMoveTime
      ensures State() == Stone(old(State()), x, y, u, c, now)
    {
      board := GobangCore.PlacePiece(board, BOARD_SIZE, x, y, c);
      moveHistory := moveHistory + [RoomMove(x, y, u, c, now)];
      lastMoveTime := now;
    }

    /** The game ends with the check's result, or the turn switches and in PVE the AI answers. */
    method Conclude(c: int, end: GameEndResult, choice: Pos, now: real) returns (reply: Reply)
      requires Valid(State()) && InBounds(BOARD_SIZE, choice) && currentPlayer in order
      modifies this`currentPlayer, this`board, this`moveHistory, this`gameActive, this`gameResult, this`lastMoveTime
      ensures (State(), reply) == Settle(old(State()), c, end, choice, now)
    {
      if end.isEnd {
        var res := Finished(ColorLabel(end.winner), end.winLine, |moveHistory|, now - startTime);
        gameActive, gameResult := false, Some(res);
        return Moved(c, Some(res));
      }
      SwitchTurn();
      if gameMode == PVE && currentPlayer == AI_USER {
        AiMove(choice, now);
      }
      reply := Moved(c, None);
    }

    method SwitchTurn()
      requires gameMode != PVE ==> currentPlayer in order
      modifies this`currentPlayer
      ensures State() == old(State()).(currentPlayer := NextTurn(old(State())))
    {
      if gameMode == PVE {
        currentPlayer := if currentPlayer == hostUserId then AI_USER else hostUserId;
      } else {
        var i := IndexIn(order, currentPlayer);
        currentPlayer := order[(i + 1) % |order|];
      }
    }

    /** ai_move with the AI's choice given. */
    method AiMove(choice: Pos, now: real)
      requires IsSquare(board, BOARD_SIZE) && InBounds(BOARD_SIZE, choice)
      modifies this`currentPlayer, this`board, this`moveHistory, this`gameActive, this`gameResult, this`lastMoveTime
      ensures State() == AiAnswer(old(State()), choice, now)
    {
      if !gameActive || gameMode != PVE {
        return;
      }
      PutStone(choice.0, choice.1, AI_USER, WHITE, now);
      var end := GobangCore.CheckGameEnd(board, BOARD_SIZE);
      AiConclude(end, now);
    }

    /** After the AI's stone: the game ends with the AI or the host named, or the turn returns to the host. */
    method AiConclude(end: GameEndResult, now: real)
      modifies this`currentPlayer, this`gameActive, this`gameResult
      ensures State() == AiSettle(old(State()), end, now)
    {
      if end.isEnd {
        gameActive := false;
        gameResult := Some(Finished(AiWinnerAsWritten(hostUserId, end.winner), end.winLine, |moveHistory|, now - startTime));
      } else {
        currentPlayer := hostUserId;
      }
    }
  }
}
