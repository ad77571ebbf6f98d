/**
 * Online-game synchronisation: per room, the last board sent or received
 * (as board text), the time of the last sync, and a queue of pending
 * messages for a client that reconnects. A sync message carries the move,
 * a CRC of the current board text and, every tenth move or when the board
 * text changes length, the full board.
 */
module DataSync {
  import opened Wrappers
  import opened Boards
  import opened DataUtils

  /** The most pending messages a room keeps. */
  const PENDING_LIMIT: nat := 50
  /** A full board goes with every move whose history length is a multiple of this. */
  const FULL_SYNC_EVERY: nat := 10

  datatype SyncState = SyncState(lastSyncTimestamp: real, lastBoardStr: string, pending: seq<string>)

  /** A move as the game reports it; the history length is absent when the move carries no history. */
  datatype MoveData = MoveData(x: int, y: int, color: int, historyLength: Option<nat>)

  datatype SyncMessage = SyncMessage(kind: string, move: MoveData, timestamp: real, crc32: int, fullBoard: Option<string>)

  /** A parsed message: the move and the receiver's board after it. */
  datatype Synced = Synced(kind: string, move: MoveData, board: seq<seq<int>>, timestamp: real)

  /** init_sync_state: the initial board's text, the time, and nothing pending. */
  function Init(board: seq<seq<int>>, now: real): (st: SyncState)
    ensures st.pending == [] && st.lastSyncTimestamp == now
    ensures StrToBoard(st.lastBoardStr) == (if Readable(board) then Some(board) else None)
  {
    StrToBoardRoundTrip(board);
    SyncState(now, BoardToStr(board), [])
  }

  /** The history length a move reports: len(move_data.get('move_history', [])). */
  function HistoryLength(m: MoveData): nat
  {
    if m.historyLength.Some? then m.historyLength.value else 0
  }

  /** Whether a message carries the full board: the text's length changed, or the history length is a multiple of ten. */
  predicate NeedsFull(last: string, current: string, m: MoveData)
  {
    |last| != |current| || HistoryLength(m) % FULL_SYNC_EVERY == 0
  }

  /**
   * generate_sync_data: none for a room without sync state; otherwise a move
   * message stamped now with the CRC of the board text, with the full board
   * when NeedsFull says so (which also becomes the room's last board), and
   * the room's sync time set to now.
   */
  function Generate(st: map<string, SyncState>, room: string, board: seq<seq<int>>, m: MoveData, now: real, crc: string -> int)
    : (r: (map<string, SyncState>, Option<SyncMessage>))
    ensures r.1.None? <==> room !in st
    ensures r.1.None? ==> r.0 == st
    ensures r.1.Some? ==>
      && r.1.value.move == m && r.1.value.timestamp == now && r.1.value.crc32 == crc(BoardToStr(board))
      && (r.1.value.fullBoard.Some? <==> NeedsFull(st[room].lastBoardStr, BoardToStr(board), m))
      && (r.1.value.fullBoard.Some? ==> r.1.value.fullBoard.value == BoardToStr(board))
      && r.0.Keys == st.Keys && r.0[room].pending == st[room].pending && r.0[room].lastSyncTimestamp == now
  {
    if room !in st then (st, None)
    else
      var s := st[room];
      var current := BoardToStr(board);
      var full := NeedsFull(s.lastBoardStr, current, m);
      var msg := SyncMessage("move", m, now, crc(current), if full then Some(current) else None);
      var s' := s.(lastBoardStr := if full then current else s.lastBoardStr, lastSyncTimestamp := now);
      (st[room := s'], Some(msg))
  }

  /** Python's index into a list of length n: negative indices count from the end; None is IndexError. */
  function PyIndex(n: nat, i: int): (r: Option<nat>)
    ensures r.Some? <==> -(n as int) <= i < n
    ensures r.Some? ==> r.value < n && (i >= 0 ==> r.value == i)
  {
    if 0 <= i < n then Some(i) else if -(n as int) <= i < 0 then Some(i + n) else None
  }

  /** last_board[x][y] = color, or None where Python raises IndexError. */
  function Write(b: seq<seq<int>>, x: int, y: int, c: int): (r: Option<seq<seq<int>>>)
    ensures 0 <= x < |b| && 0 <= y < |b[x]| ==> r == Some(Set(b, (x, y), c))
  {
    match PyIndex(|b|, x)
    case None => None
    case Some(i) =>
      match PyIndex(|b[i]|, y)
      case None => None
      case Some(j) => Some(Set(b, (i, j), c))
  }

  /**
   * parse_sync_data: none when a full board fails its CRC or the room has
   * no sync state. A full message replaces the last board with its text; an
   * incremental one writes the move's colour into the last board and stores
   * the new text. A text that does not parse or a cell outside the board
   * raises, which the source turns into none; in the full case the state is
   * already updated by then.
   */
  function Parse(st: map<string, SyncState>, room: string, msg: SyncMessage, crc: string -> int)
    : (r: (map<string, SyncState>, Option<Synced>))
  {
    if msg.fullBoard.Some? && crc(msg.fullBoard.value) != msg.crc32 then (st, None)
    else if room !in st then (st, None)
    else
      var s := st[room];
      if msg.fullBoard.Some? then
        var st' := st[room := s.(lastBoardStr := msg.fullBoard.value, lastSyncTimestamp := msg.timestamp)];
        match StrToBoard(msg.fullBoard.value)
        case None => (st', None)
        case Some(b) => (st', Some(Synced(msg.kind, msg.move, b, msg.timestamp)))
      else
        match StrToBoard(s.lastBoardStr)
        case None => (st, None)
        case Some(last) =>
          match Write(last, msg.move.x, msg.move.y, msg.move.color)
          case None => (st, None)
          case Some(b) =>
            (st[room := s.(lastBoardStr := BoardToStr(b), lastSyncTimestamp := msg.timestamp)],
             Some(Synced(msg.kind, msg.move, b, msg.timestamp)))
  }

  /** Both ends refuse a room they have no sync state for. */
  lemma UnknownRoom(st: map<string, SyncState>, room: string, board: seq<seq<int>>, m: MoveData, now: real,
                    msg: SyncMessage, crc: string -> int)
    requires room !in st
    ensures Generate(st, room, board, m, now, crc) == (st, None)
    ensures Parse(st, room, msg, crc) == (st, None)
  {
  }

  /** Whether every row of a board has a cell, which is what its text needs to parse back. */
  predicate Readable(b: seq<seq<int>>)
  {
    |b| >= 1 && forall i :: 0 <= i < |b| ==> |b[i]| >= 1
  }

  /**
   * A message generated from the board after a move reaches the receiver
   * intact: when the receiver's last board is the one before the move,
   * the parsed board is the sender's board, and the receiver stores its
   * text, whether or not the full board was sent.
   */
  lemma SyncRoundTrip(sender: map<string, SyncState>, receiver: map<string, SyncState>, room: string,
                      prev: seq<seq<int>>, m: MoveData, now: real, crc: string -> int)
    requires room in sender && room in receiver && Readable(prev)
    requires receiver[room].lastBoardStr == BoardToStr(prev)
    requires 0 <= m.x < |prev| && 0 <= m.y < |prev[m.x]|
    ensures var board := Set(prev, (m.x, m.y), m.color);
      var msg := Generate(sender, room, board, m, now, crc).1.value;
      var (after, parsed) := Parse(receiver, room, msg, crc);
      && parsed == Some(Synced("move", m, board, now))
      && after[room].lastBoardStr == BoardToStr(board)
      && after[room].lastSyncTimestamp == now
  {
    var board := Set(prev, (m.x, m.y), m.color);
    var current := BoardToStr(board);
    var msg := Generate(sender, room, board, m, now, crc).1.value;
    assert msg == SyncMessage("move", m, now, crc(current), msg.fullBoard);
    assert Readable(board);
    StrToBoardRoundTrip(board);
    if msg.fullBoard.Some? {
      assert StrToBoard(msg.fullBoard.value) == Some(board);
    } else {
      StrToBoardRoundTrip(prev);
      assert StrToBoard(receiver[room].lastBoardStr) == Some(prev);
      assert Write(prev, m.x, m.y, m.color) == Some(board);
    }
  }

  /** add_pending_data on one queue: append, then drop the oldest when over the limit. */
  function Pushed(p: seq<string>, d: string): (r: seq<string>)
    ensures |p| <= PENDING_LIMIT ==> |r| <= PENDING_LIMIT
  {
    var q := p + [d];
    if |q| > PENDING_LIMIT then q[1..] else q
  }

  /** The newest PENDING_LIMIT entries of a sequence. */
  function Newest(s: seq<string>): (r: seq<string>)
    ensures |r| <= PENDING_LIMIT
  {
    if |s| > PENDING_LIMIT then s[|s| - PENDING_LIMIT..] else s
  }

  function PushAll(p: seq<string>, ds: seq<string>): seq<string>
    decreases |ds|
  {
    if ds == [] then p else PushAll(Pushed(p, ds[0]), ds[1..])
  }

  /** Any run of additions to a queue within the limit leaves exactly the newest PENDING_LIMIT entries. */
  lemma {:induction false} PushAllKeepsNewest(p: seq<string>, ds: seq<string>)
    requires |p| <= PENDING_LIMIT
    ensures PushAll(p, ds) == Newest(p + ds)
    decreases |ds|
  {
    if ds != [] {
      var q := Pushed(p, ds[0]);
      PushAllKeepsNewest(q, ds[1..]);
      assert q == Newest(p + [ds[0]]);
      NewestAppend(p + [ds[0]], ds[1..]);
      assert p + [ds[0]] + ds[1..] == p + ds;
    }
  }

  /** Keeping the newest entries first and then appending loses nothing the final cut keeps. */
  lemma NewestAppend(s: seq<string>, t: seq<string>)
    requires |s| <= PENDING_LIMIT + 1
    ensures Newest(Newest(s) + t) == Newest(s + t)
  {
    if |s| > PENDING_LIMIT {
      assert s == s[..1] + Newest(s);
      assert s + t == s[..1] + (Newest(s) + t);
    }
  }

  /** add_pending_data: a room without sync state ignores it. */
  function AddPending(st: map<string, SyncState>, room: string, d: string): (r: map<string, SyncState>)
    ensures room !in st ==> r == st
    ensures room in st ==> r == st[room := st[room].(pending := Pushed(st[room].pending, d))]
  {
    if room !in st then st else st[room := st[room].(pending := Pushed(st[room].pending, d))]
  }

  /** get_pending_data: the queue is returned and left empty; a room without sync state gives nothing. */
  function TakePending(st: map<string, SyncState>, room: string): (r: (map<string, SyncState>, seq<string>))
    ensures room !in st ==> r == (st, [])
    ensures room in st ==> r.1 == st[room].pending && r.0 == st[room := st[room].(pending := [])]
  {
    if room !in st then (st, []) else (st[room := st[room].(pending := [])], st[room].pending)
  }

  /** Taking the queue twice gives nothing the second time. */
  lemma TakeTwice(st: map<string, SyncState>, room: string)
    ensures TakePending(TakePending(st, room).0, room).1 == []
  {
  }

  /** The synchroniser's per-room state, held in a field and changed as the functions above say. */
  class DataSyncManager {
    var syncState: map<string, SyncState>

    /** Every room's queue is within the limit. */
    ghost predicate Valid()
      reads this
    {
      forall room :: room in syncState ==> |syncState[room].pending| <= PENDING_LIMIT
    }

    constructor ()
      ensures Valid() && syncState == map[]
    {
      syncState := map[];
    }

    method InitSyncState(room: string, board: seq<seq<int>>, now: real)
      requires Valid()
      modifies this
      ensures Valid() && syncState == old(syncState)[room := Init(board, now)]
    {
      syncState := syncState[room := SyncState(now, BoardToStr(board), [])];
    }

    method GenerateSyncData(room: string, board: seq<seq<int>>, m: MoveData, now: real, crc: string -> int)
      returns (msg: Option<SyncMessage>)
      requires Valid()
      modifies this
      ensures Valid() && (syncState, msg) == Generate(old(syncState), room, board, m, now, crc)
    {
      if room !in syncState {
        return None;
      }
      var s := syncState[room];
      var current := BoardToStr(board);
      var fullBoard := None;
      if |s.lastBoardStr| != |current| || HistoryLength(m) % FULL_SYNC_EVERY == 0 {
        fullBoard := Some(current);
        s := s.(lastBoardStr := current);
      }
      msg := Some(SyncMessage("move", m, now, crc(current), fullBoard));
      syncState := syncState[room := s.(lastSyncTimestamp := now)];
    }

    method ParseSyncData(room: string, msg: SyncMessage, crc: string -> int) returns (r: Option<Synced>)
      requires Valid()
      modifies this
      ensures Valid() && (syncState, r) == Parse(old(syncState), room, msg, crc)
    {
      if msg.fullBoard.Some? && crc(msg.fullBoard.value) != msg.crc32 {
        return None;
      }
      if room !in syncState {
        return None;
      }
      var s := syncState[room];
      if msg.fullBoard.Some? {
        syncState := syncState[room := s.(lastBoardStr := msg.fullBoard.value, lastSyncTimestamp := msg.timestamp)];
        var b := StrToBoard(msg.fullBoard.value);
        if b.None? {
          return None;
        }
        return Some(Synced(msg.kind, msg.move, b.value, msg.timestamp));
      }
      var last := StrToBoard(s.lastBoardStr);
      if last.None? {
        return None;
      }
      var b := Write(last.value, msg.move.x, msg.move.y, msg.move.color);
      if b.None? {
        return None;
      }
      syncState := syncState[room := s.(lastBoardStr := BoardToStr(b.value), lastSyncTimestamp := msg.timestamp)];
      r := Some(Synced(msg.kind, msg.move, b.value, msg.timestamp));
    }

    /** add_pending_data: append, and pop the oldest entry once the queue is over the limit. */
    method AddPendingData(room: string, d: string)
      requires Valid()
      modifies this
      ensures Valid() && syncState == AddPending(old(syncState), room, d)
    {
      if room !in syncState {
        return;
      }
      var p := syncState[room].pending + [d];
      if |p| > PENDING_LIMIT {
        p := p[1..];
      }
      syncState := syncState[room := syncState[room].(pending := p)];
    }

    method GetPendingData(room: string) returns (pending: seq<string>)
      requires Valid()
      modifies this
      ensures Valid() && (syncState, pending) == TakePending(old(syncState), room)
    {
      if room !in syncState {
        return [];
      }
      pending := syncState[room].pending;
      syncState := syncState[room := syncState[room].(pending := [])];
    }

    /** clear_sync_state: the room's state is gone; nothing happens for a room without one. */
    method ClearSyncState(room: string)
      requires Valid()
      modifies this
      ensures Valid() && syncState == old(syncState) - {room}
      ensures room !in old(syncState) ==> syncState == old(syncState)
    {
      if room in syncState {
        syncState := syncState - {room};
      }
    }
  }
}
