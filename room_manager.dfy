/**
 * The server's room registry: rooms stored under fresh ids "room_<n>",
 * joining and leaving, clean-up when a client disconnects, move dispatch,
 * and closing rooms on shutdown or after a period without activity. Rooms
 * are held as values (RoomState) in the registry's map.
 */
module RoomRegistry {
  import opened Wrappers
  import opened Constants
  import opened Boards
  import Strings
  import opened Rooms

  /** The counter's start: the first id issued is room_1001. */
  const FIRST_COUNTER: nat := 1000
  /** Seconds without a move or a membership change after which a room is closed. */
  const ROOM_TIMEOUT: real := 300.0

  const NO_ROOM: string := "房间不存在"
  const ROOM_FULL: string := "房间已满"
  const ALREADY_IN: string := "已在房间内"
  const NOT_IN: string := "不在房间内"
  const CANNOT_PLACE: string := "不在房间内，无法落子"

  function RoomId(k: nat): string
  {
    "room_" + Strings.NatToString(k)
  }

  /** Different counter values give different room ids. */
  lemma RoomIdInjective(a: nat, b: nat)
    requires RoomId(a) == RoomId(b)
    ensures a == b
  {
    assert Strings.NatToString(a) == RoomId(a)[5..];
    assert Strings.NatToString(b) == RoomId(b)[5..];
    Strings.NatToStringInjective(a, b);
  }

  /** create_room's mode: a known mode is kept, anything else becomes PVE. */
  function ModeOf(m: string): (r: string)
    ensures r in GameModes()
    ensures m in GameModes() ==> r == m
  {
    if m in GameModes() then m else PVE
  }

  /** create_room's level: a known level is kept, anything else becomes HARD. */
  function LevelOf(l: string): (r: string)
    ensures r in AiLevels()
    ensures l in AiLevels() ==> r == l
  {
    if l in AiLevels() then l else HARD
  }

  ghost predicate Issued(id: string, counter: nat)
  {
    exists k: nat :: FIRST_COUNTER < k <= counter && id == RoomId(k)
  }

  /**
   * The registry invariant: every room is a valid room stored under its
   * own id, an id the counter has already issued, with a known mode; and a
   * room that is not PVP has never started.
   */
  ghost predicate Registered(rooms: map<string, RoomState>, counter: nat)
  {
    counter >= FIRST_COUNTER && forall id :: id in rooms ==> RoomOk(id, rooms[id], counter)
  }

  ghost predicate RoomOk(id: string, s: RoomState, counter: nat)
  {
    && Issued(id, counter) && Rooms.Valid(s) && s.roomId == id && |s.order| >= 1
    && s.gameMode in GameModes() && (s.gameMode != PVP ==> !s.gameActive)
  }

  /** The next id is not among those issued so far. */
  lemma NextIdFresh(counter: nat, id: string)
    requires Issued(id, counter)
    ensures id != RoomId(counter + 1)
  {
    var k: nat :| FIRST_COUNTER < k <= counter && id == RoomId(k);
    if id == RoomId(counter + 1) {
      RoomIdInjective(k, counter + 1);
    }
  }

  /** add_player_to_room: refused for a missing room, a full room, or a member; otherwise the room's add_player. */
  function JoinRoom(rooms: map<string, RoomState>, id: string, u: string, c: string, now: real)
    : (r: (map<string, RoomState>, Result<RoomState>))
    ensures r.1.Err? ==> r.0 == rooms
    ensures r.1.Ok? ==> id in rooms && r.0 == rooms[id := r.1.value]
  {
    if id !in rooms then (rooms, Err(NO_ROOM))
    else if Full(rooms[id]) then (rooms, Err(ROOM_FULL))
    else if u in rooms[id].players then (rooms, Err(ALREADY_IN))
    else
      var s := Join(rooms[id], u, c, now);
      (rooms[id := s], Ok(s))
  }

  /** remove_player_from_room: refused for a missing room or a non-member; a room left empty is deleted and reported as none. */
  function LeaveRoom(rooms: map<string, RoomState>, id: string, u: string, now: real)
    : (r: (map<string, RoomState>, Result<Option<RoomState>>))
    ensures r.1.Err? ==> r.0 == rooms
  {
    if id !in rooms then (rooms, Err(NO_ROOM))
    else if u !in rooms[id].players then (rooms, Err(NOT_IN))
    else
      var s := Leave(rooms[id], u, now);
      if |s.order| == 0 then (rooms - {id}, Ok(None)) else (rooms[id := s], Ok(Some(s)))
  }

  /** handle_piece_placement: refused for a missing room, a non-member, or a game not running; otherwise the room decides. */
  function PlayIn(rooms: map<string, RoomState>, id: string, u: string, x: int, y: int, choice: Pos, now: real)
    : (r: (map<string, RoomState>, Result<Reply>))
    requires id in rooms ==> Rooms.Valid(rooms[id])
    requires InBounds(BOARD_SIZE, choice)
    ensures r.1.Err? ==> r.0 == rooms
  {
    if id !in rooms then (rooms, Err(NO_ROOM))
    else if u !in rooms[id].players then (rooms, Err(CANNOT_PLACE))
    else if !rooms[id].gameActive then (rooms, Err(NOT_STARTED))
    else
      var (s, reply) := Play(rooms[id], u, x, y, choice, now);
      (rooms[id := s], Ok(reply))
  }

  /** The first member, in join order, connected through client; none when no member is. */
  function MemberOf(s: RoomState, client: string): (r: Option<string>)
    ensures r.Some? ==> r.value in s.players && s.players[r.value] == client
    ensures r.None? ==> forall u :: u in s.order && u in s.players ==> s.players[u] != client
  {
    FirstWith(s.order, s.players, client)
  }

  function FirstWith(ids: seq<string>, players: map<string, string>, client: string): (r: Option<string>)
    ensures r.Some? ==> r.value in ids && r.value in players && players[r.value] == client
    ensures r.None? ==> forall u :: u in ids && u in players ==> players[u] != client
  {
    if ids == [] then None
    else if ids[0] in players && players[ids[0]] == client then Some(ids[0])
    else FirstWith(ids[1..], players, client)
  }

  /**
   * One room after its client disconnects: the member found through the
   * client leaves, unless there is none or its id is the empty string, which
   * Python's truth test skips.
   */
  function Dropped(s: RoomState, client: string, now: real): RoomState
  {
    match MemberOf(s, client)
    case Some(u) => if u != "" then Leave(s, u, now) else s
    case None => s
  }

  /** Whether the disconnect empties the room, which is then deleted. */
  predicate Emptied(s: RoomState, client: string, now: real)
  {
    MemberOf(s, client).Some? && MemberOf(s, client).value != "" && |Dropped(s, client, now).order| == 0
  }

  /** remove_client_from_all_rooms: every room drops the client's member, and rooms left empty are deleted. */
  function Disconnected(rooms: map<string, RoomState>, client: string, now: real): (r: map<string, RoomState>)
    ensures forall id :: id in r <==> id in rooms && !Emptied(rooms[id], client, now)
  {
    map id | id in rooms && !Emptied(rooms[id], client, now) :: Dropped(rooms[id], client, now)
  }

  /** The seconds since a room's last move or membership change. */
  function Idle(s: RoomState, now: real): real
  {
    now - (if s.lastMoveTime >= s.lastMemberChangeTime then s.lastMoveTime else s.lastMemberChangeTime)
  }

  /** _cleanup_timeout_rooms: exactly the rooms idle longer than the timeout are removed. */
  function Cleaned(rooms: map<string, RoomState>, now: real): (r: map<string, RoomState>)
    ensures forall id :: id in r <==> id in rooms && Idle(rooms[id], now) <= ROOM_TIMEOUT
    ensures forall id :: id in r ==> r[id] == rooms[id]
  {
    map id | id in rooms && Idle(rooms[id], now) <= ROOM_TIMEOUT :: rooms[id]
  }

  /** A room survives a disconnect unless the disconnect empties it, and a member other than the client's stays. */
  lemma DisconnectKeeps(rooms: map<string, RoomState>, client: string, now: real, id: string, v: string)
    requires id in rooms && Rooms.Valid(rooms[id]) && v in rooms[id].players && rooms[id].players[v] != client
    ensures id in Disconnected(rooms, client, now) && v in Disconnected(rooms, client, now)[id].players
  {
    var s := rooms[id];
    match MemberOf(s, client)
    case None =>
    case Some(u) =>
      assert u != v;
      if u != "" {
        assert v in Leave(s, u, now).order;
      }
  }

  /** After a disconnect no remaining room still has the member found through the client. */
  lemma DisconnectRemoves(rooms: map<string, RoomState>, client: string, now: real, id: string)
    requires id in rooms && Rooms.Valid(rooms[id])
    requires MemberOf(rooms[id], client).Some? && MemberOf(rooms[id], client).value != ""
    ensures id in Disconnected(rooms, client, now) ==>
      MemberOf(rooms[id], client).value !in Disconnected(rooms, client, now)[id].players
  {
  }

  /** Leaving a room deletes it exactly when the leaver was its last member. */
  lemma LeaveDeletesLast(rooms: map<string, RoomState>, id: string, u: string, now: real)
    requires id in rooms && Rooms.Valid(rooms[id]) && u in rooms[id].players
    ensures var (after, r) := LeaveRoom(rooms, id, u, now);
      && r.Ok?
      && (r.value.None? <==> rooms[id].order == [u])
      && (r.value.None? ==> id !in after)
      && (r.value.Some? ==> id in after && u !in after[id].players && !after[id].gameActive)
  {
    var s := rooms[id];
    assert u in s.order;
    if s.order == [u] {
      assert Without(s.order, u) == [];
    } else {
      var v := if s.order[0] != u then s.order[0] else s.order[1];
      assert v in Without(s.order, u);
    }
  }

  /**
   * A join that passes the registry's checks adds the player only to a PVP
   * room; in any other room with space (an online or training room with
   * one member) it is reported as a success yet leaves the members as they
   * were.
   */
  lemma JoinEffect(rooms: map<string, RoomState>, id: string, u: string, c: string, now: real)
    requires id in rooms && Rooms.Valid(rooms[id]) && |rooms[id].order| >= 1
    ensures var (after, r) := JoinRoom(rooms, id, u, c, now);
      r.Ok? ==>
        && (rooms[id].gameMode == PVP ==>
              && u in r.value.players && r.value.playerColors[u] == WHITE
              && r.value.order == rooms[id].order + [u] && r.value.gameActive)
        && (rooms[id].gameMode != PVP ==> r.value == rooms[id] && u !in r.value.players)
  {
  }

  /** A registry operation, as a server request would issue it. */
  datatype Request =
    | Create(host: string, hostClient: string, mode: string, level: string)
    | AddTo(id: string, u: string, c: string)
    | RemoveFrom(id: string, u: string)
    | Disconnect(client: string)
    | PlaceIn(id: string, u: string, x: int, y: int, choice: Pos)
    | CloseAll
    | Cleanup

  /** The registry after one request at time now. */
  function Step(rooms: map<string, RoomState>, counter: nat, q: Request, now: real): (r: (map<string, RoomState>, nat))
    requires Registered(rooms, counter)
    ensures Registered(r.0, r.1)
  {
    match q
    case Create(host, hostClient, mode, level) =>
      var id := RoomId(counter + 1);
      CreateKeeps(rooms, counter, NewRoom(id, host, hostClient, ModeOf(mode), LevelOf(level), now));
      (rooms[id := NewRoom(id, host, hostClient, ModeOf(mode), LevelOf(level), now)], counter + 1)
    case AddTo(id, u, c) =>
      JoinKeeps(rooms, counter, id, u, c, now);
      (JoinRoom(rooms, id, u, c, now).0, counter)
    case RemoveFrom(id, u) =>
      LeaveKeeps(rooms, counter, id, u, now);
      (LeaveRoom(rooms, id, u, now).0, counter)
    case Disconnect(client) =>
      DisconnectKeepsInvariant(rooms, counter, client, now);
      (Disconnected(rooms, client, now), counter)
    case PlaceIn(id, u, x, y, choice) =>
      if InBounds(BOARD_SIZE, choice) then
        PlayKeeps(rooms, counter, id, u, x, y, choice, now);
        (PlayIn(rooms, id, u, x, y, choice, now).0, counter)
      else (rooms, counter)
    case CloseAll => (map[], counter)
    case Cleanup => (Cleaned(rooms, now), counter)
  }

  /** Any run of requests from the empty registry keeps the invariant: in particular no PVE room ever starts. */
  lemma {:induction false} RunKeeps(qs: seq<Request>, times: seq<real>, rooms: map<string, RoomState>, counter: nat)
    requires Registered(rooms, counter) && |times| == |qs|
    ensures Registered(Run(qs, times, rooms, counter).0, Run(qs, times, rooms, counter).1)
    decreases |qs|
  {
    if qs != [] {
      var next := Step(rooms, counter, qs[0], times[0]);
      RunKeeps(qs[1..], times[1..], next.0, next.1);
    }
  }

  function Run(qs: seq<Request>, times: seq<real>, rooms: map<string, RoomState>, counter: nat): (map<string, RoomState>, nat)
    requires Registered(rooms, counter) && |times| == |qs|
    decreases |qs|
  {
    if qs == [] then (rooms, counter)
    else
      var next := Step(rooms, counter, qs[0], times[0]);
      Run(qs[1..], times[1..], next.0, next.1)
  }

  lemma IssuedGrows(id: string, counter: nat)
    requires Issued(id, counter)
    ensures Issued(id, counter + 1)
  {
    var k: nat :| FIRST_COUNTER < k <= counter && id == RoomId(k);
    assert FIRST_COUNTER < k <= counter + 1 && id == RoomId(k);
  }

  lemma CreateKeeps(rooms: map<string, RoomState>, counter: nat, s: RoomState)
    requires Registered(rooms, counter) && s.roomId == RoomId(counter + 1) && Rooms.Valid(s)
    requires s.gameMode in GameModes() && !s.gameActive && |s.order| >= 1
    ensures Registered(rooms[RoomId(counter + 1) := s], counter + 1)
  {
    var id := RoomId(counter + 1);
    assert Issued(id, counter + 1) by {
      assert FIRST_COUNTER < counter + 1 <= counter + 1;
    }
    forall j | j in rooms ensures Issued(j, counter + 1) {
      IssuedGrows(j, counter);
    }
  }

  lemma JoinKeeps(rooms: map<string, RoomState>, counter: nat, id: string, u: string, c: string, now: real)
    requires Registered(rooms, counter)
    ensures Registered(JoinRoom(rooms, id, u, c, now).0, counter)
  {
    if id in rooms && !Full(rooms[id]) && u !in rooms[id].players && rooms[id].gameMode != PVP {
      DormantUnlessPvp(rooms[id], u, c, 0, 0, (0, 0), now);
    }
  }

  lemma LeaveKeeps(rooms: map<string, RoomState>, counter: nat, id: string, u: string, now: real)
    requires Registered(rooms, counter)
    ensures Registered(LeaveRoom(rooms, id, u, now).0, counter)
  {
  }

  lemma DisconnectKeepsInvariant(rooms: map<string, RoomState>, counter: nat, client: string, now: real)
    requires Registered(rooms, counter)
    ensures Registered(Disconnected(rooms, client, now), counter)
  {
  }

  lemma PlayKeeps(rooms: map<string, RoomState>, counter: nat, id: string, u: string, x: int, y: int, choice: Pos, now: real)
    requires Registered(rooms, counter) && InBounds(BOARD_SIZE, choice)
    ensures Registered(PlayIn(rooms, id, u, x, y, choice, now).0, counter)
  {
  }

  /** The registry's state, held in fields and changed as Step says. */
  class RoomManager {
    var rooms: map<string, RoomState>
    var roomIdCounter: nat

    ghost predicate Valid()
      reads this
    {
      Registered(rooms, roomIdCounter)
    }

    constructor ()
      ensures Valid() && rooms == map[] && roomIdCounter == FIRST_COUNTER
    {
      rooms := map[];
      roomIdCounter := FIRST_COUNTER;
    }

    /** _generate_room_id: the counter goes up by one and names the new id. */
    method GenerateRoomId() returns (id: string)
      modifies this`roomIdCounter
      ensures roomIdCounter == old(roomIdCounter) + 1 && id == RoomId(roomIdCounter)
    {
      roomIdCounter := roomIdCounter + 1;
      id := RoomId(roomIdCounter);
    }

    /** create_room: a new room under an id no room has, with its mode and level normalised. */
    method CreateRoom(host: string, hostClient: string, mode: string, level: string, now: real) returns (id: string)
      requires Valid()
      modifies this`rooms, this`roomIdCounter
      ensures Valid()
      ensures roomIdCounter == old(roomIdCounter) + 1 && id == RoomId(roomIdCounter) && id !in old(rooms)
      ensures rooms == old(rooms)[id := NewRoom(id, host, hostClient, ModeOf(mode), LevelOf(level), now)]
    {
      var m := if mode in GameModes() then mode else PVE;
      var l := if level in AiLevels() then level else HARD;
      id := GenerateRoomId();
      var room := NewRoom(id, host, hostClient, m, l, now);
      Admit(id, room);
    }

    /** Stores a new room under the id just issued. */
    method Admit(id: string, room: RoomState)
      requires roomIdCounter >= 1 && Registered(rooms, roomIdCounter - 1) && id == RoomId(roomIdCounter)
      requires room.roomId == id && Rooms.Valid(room) && room.gameMode in GameModes() && !room.gameActive
      requires |room.order| >= 1
      modifies this`rooms
      ensures Valid() && id !in old(rooms) && rooms == old(rooms)[id := room]
    {
      if id in rooms {
        NextIdFresh(roomIdCounter - 1, id);
      }
      CreateKeeps(rooms, roomIdCounter - 1, room);
      rooms := rooms[id := room];
    }

    method AddPlayerToRoom(id: string, u: string, c: string, now: real) returns (r: Result<RoomState>)
      requires Valid()
      modifies this`rooms
      ensures Valid()
      ensures (rooms, r) == JoinRoom(old(rooms), id, u, c, now)
    {
      JoinKeeps(rooms, roomIdCounter, id, u, c, now);
      if id !in rooms {
        return Err(NO_ROOM);
      }
      var room := rooms[id];
      if Full(room) {
        return Err(ROOM_FULL);
      }
      if u in room.players {
        return Err(ALREADY_IN);
      }
      room := Join(room, u, c, now);
      rooms := rooms[id := room];
      r := Ok(room);
    }

    method RemovePlayerFromRoom(id: string, u: string, now: real) returns (r: Result<Option<RoomState>>)
      requires Valid()
      modifies this`rooms
      ensures Valid()
      ensures (rooms, r) == LeaveRoom(old(rooms), id, u, now)
    {
      LeaveKeeps(rooms, roomIdCounter, id, u, now);
      if id !in rooms {
        return Err(NO_ROOM);
      }
      if u !in rooms[id].players {
        return Err(NOT_IN);
      }
      var room := Leave(rooms[id], u, now);
      if |room.order| == 0 {
        rooms := rooms - {id};
        return Ok(None);
      }
      rooms := rooms[id := room];
      r := Ok(Some(room));
    }

    method HandlePiecePlacement(id: string, u: string, x: int, y: int, choice: Pos, now: real) returns (r: Result<Reply>)
      requires Valid() && InBounds(BOARD_SIZE, choice)
      modifies this`rooms
      ensures Valid()
      ensures (rooms, r) == PlayIn(old(rooms), id, u, x, y, choice, now)
    {
      PlayKeeps(rooms, roomIdCounter, id, u, x, y, choice, now);
      if id !in rooms {
        return Err(NO_ROOM);
      }
      if u !in rooms[id].players {
        return Err(CANNOT_PLACE);
      }
      if !rooms[id].gameActive {
        return Err(NOT_STARTED);
      }
      var (room, reply) := Play(rooms[id], u, x, y, choice, now);
      rooms := rooms[id := room];
      r := Ok(reply);
    }

    /**
     * remove_client_from_all_rooms: each room drops the member found
     * through the client, then the rooms left empty are deleted; the
     * deleted ids are returned, one ROOM_CLOSED event each.
     */
    method RemoveClientFromAllRooms(client: string, now: real) returns (closed: set<string>)
      requires Valid()
      modifies this`rooms
      ensures Valid()
      ensures rooms == Disconnected(old(rooms), client, now)
      ensures closed == set id | id in old(rooms) && Emptied(old(rooms)[id], client, now)
    {
      DisconnectKeepsInvariant(rooms, roomIdCounter, client, now);
      var visited;
      visited, closed := DropClient(rooms, client, now);
      var kept := DeleteAll(visited, closed);
      DisconnectAssembled(rooms, client, now, visited, closed, kept);
      rooms := kept;
    }

    /** close_all_rooms: every room is deleted, one ROOM_CLOSED event each. */
    method CloseAllRooms() returns (closed: set<string>)
      requires Valid()
      modifies this`rooms
      ensures Valid() && rooms == map[]
      ensures closed == old(rooms).Keys
    {
      closed := rooms.Keys;
      rooms := DeleteAll(rooms, closed);
    }

    /** _cleanup_timeout_rooms at time now: the idle rooms are collected, then deleted, one ROOM_TIMEOUT event each. */
    method CleanupTimeoutRooms(now: real) returns (timedOut: set<string>)
      requires Valid()
      modifies this`rooms
      ensures Valid()
      ensures rooms == Cleaned(old(rooms), now)
      ensures timedOut == set id | id in old(rooms) && Idle(old(rooms)[id], now) > ROOM_TIMEOUT
    {
      CleanedKeeps(rooms, roomIdCounter, now);
      timedOut := CollectIdle(rooms, now);
      rooms := DeleteAll(rooms, timedOut);
    }
  }

  /** The first member of a room, in join order, whose client is the given one. */
  method FindMember(s: RoomState, client: string) returns (found: Option<string>)
    ensures found == MemberOf(s, client)
  {
    var i := 0;
    while i < |s.order|
      invariant 0 <= i <= |s.order|
      invariant FirstWith(s.order[i..], s.players, client) == MemberOf(s, client)
    {
      assert s.order[i..][1..] == s.order[i + 1..];
      if s.order[i] in s.players && s.players[s.order[i]] == client {
        return Some(s.order[i]);
      }
      i := i + 1;
    }
    found := None;
  }

  /** Each room drops the client's member; the ids of the rooms left empty are collected. */
  method DropClient(rooms: map<string, RoomState>, client: string, now: real)
    returns (visited: map<string, RoomState>, closed: set<string>)
    ensures visited == map id | id in rooms :: Dropped(rooms[id], client, now)
    ensures closed == set id | id in rooms && Emptied(rooms[id], client, now)
  {
    var todo := rooms.Keys;
    visited, closed := rooms, {};
    while todo != {}
      invariant todo <= rooms.Keys && visited.Keys == rooms.Keys
      invariant forall id :: id in visited ==> visited[id] == if id in todo then rooms[id] else Dropped(rooms[id], client, now)
      invariant forall id :: id in closed <==> id in rooms && id !in todo && Emptied(rooms[id], client, now)
      decreases todo
    {
      var id :| id in todo;
      var found := FindMember(rooms[id], client);
      if found.Some? && found.value != "" {
        visited := visited[id := Leave(rooms[id], found.value, now)];
        if |visited[id].order| == 0 {
          closed := closed + {id};
        }
      }
      todo := todo - {id};
    }
    assert closed == set id | id in rooms && Emptied(rooms[id], client, now);
  }

  /** The ids of the rooms idle for longer than the timeout. */
  method CollectIdle(rooms: map<string, RoomState>, now: real) returns (ids: set<string>)
    ensures ids == set id | id in rooms && Idle(rooms[id], now) > ROOM_TIMEOUT
  {
    var todo := rooms.Keys;
    ids := {};
    while todo != {}
      invariant todo <= rooms.Keys
      invariant ids == set id | id in rooms && id !in todo && Idle(rooms[id], now) > ROOM_TIMEOUT
      decreases todo
    {
      var id :| id in todo;
      if Idle(rooms[id], now) > ROOM_TIMEOUT {
        ids := ids + {id};
      }
      todo := todo - {id};
    }
  }

  /** del rooms[id] for each given id. */
  method DeleteAll(rooms: map<string, RoomState>, ids: set<string>) returns (r: map<string, RoomState>)
    ensures r == map id | id in rooms && id !in ids :: rooms[id]
  {
    var doomed := ids;
    r := rooms;
    while doomed != {}
      invariant doomed <= ids
      invariant r == map id | id in rooms && (id !in ids || id in doomed) :: rooms[id]
      decreases doomed
    {
      var id :| id in doomed;
      r := r - {id};
      doomed := doomed - {id};
    }
  }

  /** Dropping the client everywhere and then deleting the emptied rooms is the disconnect. */
  lemma DisconnectAssembled(rooms: map<string, RoomState>, client: string, now: real,
                            visited: map<string, RoomState>, closed: set<string>, kept: map<string, RoomState>)
    requires visited == map id | id in rooms :: Dropped(rooms[id], client, now)
    requires closed == set id | id in rooms && Emptied(rooms[id], client, now)
    requires kept == map id | id in visited && id !in closed :: visited[id]
    ensures kept == Disconnected(rooms, client, now)
  {
    var d := Disconnected(rooms, client, now);
    assert kept.Keys == d.Keys;
    assert forall id :: id in kept ==> kept[id] == d[id];
  }

  lemma CleanedKeeps(rooms: map<string, RoomState>, counter: nat, now: real)
    requires Registered(rooms, counter)
    ensures Registered(Cleaned(rooms, now), counter)
  {
  }
}
