/**
 * The stored leaderboard: records completed from defaults, placed at the
 * user's existing index or appended, then sorted by Elo score, highest
 * first, and renumbered. Reading and writing the JSON files is left to the
 * caller; the clock is a parameter.
 */
module RankingStore {
  import opened Wrappers
  import Standings

  /** The default nickname, "anonymous user". */
  const DEFAULT_NICKNAME: string := "匿名用户"
  const DEFAULT_ELO: int := 1500

  datatype StoredPlayer = StoredPlayer(userId: string, nickname: string, eloScore: int, winCount: int, loseCount: int,
                                       drawCount: int, totalGames: int, winRate: real, rank: int, lastUpdate: int)

  /**
   * The fields of user_data the record takes; user_id, last_update,
   * total_games and win_rate are set afterwards. Any other key of user_data
   * is not modelled.
   */
  datatype UserData = UserData(nickname: Option<string>, eloScore: Option<int>, winCount: Option<int>,
                               loseCount: Option<int>, drawCount: Option<int>)

  function Or<T>(o: Option<T>, default: T): T
  {
    if o.Some? then o.value else default
  }

  /**
   * The record update_ranking stores: the defaults overridden by user_data,
   * with the user id, the time, the game total and the win rate (percent,
   * not rounded here) set afterwards.
   */
  function Completed(userId: string, data: UserData, now: int): (p: StoredPlayer)
    ensures p.userId == userId && p.lastUpdate == now && p.rank == 0
    ensures p.nickname == Or(data.nickname, DEFAULT_NICKNAME) && p.eloScore == Or(data.eloScore, DEFAULT_ELO)
    ensures p.winCount == Or(data.winCount, 0) && p.loseCount == Or(data.loseCount, 0) && p.drawCount == Or(data.drawCount, 0)
    ensures p.totalGames == p.winCount + p.loseCount + p.drawCount
    ensures p.totalGames <= 0 ==> p.winRate == 0.0
    ensures p.totalGames > 0 ==> p.winRate * p.totalGames as real == p.winCount as real * 100.0
  {
    var wins := Or(data.winCount, 0);
    var total := wins + Or(data.loseCount, 0) + Or(data.drawCount, 0);
    StoredPlayer(userId, Or(data.nickname, DEFAULT_NICKNAME), Or(data.eloScore, DEFAULT_ELO), wins,
                 Or(data.loseCount, 0), Or(data.drawCount, 0), total,
                 if total > 0 then wins as real / total as real * 100.0 else 0.0, 0, now)
  }

  /** The index of the user's first entry, or -1. */
  method FindIndex(ranking: seq<StoredPlayer>, userId: string) returns (index: int)
    ensures -1 <= index < |ranking|
    ensures index == -1 <==> forall i :: 0 <= i < |ranking| ==> ranking[i].userId != userId
    ensures index >= 0 ==> ranking[index].userId == userId && forall i :: 0 <= i < index ==> ranking[i].userId != userId
  {
    index := -1;
    var i := 0;
    while i < |ranking|
      invariant 0 <= i <= |ranking|
      invariant forall k :: 0 <= k < i ==> ranking[k].userId != userId
    {
      if ranking[i].userId == userId {
        index := i;
        return;
      }
      i := i + 1;
    }
  }

  /** The list with the record put in place of the user's first entry, or appended when there is none. */
  function Placed(ranking: seq<StoredPlayer>, p: StoredPlayer): (r: seq<StoredPlayer>)
    ensures (exists i :: 0 <= i < |ranking| && ranking[i].userId == p.userId) ==> |r| == |ranking|
    ensures (forall i :: 0 <= i < |ranking| ==> ranking[i].userId != p.userId) ==> r == ranking + [p]
    ensures p in r
  {
    if ranking == [] then [p]
    else if ranking[0].userId == p.userId then [p] + ranking[1..]
    else [ranking[0]] + Placed(ranking[1..], p)
  }

  /** The list with rank i + 1 written into entry i. */
  function Ranked(s: seq<StoredPlayer>): (r: seq<StoredPlayer>)
    ensures |r| == |s| && forall i :: 0 <= i < |s| ==> r[i] == s[i].(rank := i + 1)
  {
    seq(|s|, i requires 0 <= i < |s| => s[i].(rank := i + 1))
  }

  function ByElo(s: seq<StoredPlayer>): seq<StoredPlayer>
  {
    Standings.SortDesc(s, (p: StoredPlayer) => p.eloScore)
  }

  /** update_ranking's new list. */
  function Updated(ranking: seq<StoredPlayer>, userId: string, data: UserData, now: int): seq<StoredPlayer>
  {
    Ranked(ByElo(Placed(ranking, Completed(userId, data, now))))
  }

  /**
   * After update_ranking the list is sorted by Elo score, highest first,
   * with ranks 1 to n in list order; it holds the completed record and, up
   * to ranks, exactly the entries of the old list with the user's first
   * entry replaced or the record appended.
   */
  lemma UpdatedSpec(ranking: seq<StoredPlayer>, userId: string, data: UserData, now: int)
    ensures var r := Updated(ranking, userId, data, now);
      var placed := Placed(ranking, Completed(userId, data, now));
      && |r| == |placed|
      && (forall i :: 0 <= i < |r| ==> r[i].rank == i + 1)
      && (forall i, j :: 0 <= i < j < |r| ==> r[i].eloScore >= r[j].eloScore)
      && multiset(Standings.Map(r, Unrank)) == multiset(Standings.Map(placed, Unrank))
      && exists i :: 0 <= i < |r| && r[i] == Completed(userId, data, now).(rank := i + 1)
  {
    var p := Completed(userId, data, now);
    var placed := Placed(ranking, p);
    var sorted := ByElo(placed);
    Standings.SortDescSpec(placed, (p: StoredPlayer) => p.eloScore);
    var r := Ranked(sorted);
    assert Standings.Map(r, Unrank) == Standings.Map(sorted, Unrank);
    Standings.MapPermutes(sorted, placed, Unrank);
    assert p in multiset(sorted);
    var i :| 0 <= i < |sorted| && sorted[i] == p;
    assert r[i] == p.(rank := i + 1);
  }

  function Unrank(p: StoredPlayer): StoredPlayer
  {
    p.(rank := 0)
  }

  /** update_ranking: find the user, complete the record, place it, sort by score and renumber. */
  method UpdateRanking(ranking: seq<StoredPlayer>, userId: string, data: UserData, now: int) returns (r: seq<StoredPlayer>)
    ensures r == Updated(ranking, userId, data, now)
  {
    var index := FindIndex(ranking, userId);
    var p := Completed(userId, data, now);
    var placed: seq<StoredPlayer>;
    if index >= 0 {
      placed := ranking[index := p];
      PlacedAt(ranking, p, index);
    } else {
      placed := ranking + [p];
    }
    var sorted := ByElo(placed);
    r := Renumber(sorted);
  }

  /** Placing replaces exactly the first entry of the user. */
  lemma {:induction false} PlacedAt(ranking: seq<StoredPlayer>, p: StoredPlayer, index: nat)
    requires index < |ranking| && ranking[index].userId == p.userId
    requires forall i :: 0 <= i < index ==> ranking[i].userId != p.userId
    ensures Placed(ranking, p) == ranking[index := p]
  {
    if index > 0 {
      PlacedAt(ranking[1..], p, index - 1);
      assert ranking[1..][index - 1 := p] == ranking[index := p][1..];
    }
  }

  /** The loop `for i, player in enumerate(ranking): player['rank'] = i + 1`. */
  method Renumber(s: seq<StoredPlayer>) returns (r: seq<StoredPlayer>)
    ensures r == Ranked(s)
  {
    r := s;
    var i := 0;
    while i < |r|
      invariant 0 <= i <= |r| == |s|
      invariant forall k :: 0 <= k < i ==> r[k] == s[k].(rank := k + 1)
      invariant forall k :: i <= k < |r| ==> r[k] == s[k]
    {
      r := r[i := r[i].(rank := i + 1)];
      i := i + 1;
    }
  }

  /** One row of get_top_ranking; the time is left as seconds rather than formatted. */
  datatype TopEntry = TopEntry(rank: int, nickname: string, eloScore: int, winRate: real, totalGames: int, lastUpdate: int)

  /** get_top_ranking: the key fields of ranking[:top_n], in list order. */
  function TopRanking(ranking: seq<StoredPlayer>, topN: int): (r: seq<TopEntry>)
    ensures |r| == |Standings.Prefix(ranking, topN)| && (topN >= 0 ==> |r| <= topN)
    ensures forall i :: 0 <= i < |r| ==>
      && r[i].rank == ranking[i].rank && r[i].nickname == ranking[i].nickname && r[i].eloScore == ranking[i].eloScore
      && r[i].winRate == ranking[i].winRate && r[i].totalGames == ranking[i].totalGames && r[i].lastUpdate == ranking[i].lastUpdate
  {
    var head := Standings.Prefix(ranking, topN);
    seq(|head|, i requires 0 <= i < |head| =>
      TopEntry(head[i].rank, head[i].nickname, head[i].eloScore, head[i].winRate, head[i].totalGames, head[i].lastUpdate))
  }

  /** Right after an update, the top entries are the highest scores in order, numbered 1, 2, ... */
  lemma TopAfterUpdate(ranking: seq<StoredPlayer>, userId: string, data: UserData, now: int, topN: int)
    ensures var top := TopRanking(Updated(ranking, userId, data, now), topN);
      && (forall i :: 0 <= i < |top| ==> top[i].rank == i + 1)
      && (forall i, j :: 0 <= i < j < |top| ==> top[i].eloScore >= top[j].eloScore)
  {
    UpdatedSpec(ranking, userId, data, now);
  }
}
