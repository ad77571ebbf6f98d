/**
 * The Elo leaderboard: per player a score, win/lose/draw counts and a
 * rank. A game moves both players' scores by K times (actual - expected),
 * counts the result, and re-ranks the list, highest score first. The
 * leaderboard is loaded and saved by the caller; the Elo expectation
 * 1 / (1 + 10^((r2 - r1) / 400)) is a floating-point power and is given.
 */
module Ranking {
  import opened Wrappers
  import Standings

  const BASE_RATING: int := 1500
  const K_FACTOR: int := 32
  /** The K factor for a player's first games. */
  const K_FACTOR_NEW: int := 40
  /** The K factor for masters. */
  const K_FACTOR_MASTER: int := 24
  /** A player with fewer games than this is new. */
  const NEW_PLAYER_GAMES: int := 20
  /** A player with at least this score is a master. */
  const MASTER_RATING: int := 2000

  datatype Player = Player(userId: string, name: string, score: int, winCount: int, loseCount: int,
                           drawCount: int, totalGames: int, lastUpdate: string, rank: int)

  /** One side's result: Some(true) won, Some(false) lost, None drew. */
  type Outcome = Option<bool>

  /** The other side's result: `not player1_win if player1_win is not None else None`. */
  function Opposite(w: Outcome): Outcome
  {
    if w.Some? then Some(!w.value) else None
  }

  /** _get_k_factor: new players 40, otherwise masters 24 and everyone else 32. */
  function KFactor(rating: int, games: int): (k: int)
    ensures k in {K_FACTOR_NEW, K_FACTOR, K_FACTOR_MASTER}
    ensures k == K_FACTOR_NEW <==> games < NEW_PLAYER_GAMES
    ensures k == K_FACTOR_MASTER <==> games >= NEW_PLAYER_GAMES && rating >= MASTER_RATING
  {
    if games < NEW_PLAYER_GAMES then K_FACTOR_NEW
    else if rating >= MASTER_RATING then K_FACTOR_MASTER
    else K_FACTOR
  }

  /** More games or a higher score never make the K factor larger. */
  lemma KFactorSettles(r1: int, g1: int, r2: int, g2: int)
    requires r1 <= r2 && g1 <= g2
    ensures KFactor(r2, g2) <= KFactor(r1, g1)
  {
  }

  /** _init_player_data: base score, no games, rank 0. */
  function InitPlayer(userId: string, name: string, now: string): (p: Player)
    ensures p.userId == userId && p.name == name && p.lastUpdate == now
    ensures p.score == BASE_RATING == 1500 && p.rank == 0
    ensures p.winCount == p.loseCount == p.drawCount == p.totalGames == 0 && p.totalGames == Tally(p)
  {
    Player(userId, name, BASE_RATING, 0, 0, 0, 0, now, 0)
  }

  /** win + lose + draw. */
  function Tally(p: Player): int
  {
    p.winCount + p.loseCount + p.drawCount
  }

  /** _update_player_stats: one more game, counted as exactly one of a win, a loss or a draw. */
  function UpdateStats(p: Player, w: Outcome): (r: Player)
    ensures r.totalGames == p.totalGames + 1 && Tally(r) == Tally(p) + 1
    ensures r.winCount == p.winCount + (if w == Some(true) then 1 else 0)
    ensures r.loseCount == p.loseCount + (if w == Some(false) then 1 else 0)
    ensures r.drawCount == p.drawCount + (if w.None? then 1 else 0)
    ensures r.(winCount := p.winCount, loseCount := p.loseCount, drawCount := p.drawCount, totalGames := p.totalGames) == p
  {
    var p' := p.(totalGames := p.totalGames + 1);
    if w.None? then p'.(drawCount := p.drawCount + 1)
    else if w.value then p'.(winCount := p.winCount + 1)
    else p'.(loseCount := p.loseCount + 1)
  }

  /** A fresh player's counts agree with its game total, and every recorded game keeps them agreeing. */
  lemma {:induction false} StatsStayConsistent(p: Player, ws: seq<Outcome>)
    requires p.totalGames == Tally(p)
    ensures UpdateAll(p, ws).totalGames == Tally(UpdateAll(p, ws)) == Tally(p) + |ws|
    decreases |ws|
  {
    if ws != [] {
      StatsStayConsistent(UpdateStats(p, ws[0]), ws[1..]);
    }
  }

  function UpdateAll(p: Player, ws: seq<Outcome>): Player
    decreases |ws|
  {
    if ws == [] then p else UpdateAll(UpdateStats(p, ws[0]), ws[1..])
  }

  /** The actual score: 1 for a win, 0 for a loss, 0.5 for a draw. */
  function ActualScore(w: Outcome): (a: real)
    ensures 0.0 <= a <= 1.0
  {
    if w == Some(true) then 1.0 else if w == Some(false) then 0.0 else 0.5
  }

  /** The two sides' actual scores add up to one, so actual2 = 1 - actual1 is the score of the opposite outcome. */
  lemma ActualScoresComplement(w: Outcome)
    ensures ActualScore(w) + ActualScore(Opposite(w)) == 1.0
  {
  }

  /** Python's round on a number: to the nearest integer, halves to the even one. */
  function RoundHalfEven(x: real): (n: int)
    ensures -0.5 <= n as real - x <= 0.5
    ensures (n as real - x == 0.5 || x - n as real == 0.5) ==> n % 2 == 0
  {
    var f := x.Floor;
    var d := x - f as real;
    if d < 0.5 then f
    else if d > 0.5 then f + 1
    else if f % 2 == 0 then f else f + 1
  }

  /** Rounding an integer plus a non-negative amount never goes below the integer; likewise upward for a non-positive one. */
  lemma RoundAround(n: int, d: real)
    ensures d >= 0.0 ==> RoundHalfEven(n as real + d) >= n
    ensures d <= 0.0 ==> RoundHalfEven(n as real + d) <= n
    ensures d == 0.0 ==> RoundHalfEven(n as real + d) == n
  {
  }

  /**
   * One side's new score: round(rating + K * (actual - expected)). It never
   * falls when the side did at least as well as expected, never rises when
   * it did at most as well, and with the difference within one moves by at
   * most the K factor.
   */
  function NewRating(rating: int, games: int, actual: real, expected: real): (r: int)
    ensures actual >= expected ==> r >= rating
    ensures actual <= expected ==> r <= rating
    ensures -1.0 <= actual - expected <= 1.0 ==> rating - KFactor(rating, games) <= r <= rating + KFactor(rating, games)
  {
    var k := KFactor(rating, games);
    var d := Weighted(k, actual - expected);
    Scaled(k, actual - expected);
    RoundAround(rating, d);
    WeightedWithinK(k, actual - expected);
    RoundHalfEven(rating as real + d)
  }

  /** K times a score difference. */
  function Weighted(k: int, d: real): real
  {
    k as real * d
  }

  /** K times a difference between -1 and 1 lies between -K and K. */
  lemma WeightedWithinK(k: int, d: real)
    requires k in {K_FACTOR_NEW, K_FACTOR, K_FACTOR_MASTER}
    ensures -1.0 <= d <= 1.0 ==> -(k as real) <= Weighted(k, d) <= k as real
  {
    if k == K_FACTOR_NEW {
      assert Weighted(k, d) == 40.0 * d;
    } else if k == K_FACTOR {
      assert Weighted(k, d) == 32.0 * d;
    } else {
      assert Weighted(k, d) == 24.0 * d;
    }
  }

  /**
   * calculate_new_ratings, given player 1's expected score; player 2
   * expects the rest. A side that scored above its expectation does not
   * lose score, one below it does not gain, and the other side moves the
   * opposite way.
   */
  function NewRatings(r1: int, r2: int, w: Outcome, g1: int, g2: int, expected1: real): (r: (int, int))
    ensures ActualScore(w) >= expected1 ==> r.0 >= r1 && r.1 <= r2
    ensures ActualScore(w) <= expected1 ==> r.0 <= r1 && r.1 >= r2
  {
    var actual1 := ActualScore(w);
    (NewRating(r1, g1, actual1, expected1), NewRating(r2, g2, 1.0 - actual1, 1.0 - expected1))
  }

  /**
   * With an expectation between 0 and 1, the winner's score never falls and
   * the loser's never rises; a draw between players who each expected half
   * leaves both scores as they were.
   */
  lemma RatingsFollowResult(r1: int, r2: int, w: Outcome, g1: int, g2: int, expected1: real)
    requires 0.0 <= expected1 <= 1.0
    ensures w == Some(true) ==> NewRatings(r1, r2, w, g1, g2, expected1).0 >= r1 && NewRatings(r1, r2, w, g1, g2, expected1).1 <= r2
    ensures w == Some(false) ==> NewRatings(r1, r2, w, g1, g2, expected1).0 <= r1 && NewRatings(r1, r2, w, g1, g2, expected1).1 >= r2
    ensures w.None? && expected1 == 0.5 ==> NewRatings(r1, r2, w, g1, g2, expected1) == (r1, r2)
  {
  }

  /** A K factor keeps the sign of what it scales. */
  lemma Scaled(k: int, d: real)
    requires k in {K_FACTOR_NEW, K_FACTOR, K_FACTOR_MASTER}
    ensures d >= 0.0 ==> Weighted(k, d) >= 0.0
    ensures d <= 0.0 ==> Weighted(k, d) <= 0.0
    ensures d == 0.0 ==> Weighted(k, d) == 0.0
  {
    if k == K_FACTOR_NEW {
      assert Weighted(k, d) == 40.0 * d;
    } else if k == K_FACTOR {
      assert Weighted(k, d) == 32.0 * d;
    } else {
      assert Weighted(k, d) == 24.0 * d;
    }
  }

  /** The leaderboard without any entry for the user: the list comprehension in _upsert_player. */
  function Without(s: seq<Player>, userId: string): seq<Player>
  {
    if s == [] then []
    else (if s[0].userId == userId then [] else [s[0]]) + Without(s[1..], userId)
  }

  /** Without drops every entry of the user and keeps every other entry as often as it occurred. */
  lemma {:induction false} WithoutCount(s: seq<Player>, userId: string)
    ensures forall q :: multiset(Without(s, userId))[q] == if q.userId == userId then 0 else multiset(s)[q]
  {
    if s != [] {
      WithoutCount(s[1..], userId);
      assert s == [s[0]] + s[1..];
    }
  }

  /** The list with rank i + 1 written into entry i. */
  function Ranked(s: seq<Player>): (r: seq<Player>)
    ensures |r| == |s| && forall i :: 0 <= i < |s| ==> r[i] == s[i].(rank := i + 1)
  {
    seq(|s|, i requires 0 <= i < |s| => s[i].(rank := i + 1))
  }

  /** An entry with its rank blanked, to compare entries whatever their position. */
  function Unrank(p: Player): Player
  {
    p.(rank := 0)
  }

  /** Sorted by score, highest first, keeping the order of equal scores. */
  function ByScore(s: seq<Player>): seq<Player>
  {
    Standings.SortDesc(s, (p: Player) => p.score)
  }

  /** _upsert_player: drop the user's old entries, add the new one, sort by score and renumber. */
  function Upserted(ranking: seq<Player>, p: Player): seq<Player>
  {
    Ranked(ByScore(Without(ranking, p.userId) + [p]))
  }

  /** After an upsert scores do not increase down the list and the ranks are 1 to n in list order. */
  lemma UpsertOrder(ranking: seq<Player>, p: Player)
    ensures var r := Upserted(ranking, p);
      && |r| == |Without(ranking, p.userId)| + 1
      && (forall i :: 0 <= i < |r| ==> r[i].rank == i + 1)
      && (forall i, j :: 0 <= i < j < |r| ==> r[i].score >= r[j].score)
  {
    Standings.SortDescSpec(Without(ranking, p.userId) + [p], (p: Player) => p.score);
  }

  /**
   * After an upsert the user has exactly one entry, the new one, and every
   * other entry is kept, counting entries with their ranks blanked.
   */
  lemma UpsertEntries(ranking: seq<Player>, p: Player)
    ensures forall q :: multiset(Standings.Map(Upserted(ranking, p), Unrank))[Unrank(q)]
                     == if q.userId == p.userId then (if Unrank(q) == Unrank(p) then 1 else 0)
                        else multiset(Standings.Map(ranking, Unrank))[Unrank(q)]
  {
    var kept := Without(ranking, p.userId);
    var sorted := ByScore(kept + [p]);
    var r := Ranked(sorted);
    assert r == Upserted(ranking, p);
    assert Standings.Map(r, Unrank) == Standings.Map(sorted, Unrank);
    Standings.SortDescPermutes(kept + [p], (p: Player) => p.score);
    Standings.MapPermutes(sorted, kept + [p], Unrank);
    Standings.MapAppend(kept, [p], Unrank);
    UnrankWithout(ranking, p.userId);
    var ur := Standings.Map(ranking, Unrank);
    WithoutCount(ur, p.userId);
    assert Standings.Map([p], Unrank) == [Unrank(p)];
    calc {
      multiset(Standings.Map(r, Unrank));
      multiset(Standings.Map(sorted, Unrank));
      multiset(Standings.Map(kept + [p], Unrank));
      multiset(Standings.Map(kept, Unrank) + [Unrank(p)]);
      multiset(Without(ur, p.userId) + [Unrank(p)]);
      multiset(Without(ur, p.userId)) + multiset{Unrank(p)};
    }
  }

  /** Blanking ranks commutes with dropping a user's entries. */
  lemma {:induction false} UnrankWithout(s: seq<Player>, userId: string)
    ensures Standings.Map(Without(s, userId), Unrank) == Without(Standings.Map(s, Unrank), userId)
  {
    if s != [] {
      UnrankWithout(s[1..], userId);
      var head := if s[0].userId == userId then [] else [s[0]];
      Standings.MapAppend(head, Without(s[1..], userId), Unrank);
      var ms := Standings.Map(s, Unrank);
      assert ms[0] == Unrank(s[0]) && ms[1..] == Standings.Map(s[1..], Unrank);
      var uhead := if s[0].userId == userId then [] else [Unrank(s[0])];
      assert Without(ms, userId) == uhead + Without(ms[1..], userId);
      assert Standings.Map(head, Unrank) == uhead;
    }
  }

  /** _upsert_player as written: filter, append, sort, then number the entries. */
  method Upsert(ranking: seq<Player>, p: Player) returns (r: seq<Player>)
    ensures r == Upserted(ranking, p)
  {
    var sorted := ByScore(Without(ranking, p.userId) + [p]);
    r := Renumber(sorted);
  }

  /** The loop `for i, p in enumerate(ranking): p['rank'] = i + 1`. */
  method Renumber(s: seq<Player>) returns (r: seq<Player>)
    ensures r == Ranked(s)
  {
    r := s;
    var i := 0;
    while i < |r|
      invariant 0 <= i <= |r| == |s|
      invariant forall k :: 0 <= k < i ==> r[k] == s[k].(rank := k + 1)
      invariant forall k :: i <= k < |r| ==> r[k] == s[k]
    {
      r := r[i := r[i].(rank := i + 1)];
      i := i + 1;
    }
  }

  /** next((p for p in ranking if p['user_id'] == user_id), None). */
  function Find(ranking: seq<Player>, userId: string): (r: Option<Player>)
    ensures r.None? <==> forall i :: 0 <= i < |ranking| ==> ranking[i].userId != userId
    ensures r.Some? ==> r.value in ranking && r.value.userId == userId
  {
    if ranking == [] then None
    else if ranking[0].userId == userId then Some(ranking[0])
    else Find(ranking[1..], userId)
  }

  /** One side of update_player_rating's report. */
  datatype PlayerReport = PlayerReport(id: string, name: string, oldRating: int, newRating: int, ratingChange: int,
                                       rank: int, winCount: int, loseCount: int, drawCount: int, totalGames: int)

  datatype RatingReport = RatingReport(player1: PlayerReport, player2: PlayerReport, totalPlayers: nat)

  /** _format_player_ranking: the change is new minus old. */
  function Format(p: Player, oldRating: int, newRating: int): (r: PlayerReport)
    ensures r.ratingChange == newRating - oldRating
  {
    PlayerReport(p.userId, p.name, oldRating, newRating, newRating - oldRating, p.rank,
                 p.winCount, p.loseCount, p.drawCount, p.totalGames)
  }

  /** The player's entry before the game: the stored one, or a new player. */
  function Current(ranking: seq<Player>, userId: string, name: string, now: string): Player
  {
    var found := Find(ranking, userId);
    if found.Some? then found.value else InitPlayer(userId, name, now)
  }

  /** The player's entry after the game: counts updated, new score and time written in. */
  function Played(before: Player, w: Outcome, newScore: int, now: string): Player
  {
    UpdateStats(before, w).(score := newScore, lastUpdate := now)
  }

  /** The entry next() finds for the user in the new leaderboard; the played entry should there be none. */
  function FinalEntry(board: seq<Player>, userId: string, played: Player): (e: Player)
    ensures Find(board, userId).Some? ==> e in board && e.userId == userId
  {
    var f := Find(board, userId);
    if f.Some? then f.value else played
  }

  /**
   * The report update_player_rating builds as written: each side is the
   * entry found in the new leaderboard, with its new rank, but the "old
   * rating" is read from the player's record after its score was
   * overwritten, so it is the new rating.
   */
  function ReportAsWritten(ranking: seq<Player>, id1: string, name1: string, id2: string, name2: string,
                           w: Outcome, expected1: real, now: string): (r: RatingReport)
    ensures r.player1.oldRating == r.player1.newRating && r.player2.oldRating == r.player2.newRating
  {
    var p1 := Current(ranking, id1, name1, now);
    var p2 := Current(ranking, id2, name2, now);
    var (n1, n2) := NewRatings(p1.score, p2.score, w, p1.totalGames, p2.totalGames, expected1);
    var q1 := Played(p1, w, n1, now);
    var q2 := Played(p2, Opposite(w), n2, now);
    var board := Upserted(Upserted(ranking, q1), q2);
    RatingReport(Format(FinalEntry(board, id1, q1), n1, n1), Format(FinalEntry(board, id2, q2), n2, n2), |board|)
  }

  /** As written, every report says neither rating changed, whatever the game did to them. */
  lemma RatingChangeAlwaysZero(ranking: seq<Player>, id1: string, name1: string, id2: string, name2: string,
                               w: Outcome, expected1: real, now: string)
    ensures var rep := ReportAsWritten(ranking, id1, name1, id2, name2, w, expected1, now);
      rep.player1.ratingChange == 0 && rep.player2.ratingChange == 0
  {
  }

  /**
   * The as-written report agrees with the corrected one in everything but
   * the old rating and the change: same entries, ranks, counts, new
   * ratings and player total.
   */
  lemma AsWrittenDiffersOnlyInOldRating(ranking: seq<Player>, id1: string, name1: string, id2: string, name2: string,
                                        w: Outcome, expected1: real, now: string)
    ensures var bad := ReportAsWritten(ranking, id1, name1, id2, name2, w, expected1, now);
      var good := UpdatePlayerRating(ranking, id1, name1, id2, name2, w, expected1, now).1;
      && bad.totalPlayers == good.totalPlayers
      && bad.player1 == good.player1.(oldRating := good.player1.newRating, ratingChange := 0)
      && bad.player2 == good.player2.(oldRating := good.player2.newRating, ratingChange := 0)
  {
  }

  /**
   * update_player_rating with the old rating taken before the update: the
   * new leaderboard and the report. Each side's reported entry is the one
   * found in the new leaderboard, as in the source.
   */
  function UpdatePlayerRating(ranking: seq<Player>, id1: string, name1: string, id2: string, name2: string,
                              w: Outcome, expected1: real, now: string): (r: (seq<Player>, RatingReport))
    ensures r.1.totalPlayers == |r.0| && forall i :: 0 <= i < |r.0| ==> r.0[i].rank == i + 1
    ensures r.1.player1.oldRating == Current(ranking, id1, name1, now).score
    ensures r.1.player2.oldRating == Current(ranking, id2, name2, now).score
  {
    var p1 := Current(ranking, id1, name1, now);
    var p2 := Current(ranking, id2, name2, now);
    var (n1, n2) := NewRatings(p1.score, p2.score, w, p1.totalGames, p2.totalGames, expected1);
    var q1 := Played(p1, w, n1, now);
    var q2 := Played(p2, Opposite(w), n2, now);
    var board := Upserted(Upserted(ranking, q1), q2);
    UpsertOrder(Upserted(ranking, q1), q2);
    (board, RatingReport(Format(FinalEntry(board, id1, q1), p1.score, n1), Format(FinalEntry(board, id2, q2), p2.score, n2), |board|))
  }

  /**
   * With the corrected report, a win never shows a negative change for the
   * winner nor a positive one for the loser, and a loss the reverse.
   */
  lemma RatingChangeFollowsResult(ranking: seq<Player>, id1: string, name1: string, id2: string, name2: string,
                                  w: Outcome, expected1: real, now: string)
    requires 0.0 <= expected1 <= 1.0
    ensures var rep := UpdatePlayerRating(ranking, id1, name1, id2, name2, w, expected1, now).1;
      && rep.player1.ratingChange == rep.player1.newRating - rep.player1.oldRating
      && (w == Some(true) ==> rep.player1.ratingChange >= 0 && rep.player2.ratingChange <= 0)
      && (w == Some(false) ==> rep.player1.ratingChange <= 0 && rep.player2.ratingChange >= 0)
  {
    var p1 := Current(ranking, id1, name1, now);
    var p2 := Current(ranking, id2, name2, now);
    RatingsFollowResult(p1.score, p2.score, w, p1.totalGames, p2.totalGames, expected1);
  }

  /** One row of get_ranking_list. */
  datatype ListEntry = ListEntry(rank: int, name: string, userId: string, score: int, winCount: int,
                                 loseCount: int, drawCount: int, winRate: real, lastUpdate: string)

  /** The win rate in percent over win + lose + draw, 0 with no games (rounding to two places not modelled). */
  function WinRate(p: Player): real
  {
    var total := Tally(p);
    if total > 0 then p.winCount as real / total as real * 100.0 else 0.0
  }

  function Entry(p: Player, rank: int): ListEntry
  {
    ListEntry(rank, p.name, p.userId, p.score, p.winCount, p.loseCount, p.drawCount, WinRate(p), p.lastUpdate)
  }

  /** get_ranking_list: the stored entries ranking[:top_n] in order, numbered from 1 by position. */
  method GetRankingList(ranking: seq<Player>, topN: int) returns (top: seq<ListEntry>)
    ensures |top| == |Standings.Prefix(ranking, topN)|
    ensures topN >= 0 ==> |top| <= topN
    ensures forall i :: 0 <= i < |top| ==> top[i] == Entry(ranking[i], i + 1)
  {
    var head := Standings.Prefix(ranking, topN);
    top := [];
    var i := 0;
    while i < |head|
      invariant 0 <= i <= |head| && |top| == i
      invariant forall k :: 0 <= k < i ==> top[k] == Entry(ranking[k], k + 1)
    {
      top := top + [Entry(head[i], i + 1)];
      i := i + 1;
    }
  }
}
