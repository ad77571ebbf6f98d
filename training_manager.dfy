/**
 * The training-data bookkeeping of TrainingManager: importing hand-labelled
 * CSV rows, preprocessing the stored samples into normalised features, the
 * statistics report and the removal of samples older than a number of days.
 * The training-data store is given as values (the self-play samples and the
 * user's samples), the clock as `now`, and an exception caught by the
 * operation's own try block as a false result.
 */
module Training {
  import opened Wrappers
  import opened Constants
  import Strings
  import Json
  import DataUtils
  import Security
  import Seqs

  /** A stored training sample, its numeric columns already read as numbers. */
  datatype Sample = Sample(
    board: string, move: string, color: Json.Value, pattern: string,
    score: real, quality: real, result: string,
    timestamp: Option<real>, gameId: Option<string>)

  /** `x, y = map(int, s.split(','))`: exactly two parts, both integers. */
  function ParseMove(s: string): (r: Option<(int, int)>)
    ensures r.Some? ==> ',' in s
  {
    var parts := Strings.Split(s, ',');
    if |parts| == 2 && Strings.ParseInt(parts[0]).Some? && Strings.ParseInt(parts[1]).Some?
    then Some((Strings.ParseInt(parts[0]).value, Strings.ParseInt(parts[1]).value))
    else None
  }

  /** A move written as "x,y" parses back to (x, y). */
  lemma ParseMoveRoundTrip(x: int, y: int)
    ensures ParseMove(Strings.IntToString(x) + "," + Strings.IntToString(y)) == Some((x, y))
  {
    var a, b := Strings.IntToString(x), Strings.IntToString(y);
    Strings.IntToStringAvoids(x, ',');
    Strings.IntToStringAvoids(y, ',');
    assert a + "," + b == a + [','] + b;
    Strings.SplitPair(a, b, ',');
    Strings.ParseIntRoundTrip(x);
    Strings.ParseIntRoundTrip(y);
  }

  /** int() ignores the space a hand-written "x, y" puts after the comma. */
  lemma ParseMoveSpaced(x: int, y: int)
    ensures ParseMove(Strings.IntToString(x) + ", " + Strings.IntToString(y)) == Some((x, y))
  {
    var a, b := Strings.IntToString(x), Strings.IntToString(y);
    Strings.IntToStringAvoids(x, ',');
    Strings.IntToStringAvoids(y, ',');
    assert a + ", " + b == a + [','] + (" " + b);
    Strings.SplitPair(a, " " + b, ',');
    Strings.ParseIntRoundTrip(x);
    Strings.ParseIntRoundTrip(y);
    Strings.IntToStringTrimmed(y);
    assert Strings.AllIntSpace(" ") && Strings.AllIntSpace("");
    assert " " + b == " " + b + "";
    Strings.PaddedParse(" ", b, "");
  }

  // ---------------------------------------------------------------------
  // clear_old_data

  const SECONDS_PER_DAY: int := 86400

  /** float(item.get('timestamp', 0)). */
  function SampleTime(s: Sample): real
  {
    if s.timestamp.Some? then s.timestamp.value else 0.0
  }

  /** The moment before which a sample counts as old. */
  function Cutoff(now: real, days: int): real
  {
    now - (days * SECONDS_PER_DAY) as real
  }

  /** The samples stamped at or after the cutoff, in their stored order. */
  function Fresh(samples: seq<Sample>, cutoff: real): seq<Sample>
  {
    if |samples| == 0 then []
    else
      var last := samples[|samples| - 1];
      Fresh(samples[..|samples| - 1], cutoff) + (if SampleTime(last) >= cutoff then [last] else [])
  }

  /** The samples stamped before the cutoff, in their stored order. */
  function Expired(samples: seq<Sample>, cutoff: real): seq<Sample>
  {
    if |samples| == 0 then []
    else
      var last := samples[|samples| - 1];
      Expired(samples[..|samples| - 1], cutoff) + (if SampleTime(last) < cutoff then [last] else [])
  }

  /** Every kept sample is stamped at or after the cutoff, every deleted one before it. */
  lemma {:induction false} FreshExpiredMembers(samples: seq<Sample>, cutoff: real)
    ensures forall s :: s in Fresh(samples, cutoff) <==> s in samples && SampleTime(s) >= cutoff
    ensures forall s :: s in Expired(samples, cutoff) <==> s in samples && SampleTime(s) < cutoff
  {
    if |samples| > 0 {
      var init, last := samples[..|samples| - 1], samples[|samples| - 1];
      FreshExpiredMembers(init, cutoff);
      assert samples == init + [last];
    }
  }

  /** The kept and the deleted samples are exactly the stored ones, split in two. */
  lemma FreshExpiredPartition(samples: seq<Sample>, cutoff: real)
    ensures |Fresh(samples, cutoff)| + |Expired(samples, cutoff)| == |samples|
    ensures multiset(Fresh(samples, cutoff)) + multiset(Expired(samples, cutoff)) == multiset(samples)
  {
    FreshExpiredMultiset(samples, cutoff);
    assert |multiset(Fresh(samples, cutoff)) + multiset(Expired(samples, cutoff))| == |multiset(samples)|;
  }

  lemma {:induction false} FreshExpiredMultiset(samples: seq<Sample>, cutoff: real)
    ensures multiset(Fresh(samples, cutoff)) + multiset(Expired(samples, cutoff)) == multiset(samples)
  {
    if |samples| > 0 {
      FreshExpiredMultiset(samples[..|samples| - 1], cutoff);
      FreshExpiredStep(samples, cutoff);
      MultisetSnoc(samples);
    }
  }

  /** The last sample goes to exactly one of the two lists. */
  lemma FreshExpiredStep(samples: seq<Sample>, cutoff: real)
    requires |samples| > 0
    ensures multiset(Fresh(samples, cutoff)) + multiset(Expired(samples, cutoff)) ==
      multiset(Fresh(samples[..|samples| - 1], cutoff)) + multiset(Expired(samples[..|samples| - 1], cutoff)) +
      multiset{samples[|samples| - 1]}
  {
  }

  lemma MultisetSnoc(samples: seq<Sample>)
    requires |samples| > 0
    ensures multiset(samples) == multiset(samples[..|samples| - 1]) + multiset{samples[|samples| - 1]}
  {
    assert samples == samples[..|samples| - 1] + [samples[|samples| - 1]];
  }

  /** Clearing twice deletes nothing the second time. */
  lemma {:induction false} ClearTwiceDeletesNothing(samples: seq<Sample>, cutoff: real)
    ensures Expired(Fresh(samples, cutoff), cutoff) == []
    ensures Fresh(Fresh(samples, cutoff), cutoff) == Fresh(samples, cutoff)
  {
    FreshOfFresh(samples, cutoff);
    FreshExpiredPartition(Fresh(samples, cutoff), cutoff);
  }

  lemma {:induction false} FreshOfFresh(samples: seq<Sample>, cutoff: real)
    ensures Fresh(Fresh(samples, cutoff), cutoff) == Fresh(samples, cutoff)
  {
    if |samples| > 0 {
      var init := samples[..|samples| - 1];
      var last := samples[|samples| - 1];
      FreshOfFresh(init, cutoff);
      var f := Fresh(init, cutoff);
      if SampleTime(last) >= cutoff {
        var g := f + [last];
        assert Fresh(samples, cutoff) == g;
        assert g[..|g| - 1] == f && g[|g| - 1] == last;
        assert Fresh(g, cutoff) == Fresh(f, cutoff) + [last];
      } else {
        assert Fresh(samples, cutoff) == f;
      }
    }
  }

  /**
   * The user's samples split at now - days * 86400: the ones stamped at or
   * after it are kept, the others counted as deleted, and the kept list is
   * written back only when something was deleted.
   */
  method ClearOldData(samples: seq<Sample>, now: real, days: int)
    returns (kept: seq<Sample>, deleted: nat, saved: Option<seq<Sample>>)
    ensures kept == Fresh(samples, Cutoff(now, days))
    ensures deleted == |Expired(samples, Cutoff(now, days))| == |samples| - |kept|
    ensures saved == if deleted > 0 then Some(kept) else None
  {
    var cutoff := Cutoff(now, days);
    kept := [];
    deleted := 0;
    var i := 0;
    while i < |samples|
      invariant 0 <= i <= |samples|
      invariant kept == Fresh(samples[..i], cutoff)
      invariant deleted == |Expired(samples[..i], cutoff)|
    {
      assert samples[..i + 1][..i] == samples[..i];
      if SampleTime(samples[i]) >= cutoff {
        kept := kept + [samples[i]];
      } else {
        deleted := deleted + 1;
      }
      i := i + 1;
    }
    assert samples[..i] == samples;
    FreshExpiredPartition(samples, cutoff);
    saved := if deleted > 0 then Some(kept) else None;
  }

  // ---------------------------------------------------------------------
  // get_data_statistics

  /** The number of samples with the given result. */
  function CountResult(samples: seq<Sample>, result: string): (n: nat)
    ensures n <= |samples|
  {
    if |samples| == 0 then 0
    else CountResult(samples[..|samples| - 1], result) + (if samples[|samples| - 1].result == result then 1 else 0)
  }

  /** Samples of three different results are counted apart: together at most all of them. */
  lemma {:induction false} ResultCountsBounded(samples: seq<Sample>, a: string, b: string, c: string)
    requires a != b && b != c && a != c
    ensures CountResult(samples, a) + CountResult(samples, b) + CountResult(samples, c) <= |samples|
  {
    if |samples| > 0 {
      ResultCountsBounded(samples[..|samples| - 1], a, b, c);
    }
  }

  function SumQuality(samples: seq<Sample>): real
  {
    if |samples| == 0 then 0.0 else SumQuality(samples[..|samples| - 1]) + samples[|samples| - 1].quality
  }

  function SumScore(samples: seq<Sample>): real
  {
    if |samples| == 0 then 0.0 else SumScore(samples[..|samples| - 1]) + samples[|samples| - 1].score
  }

  /** A dict from pattern to count, in first-insertion order. */
  type Tally = seq<(string, nat)>

  predicate Distinct(ks: seq<string>)
  {
    forall i, j :: 0 <= i < j < |ks| ==> ks[i] != ks[j]
  }

  predicate DistinctKeys(t: Tally)
  {
    Distinct(KeysOf(t))
  }

  lemma DistinctCons(k: string, ks: seq<string>)
    requires Distinct(ks) && k !in ks
    ensures Distinct([k] + ks)
  {
    var l := [k] + ks;
    forall i, j | 0 <= i < j < |l|
      ensures l[i] != l[j]
    {
      assert l[j] == ks[j - 1];
      if i > 0 {
        assert l[i] == ks[i - 1];
      }
    }
  }

  lemma DistinctTail(k: string, ks: seq<string>)
    requires Distinct([k] + ks)
    ensures Distinct(ks) && k !in ks
  {
    var l := [k] + ks;
    forall i, j | 0 <= i < j < |ks|
      ensures ks[i] != ks[j]
    {
      assert ks[i] == l[i + 1] && ks[j] == l[j + 1];
    }
    forall j | 0 <= j < |ks|
      ensures ks[j] != k
    {
      assert ks[j] == l[j + 1] && k == l[0];
    }
  }

  /** `counts.get(p, 0)`. */
  function CountOf(t: Tally, p: string): nat
  {
    if |t| == 0 then 0
    else if t[|t| - 1].0 == p then t[|t| - 1].1
    else CountOf(t[..|t| - 1], p)
  }

  function TallyTotal(t: Tally): nat
  {
    if |t| == 0 then 0 else TallyTotal(t[..|t| - 1]) + t[|t| - 1].1
  }

  /** `counts[p] = counts.get(p, 0) + 1`: an existing key keeps its place, a new one goes last. */
  function Bump(t: Tally, p: string): (r: Tally)
  {
    if |t| == 0 then [(p, 1)]
    else if t[0].0 == p then [(p, t[0].1 + 1)] + t[1..]
    else [t[0]] + Bump(t[1..], p)
  }

  /** The pattern counts of the samples, in first-occurrence order. */
  function PatternCounts(samples: seq<Sample>): Tally
  {
    if |samples| == 0 then [] else Bump(PatternCounts(samples[..|samples| - 1]), samples[|samples| - 1].pattern)
  }

  /** The number of samples with the given pattern. */
  function NumWithPattern(samples: seq<Sample>, p: string): nat
  {
    if |samples| == 0 then 0
    else NumWithPattern(samples[..|samples| - 1], p) + (if samples[|samples| - 1].pattern == p then 1 else 0)
  }

  lemma {:induction false} CountOfFront(x: (string, nat), t: Tally, p: string)
    ensures CountOf([x] + t, p) == if p in KeysOf(t) then CountOf(t, p) else if x.0 == p then x.1 else 0
    decreases |t|
  {
    if |t| > 0 {
      var u := [x] + t;
      assert u[..|u| - 1] == [x] + t[..|t| - 1];
      CountOfFront(x, t[..|t| - 1], p);
      assert KeysOf(t) == KeysOf(t[..|t| - 1]) + [t[|t| - 1].0];
    } else {
      assert ([x] + t)[..0] == [];
    }
  }

  function KeysOf(t: Tally): seq<string>
  {
    seq(|t|, i requires 0 <= i < |t| => t[i].0)
  }

  lemma CountOfMissing(t: Tally, p: string)
    requires p !in KeysOf(t)
    ensures CountOf(t, p) == 0
  {
    if |t| > 0 {
      assert KeysOf(t) == KeysOf(t[..|t| - 1]) + [t[|t| - 1].0];
      CountOfMissing(t[..|t| - 1], p);
    }
  }

  /** Bumping p keeps the keys distinct, adding p last when it is new. */
  lemma {:induction false} BumpKeys(t: Tally, p: string)
    requires DistinctKeys(t)
    ensures DistinctKeys(Bump(t, p))
    ensures KeysOf(Bump(t, p)) == if p in KeysOf(t) then KeysOf(t) else KeysOf(t) + [p]
  {
    if |t| == 0 {
      assert KeysOf(Bump(t, p)) == [p];
    } else if t[0].0 == p {
      BumpHereKeys(t, p);
    } else {
      var rest := t[1..];
      assert t == [t[0]] + rest;
      KeysCons(t[0], rest);
      DistinctTail(t[0].0, KeysOf(rest));
      BumpKeys(rest, p);
      var br := Bump(rest, p);
      assert Bump(t, p) == [t[0]] + br;
      KeysCons(t[0], br);
      DistinctCons(t[0].0, KeysOf(br));
      assert KeysOf(t) + [p] == [t[0].0] + (KeysOf(rest) + [p]);
    }
  }

  lemma KeysCons(x: (string, nat), t: Tally)
    ensures KeysOf([x] + t) == [x.0] + KeysOf(t)
  {
  }

  lemma BumpHereKeys(t: Tally, p: string)
    requires |t| > 0 && t[0].0 == p
    ensures KeysOf(Bump(t, p)) == KeysOf(t) && p in KeysOf(t)
  {
    assert t == [t[0]] + t[1..];
    KeysCons(t[0], t[1..]);
    KeysCons((p, t[0].1 + 1), t[1..]);
  }

  /** Bumping p adds one to p's count and leaves every other count alone. */
  lemma {:induction false} BumpCount(t: Tally, p: string, q: string)
    requires DistinctKeys(t)
    ensures CountOf(Bump(t, p), q) == CountOf(t, q) + (if q == p then 1 else 0)
  {
    if |t| == 0 {
      assert [(p, 1)][..0] == [];
    } else {
      var rest := t[1..];
      assert t == [t[0]] + rest;
      assert KeysOf(t) == [t[0].0] + KeysOf(rest);
      DistinctTail(t[0].0, KeysOf(rest));
      CountOfFront(t[0], rest, q);
      if q !in KeysOf(rest) {
        CountOfMissing(rest, q);
      }
      if t[0].0 == p {
        assert Bump(t, p) == [(p, t[0].1 + 1)] + rest;
        CountOfFront((p, t[0].1 + 1), rest, q);
      } else {
        BumpKeys(rest, p);
        BumpCount(rest, p, q);
        assert Bump(t, p) == [t[0]] + Bump(rest, p);
        CountOfFront(t[0], Bump(rest, p), q);
      }
    }
  }

  /** Bumping adds one to the total of the counts. */
  lemma {:induction false} BumpTotal(t: Tally, p: string)
    ensures TallyTotal(Bump(t, p)) == TallyTotal(t) + 1
  {
    if |t| == 0 {
      assert [(p, 1)][..0] == [];
    } else {
      var rest := t[1..];
      assert t == [t[0]] + rest;
      BumpTotal(rest, p);
      TotalFront(t[0], rest);
      if t[0].0 == p {
        TotalFront((p, t[0].1 + 1), rest);
      } else {
        TotalFront(t[0], Bump(rest, p));
      }
    }
  }

  lemma {:induction false} TotalFront(x: (string, nat), t: Tally)
    ensures TallyTotal([x] + t) == x.1 + TallyTotal(t)
    decreases |t|
  {
    if |t| > 0 {
      var u := [x] + t;
      assert u[..|u| - 1] == [x] + t[..|t| - 1];
      TotalFront(x, t[..|t| - 1]);
    } else {
      assert ([x] + t)[..0] == [];
    }
  }

  /**
   * The pattern distribution has one entry per distinct pattern, exactly
   * the patterns some sample has.
   */
  lemma {:induction false} PatternCountsKeys(samples: seq<Sample>)
    ensures DistinctKeys(PatternCounts(samples))
    ensures forall p :: p in KeysOf(PatternCounts(samples)) <==> p in Patterns(samples)
  {
    if |samples| == 0 {
      assert KeysOf(PatternCounts(samples)) == [] && Patterns(samples) == [];
    } else {
      var init := samples[..|samples| - 1];
      var last := samples[|samples| - 1].pattern;
      var t := PatternCounts(init);
      PatternCountsKeys(init);
      BumpKeys(t, last);
      assert PatternCounts(samples) == Bump(t, last);
      PatternsSnoc(samples);
      forall p
        ensures p in KeysOf(Bump(t, last)) <==> p in Patterns(init) + [last]
      {
        assert p in KeysOf(t) <==> p in Patterns(init);
      }
    }
  }

  lemma PatternsSnoc(samples: seq<Sample>)
    requires |samples| > 0
    ensures Patterns(samples) == Patterns(samples[..|samples| - 1]) + [samples[|samples| - 1].pattern]
  {
  }

  /** The samples' patterns, in order. */
  function Patterns(samples: seq<Sample>): seq<string>
  {
    seq(|samples|, i requires 0 <= i < |samples| => samples[i].pattern)
  }

  /**
   * Each pattern's count is the number of samples with that pattern, and
   * the counts add up to the number of samples.
   */
  lemma {:induction false} PatternCountsSpec(samples: seq<Sample>)
    ensures forall p :: CountOf(PatternCounts(samples), p) == NumWithPattern(samples, p)
    ensures TallyTotal(PatternCounts(samples)) == |samples|
  {
    if |samples| > 0 {
      var init := samples[..|samples| - 1];
      var last := samples[|samples| - 1];
      PatternCountsSpec(init);
      PatternCountsKeys(init);
      forall p
        ensures CountOf(PatternCounts(samples), p) == NumWithPattern(samples, p)
      {
        BumpCount(PatternCounts(init), last.pattern, p);
      }
      BumpTotal(PatternCounts(init), last.pattern);
    }
  }

  /** The pattern counts, tallied sample by sample. */
  method CountPatterns(samples: seq<Sample>) returns (counts: Tally)
    ensures counts == PatternCounts(samples)
  {
    counts := [];
    var i := 0;
    while i < |samples|
      invariant 0 <= i <= |samples|
      invariant counts == PatternCounts(samples[..i])
    {
      assert samples[..i + 1][..i] == samples[..i];
      counts := Bump(counts, samples[i].pattern);
      i := i + 1;
    }
    assert samples[..i] == samples;
  }

  function CountValues(t: Tally): (vs: seq<real>)
    ensures |vs| == |t| && forall i :: 0 <= i < |t| ==> vs[i] == t[i].1 as real
  {
    if |t| == 0 then [] else [t[0].1 as real] + CountValues(t[1..])
  }

  /** `max(counts.items(), key=count)[0]`, the first most frequent pattern; 'None' when there is none. */
  function MostCommon(t: Tally): string
  {
    if |t| == 0 then "None" else t[Seqs.FirstMaxIndex(CountValues(t))].0
  }

  /** The most common pattern has the highest count, and no earlier pattern ties with it. */
  lemma MostCommonSpec(t: Tally)
    requires |t| > 0
    ensures exists i :: (0 <= i < |t| && t[i].0 == MostCommon(t) &&
      (forall j :: 0 <= j < |t| ==> t[j].1 <= t[i].1) &&
      (forall j :: 0 <= j < i ==> t[j].1 < t[i].1))
  {
    var vs := CountValues(t);
    Seqs.FirstMaxIndexSpec(vs);
    var i := Seqs.FirstMaxIndex(vs);
    assert forall j :: 0 <= j < |t| ==> vs[j] <= vs[i];
  }

  /** The samples' moves, each parsed: none for a move that is not two integers. */
  function ParsedMoves(samples: seq<Sample>): (ms: seq<Option<(int, int)>>)
    ensures |ms| == |samples|
  {
    if |samples| == 0 then []
    else ParsedMoves(samples[..|samples| - 1]) + [ParseMove(samples[|samples| - 1].move)]
  }

  lemma {:induction false} ParsedMoveAt(samples: seq<Sample>, i: nat)
    requires i < |samples|
    ensures ParsedMoves(samples)[i] == ParseMove(samples[i].move)
  {
    var init := samples[..|samples| - 1];
    if i < |init| {
      ParsedMoveAt(init, i);
      assert init[i] == samples[i];
    }
  }

  /** The positions the parsed moves name. */
  function Covered(ms: seq<Option<(int, int)>>): set<(int, int)>
  {
    set i | 0 <= i < |ms| && ms[i].Some? :: ms[i].value
  }

  /** The positions some sample's move names. */
  function CoveredSet(samples: seq<Sample>): set<(int, int)>
  {
    Covered(ParsedMoves(samples))
  }

  /** Every sample's move is two integers. */
  predicate AllMovesParse(samples: seq<Sample>)
  {
    None !in ParsedMoves(samples)
  }

  lemma CoveredStep(ms: seq<Option<(int, int)>>, i: nat)
    requires i < |ms| && ms[i].Some?
    ensures Covered(ms[..i + 1]) == Covered(ms[..i]) + {ms[i].value}
  {
    var s, t := ms[..i + 1], ms[..i];
    forall p | p in Covered(s)
      ensures p in Covered(t) + {ms[i].value}
    {
      var j :| 0 <= j < |s| && s[j].Some? && s[j].value == p;
      if j < i {
        assert t[j] == s[j];
      }
    }
    forall p | p in Covered(t)
      ensures p in Covered(s)
    {
      var j :| 0 <= j < |t| && t[j].Some? && t[j].value == p;
      assert s[j] == t[j];
    }
    assert s[i] == ms[i];
  }

  /**
   * The set of (x, y) the moves name, built move by move; none when a move
   * does not parse, which raises out of the report.  There are never more
   * positions than samples.
   */
  method CoveredPositions(samples: seq<Sample>) returns (r: Option<set<(int, int)>>)
    ensures r.Some? <==> AllMovesParse(samples)
    ensures r.Some? ==> r.value == CoveredSet(samples) && |r.value| <= |samples|
  {
    ghost var ms := ParsedMoves(samples);
    var covered: set<(int, int)> := {};
    var i := 0;
    while i < |samples|
      invariant 0 <= i <= |samples|
      invariant None !in ms[..i]
      invariant covered == Covered(ms[..i]) && |covered| <= i
    {
      var m := ParseMove(samples[i].move);
      ParsedMoveAt(samples, i);
      if m.None? {
        assert ms[i] == None;
        return None;
      }
      assert ms[..i + 1] == ms[..i] + [m];
      CoveredStep(ms, i);
      covered := covered + {m.value};
      i := i + 1;
    }
    assert ms[..i] == ms;
    return Some(covered);
  }

  /** The statistics report; the absent keys of the empty report are none. */
  datatype Stats = Stats(
    userId: string, totalCount: nat, selfPlayCount: nat, manualCount: nat,
    winCount: nat, loseCount: nat, drawCount: nat, winRate: Option<real>,
    avgQuality: real, avgScore: real, mostCommonPattern: string,
    patternDistribution: Option<Tally>, coverage: real)

  /** The report for no data at all. */
  function EmptyStats(userId: string, selfPlayCount: nat, manualCount: nat): Stats
  {
    Stats(userId, 0, selfPlayCount, manualCount, 0, 0, 0, None, 0.0, 0.0, "None", None, 0.0)
  }

  /**
   * The statistics of the self-play samples together with the user's: an
   * all-zero report when there are none; otherwise the result counts, the
   * win rate and averages, the pattern distribution and its most common
   * pattern, and the share (in percent) of the board's positions some move
   * covers.  None when a move does not parse.
   */
  method GetDataStatistics(userId: string, selfPlay: seq<Sample>, manual: seq<Sample>) returns (r: Option<Stats>)
    ensures var total := selfPlay + manual;
      total == [] ==> r == Some(EmptyStats(userId, |selfPlay|, |manual|))
    ensures var total := selfPlay + manual;
      total != [] ==> (r.Some? <==> AllMovesParse(total))
    ensures var total := selfPlay + manual;
      total != [] && r.Some? ==>
        var n := |total| as real;
        var st := r.value;
        st.userId == userId && st.totalCount == |total| &&
        st.selfPlayCount == |selfPlay| && st.manualCount == |manual| &&
        st.winCount == CountResult(total, "win") && st.loseCount == CountResult(total, "lose") &&
        st.drawCount == CountResult(total, "draw") &&
        st.winRate == Some(st.winCount as real / n * 100.0) &&
        st.avgQuality == SumQuality(total) / n && st.avgScore == SumScore(total) / n &&
        st.patternDistribution == Some(PatternCounts(total)) &&
        st.mostCommonPattern == MostCommon(PatternCounts(total)) &&
        st.coverage == |CoveredSet(total)| as real / (BOARD_SIZE * BOARD_SIZE) as real * 100.0
  {
    var total := selfPlay + manual;
    if total == [] {
      return Some(EmptyStats(userId, |selfPlay|, |manual|));
    }
    var n := |total| as real;
    var win := CountResult(total, "win");
    var counts := CountPatterns(total);
    var covered := CoveredPositions(total);
    if covered.None? {
      return None;
    }
    var coverage := |covered.value| as real / (BOARD_SIZE * BOARD_SIZE) as real * 100.0;
    r := Some(Stats(userId, |total|, |selfPlay|, |manual|,
      win, CountResult(total, "lose"), CountResult(total, "draw"), Some(win as real / n * 100.0),
      SumQuality(total) / n, SumScore(total) / n, MostCommon(counts), Some(counts), coverage));
  }

  // ---------------------------------------------------------------------
  // preprocess_data

  /** (score - min) / (max - min) when the scores differ, 0.5 when they are all equal. */
  function Normalized(score: real, lo: real, hi: real): real
  {
    if hi > lo then (score - lo) / (hi - lo) else 0.5
  }

  /**
   * A score between the minimum and the maximum lands in [0, 1]; when the
   * two differ, the minimum goes to exactly 0 and the maximum to exactly 1.
   */
  lemma NormalizedInUnit(score: real, lo: real, hi: real)
    requires lo <= score <= hi
    ensures 0.0 <= Normalized(score, lo, hi) <= 1.0
    ensures hi > lo ==> (Normalized(score, lo, hi) == 0.0 <==> score == lo)
    ensures hi > lo ==> (Normalized(score, lo, hi) == 1.0 <==> score == hi)
  {
    if hi > lo {
      var a, d := score - lo, hi - lo;
      var r := a / d;
      assert r * d == a;
      if r > 1.0 {
        assert r * d > 1.0 * d;
      }
      if r < 0.0 {
        assert r * d < 0.0;
      }
    }
  }

  /** 1.0 for a win, 0.0 for a loss, 0.5 for anything else. */
  function ResultLabel(result: string): (l: real)
    ensures l == 1.0 <==> result == "win"
    ensures l == 0.0 <==> result == "lose"
    ensures l == 0.5 <==> result != "win" && result != "lose"
  {
    if result == "win" then 1.0 else if result == "lose" then 0.0 else 0.5
  }

  /** The least score; the samples are not empty. */
  function MinScore(samples: seq<Sample>): (m: real)
    requires |samples| > 0
    ensures forall i :: 0 <= i < |samples| ==> m <= samples[i].score
    ensures exists i :: 0 <= i < |samples| && m == samples[i].score
  {
    if |samples| == 1 then samples[0].score
    else
      var m := MinScore(samples[..|samples| - 1]);
      assert forall i :: 0 <= i < |samples| - 1 ==> samples[..|samples| - 1][i] == samples[i];
      if samples[|samples| - 1].score < m then samples[|samples| - 1].score else m
  }

  /** The greatest score; the samples are not empty. */
  function MaxScore(samples: seq<Sample>): (m: real)
    requires |samples| > 0
    ensures forall i :: 0 <= i < |samples| ==> samples[i].score <= m
    ensures exists i :: 0 <= i < |samples| && m == samples[i].score
  {
    if |samples| == 1 then samples[0].score
    else
      var m := MaxScore(samples[..|samples| - 1]);
      assert forall i :: 0 <= i < |samples| - 1 ==> samples[..|samples| - 1][i] == samples[i];
      if samples[|samples| - 1].score > m then samples[|samples| - 1].score else m
  }

  function CountEmptyInRow(row: seq<int>): nat
  {
    if |row| == 0 then 0 else CountEmptyInRow(row[..|row| - 1]) + (if row[|row| - 1] == EMPTY then 1 else 0)
  }

  function CountEmpty(board: seq<seq<int>>): nat
  {
    if |board| == 0 then 0 else CountEmpty(board[..|board| - 1]) + CountEmptyInRow(board[|board| - 1])
  }

  /** Empty cells over the number of rows squared, as the source divides. */
  function EmptyRatio(board: seq<seq<int>>): real
    requires |board| > 0
  {
    CountEmpty(board) as real / (|board| * |board|) as real
  }

  /** On a square board the empty ratio is a share: between 0 and 1. */
  lemma {:induction false} EmptyRatioOfSquare(board: seq<seq<int>>)
    requires |board| > 0 && forall i :: 0 <= i < |board| ==> |board[i]| == |board|
    ensures 0.0 <= EmptyRatio(board) <= 1.0
  {
    CountEmptyBound(board, |board|);
    RatioInUnit(CountEmpty(board) as real, (|board| * |board|) as real);
  }

  lemma RatioInUnit(a: real, d: real)
    requires 0.0 <= a <= d && d > 0.0
    ensures 0.0 <= a / d <= 1.0
  {
    assert (a / d) * d == a;
  }

  lemma {:induction false} CountEmptyBound(board: seq<seq<int>>, w: nat)
    requires forall i :: 0 <= i < |board| ==> |board[i]| == w
    ensures CountEmpty(board) <= |board| * w
  {
    if |board| > 0 {
      CountEmptyBound(board[..|board| - 1], w);
      CountEmptyInRowBound(board[|board| - 1]);
      assert (|board| - 1) * w + w == |board| * w;
    }
  }

  lemma {:induction false} CountEmptyInRowBound(row: seq<int>)
    ensures CountEmptyInRow(row) <= |row|
  {
    if |row| > 0 {
      CountEmptyInRowBound(row[..|row| - 1]);
    }
  }

  /** One preprocessed sample. */
  datatype Features = Features(
    gameId: string, x: int, y: int, color: Json.Value, normalizedScore: real,
    quality: real, emptyRatio: real, pattern: string, resultLabel: real, timestamp: real)

  /**
   * The features of one sample; none when its move or its board does not
   * parse (the source raises and the whole preprocessing fails).
   */
  function Featurize(s: Sample, lo: real, hi: real, now: real): Option<Features>
  {
    var m := ParseMove(s.move);
    var b := DataUtils.StrToBoard(s.board);
    if m.None? || b.None? then None
    else
      assert |b.value| == |Strings.Split(s.board, ';')| >= 1;
      Some(Assemble(s, m.value, b.value, lo, hi, now))
  }

  /** The features of a sample whose move and board parsed. */
  function Assemble(s: Sample, move: (int, int), board: seq<seq<int>>, lo: real, hi: real, now: real): Features
    requires |board| > 0
  {
    Features(
      if s.gameId.Some? then s.gameId.value else "processed_" + Strings.IntToString(Security.Trunc(now)),
      move.0, move.1, s.color, Normalized(s.score, lo, hi), s.quality,
      EmptyRatio(board), s.pattern, ResultLabel(s.result),
      if s.timestamp.Some? then s.timestamp.value else now)
  }

  predicate AllFeaturize(samples: seq<Sample>, lo: real, hi: real, now: real)
  {
    forall i :: 0 <= i < |samples| ==> Featurize(samples[i], lo, hi, now).Some?
  }

  /** A sample whose score lies within the range gets a score in [0, 1] and one of the three labels. */
  lemma FeaturesBounded(s: Sample, lo: real, hi: real, now: real)
    requires lo <= s.score <= hi && Featurize(s, lo, hi, now).Some?
    ensures var f := Featurize(s, lo, hi, now).value;
      0.0 <= f.normalizedScore <= 1.0 && f.resultLabel in {0.0, 0.5, 1.0}
  {
    NormalizedInUnit(s.score, lo, hi);
  }

  /**
   * Every sample featurized in order by the given step; false at the first
   * one the step rejects.
   */
  method FeaturizeAll(samples: seq<Sample>, featurize: Sample -> Option<Features>)
    returns (ok: bool, processed: seq<Features>)
    ensures ok <==> forall i :: 0 <= i < |samples| ==> featurize(samples[i]).Some?
    ensures ok ==> (|processed| == |samples| &&
      forall i :: 0 <= i < |samples| ==> Some(processed[i]) == featurize(samples[i]))
  {
    processed := [];
    var i := 0;
    while i < |samples|
      invariant 0 <= i <= |samples|
      invariant |processed| == i
      invariant forall k :: 0 <= k < i ==> Some(processed[k]) == featurize(samples[k])
    {
      var f := featurize(samples[i]);
      if f.None? {
        return false, [];
      }
      ghost var before := processed;
      processed := processed + [f.value];
      assert forall k :: 0 <= k < i ==> processed[k] == before[k];
      i := i + 1;
    }
    ok := true;
  }

  /**
   * The self-play samples and the user's, turned into features with the
   * scores scaled into [0, 1] by the global minimum and maximum.  False
   * when there is no data or a sample's move or board does not parse.
   */
  method PreprocessData(selfPlay: seq<Sample>, manual: seq<Sample>, now: real)
    returns (ok: bool, processed: seq<Features>)
    ensures var total := selfPlay + manual;
      ok <==> total != [] && AllFeaturize(total, MinScore(total), MaxScore(total), now)
    ensures var total := selfPlay + manual;
      ok ==> (|processed| == |total| &&
        forall i :: 0 <= i < |total| ==>
          Some(processed[i]) == Featurize(total[i], MinScore(total), MaxScore(total), now))
    ensures ok ==> forall i :: 0 <= i < |processed| ==>
      (0.0 <= processed[i].normalizedScore <= 1.0 &&
      processed[i].resultLabel in {0.0, 0.5, 1.0})
  {
    var total := selfPlay + manual;
    if total == [] {
      return false, [];
    }
    var lo, hi := MinScore(total), MaxScore(total);
    ok, processed := FeaturizeAll(total, s => Featurize(s, lo, hi, now));
    if ok {
      forall i | 0 <= i < |processed|
        ensures 0.0 <= processed[i].normalizedScore <= 1.0 && processed[i].resultLabel in {0.0, 0.5, 1.0}
      {
        FeaturesBounded(total[i], lo, hi, now);
      }
    }
  }

  // ---------------------------------------------------------------------
  // import_manual_data

  /** The columns a hand-labelled CSV file must have. */
  const REQUIRED_COLUMNS: seq<string> := ["board", "move", "color", "pattern", "score", "quality", "result"]

  /** A CSV row: column name to cell text, none for a cell the row is short of. */
  type Row = map<string, Json.Value>

  /** The required columns the header lacks, in the order above. */
  function MissingColumns(fieldnames: seq<string>): (m: seq<string>)
    ensures forall c :: c in m <==> c in REQUIRED_COLUMNS && c !in fieldnames
  {
    Missing(REQUIRED_COLUMNS, fieldnames)
  }

  function Missing(cols: seq<string>, fieldnames: seq<string>): (m: seq<string>)
    ensures forall c :: c in m <==> c in cols && c !in fieldnames
  {
    if |cols| == 0 then []
    else (if cols[0] in fieldnames then [] else [cols[0]]) + Missing(cols[1..], fieldnames)
  }

  /** The text of a cell, when the row has it. */
  function Cell(row: Row, column: string): Option<string>
  {
    if column in row && row[column].Str? then Some(row[column].s) else None
  }

  /** The game id of the index-th kept row: manual_<user>_<int(now)>_<index>. */
  function ManualGameId(userId: string, now: real, index: nat): string
  {
    "manual_" + userId + "_" + Strings.IntToString(Security.Trunc(now)) + "_" + Strings.NatToString(index)
  }

  /** The kept rows have pairwise different game ids. */
  lemma ManualGameIdsDistinct(userId: string, now: real, i: nat, j: nat)
    requires ManualGameId(userId, now, i) == ManualGameId(userId, now, j)
    ensures i == j
  {
    var pre := "manual_" + userId + "_" + Strings.IntToString(Security.Trunc(now)) + "_";
    assert ManualGameId(userId, now, i) == pre + Strings.NatToString(i);
    assert ManualGameId(userId, now, j) == pre + Strings.NatToString(j);
    assert Strings.NatToString(i) == ManualGameId(userId, now, i)[|pre|..];
    Strings.NatToStringInjective(i, j);
  }

  /** What happens to one row: skipped for a bad move, fatal for a bad board, else kept. */
  datatype Step = Skip | Fail | Keep(row: Row)

  function CleanRow(row: Row, userId: string, now: real, index: nat): (st: Step)
    ensures st.Skip? <==> Cell(row, "move").None? || ParseMove(Cell(row, "move").value).None?
  {
    var mv := Cell(row, "move");
    if mv.None? || ParseMove(mv.value).None? then Skip
    else
      var b := Cell(row, "board");
      if b.None? || DataUtils.StrToBoard(b.value).None? then Fail
      else
        Keep(row["board" := Json.Str(DataUtils.BoardToStr(DataUtils.StrToBoard(b.value).value))]
                ["timestamp" := if "timestamp" in row then row["timestamp"] else Json.Real(now)]
                ["game_id" := Json.Str(ManualGameId(userId, now, index))])
  }

  /** The rows in order, cleaned; none as soon as a kept row's board does not parse. */
  function Clean(rows: seq<Row>, userId: string, now: real): Option<seq<Row>>
  {
    if |rows| == 0 then Some([])
    else
      match Clean(rows[..|rows| - 1], userId, now)
      case None => None
      case Some(prev) =>
        match CleanRow(rows[|rows| - 1], userId, now, |prev|)
        case Skip => Some(prev)
        case Fail => None
        case Keep(r) => Some(prev + [r])
  }

  predicate MoveParses(row: Row)
  {
    Cell(row, "move").Some? && ParseMove(Cell(row, "move").value).Some?
  }

  /** The number of rows whose move is two integers. */
  function CountValidMoves(rows: seq<Row>): nat
  {
    if |rows| == 0 then 0 else CountValidMoves(rows[..|rows| - 1]) + (if MoveParses(rows[|rows| - 1]) then 1 else 0)
  }

  /** What a kept row holds after cleaning. */
  ghost predicate CleanedRow(r: Row, userId: string, now: real, index: nat)
  {
    MoveParses(r) && "timestamp" in r && "game_id" in r && "board" in r &&
    r["game_id"] == Json.Str(ManualGameId(userId, now, index)) &&
    exists b :: r["board"] == Json.Str(DataUtils.BoardToStr(b))
  }

  /** Cleaning one more row extends the kept rows by that row, cleaned, exactly when its move parses. */
  lemma CleanLast(rows: seq<Row>, userId: string, now: real)
    requires |rows| > 0 && Clean(rows, userId, now).Some?
    ensures Clean(rows[..|rows| - 1], userId, now).Some?
    ensures var prev := Clean(rows[..|rows| - 1], userId, now).value;
      var c := Clean(rows, userId, now).value;
      |c| == |prev| + (if MoveParses(rows[|rows| - 1]) then 1 else 0) && c[..|prev|] == prev &&
      (|c| > |prev| ==> CleanedRow(c[|prev|], userId, now, |prev|))
  {
    var prev := Clean(rows[..|rows| - 1], userId, now).value;
    var row := rows[|rows| - 1];
    if CleanRow(row, userId, now, |prev|).Keep? {
      KeptRowShape(row, userId, now, |prev|);
    }
  }

  /** A kept row is cleaned: its move still parses, and board, timestamp and game id are set. */
  lemma KeptRowShape(row: Row, userId: string, now: real, index: nat)
    requires CleanRow(row, userId, now, index).Keep?
    ensures CleanedRow(CleanRow(row, userId, now, index).row, userId, now, index)
  {
    var b := DataUtils.StrToBoard(Cell(row, "board").value).value;
    var r1 := row["board" := Json.Str(DataUtils.BoardToStr(b))];
    var r2 := r1["timestamp" := if "timestamp" in row then row["timestamp"] else Json.Real(now)];
    var r := r2["game_id" := Json.Str(ManualGameId(userId, now, index))];
    assert r == CleanRow(row, userId, now, index).row;
    assert r["move"] == row["move"];
    assert Cell(r, "move") == Cell(row, "move");
  }

  /** A successful clean keeps one row for each row whose move parses. */
  lemma {:induction false} CleanCount(rows: seq<Row>, userId: string, now: real)
    requires Clean(rows, userId, now).Some?
    ensures |Clean(rows, userId, now).value| == CountValidMoves(rows)
  {
    if |rows| > 0 {
      CleanLast(rows, userId, now);
      CleanCount(rows[..|rows| - 1], userId, now);
    }
  }

  /**
   * Every kept row has a parsing move, a normalised board, a timestamp,
   * and the game id of its position among the kept rows.
   */
  lemma {:induction false} CleanShape(rows: seq<Row>, userId: string, now: real)
    requires Clean(rows, userId, now).Some?
    ensures var c := Clean(rows, userId, now).value;
      forall i :: 0 <= i < |c| ==> CleanedRow(c[i], userId, now, i)
  {
    if |rows| > 0 {
      var init := rows[..|rows| - 1];
      CleanLast(rows, userId, now);
      CleanShape(init, userId, now);
      ShapeExtends(Clean(init, userId, now).value, Clean(rows, userId, now).value, userId, now);
    }
  }

  lemma ShapeExtends(prev: seq<Row>, c: seq<Row>, userId: string, now: real)
    requires |prev| <= |c| <= |prev| + 1 && c[..|prev|] == prev
    requires forall i :: 0 <= i < |prev| ==> CleanedRow(prev[i], userId, now, i)
    requires |c| > |prev| ==> CleanedRow(c[|prev|], userId, now, |prev|)
    ensures forall i :: 0 <= i < |c| ==> CleanedRow(c[i], userId, now, i)
  {
    forall i | 0 <= i < |c|
      ensures CleanedRow(c[i], userId, now, i)
    {
      if i < |prev| {
        assert c[i] == c[..|prev|][i] == prev[i];
      }
    }
  }

  /** A normalised board is normalised already: it reads back as the same board. */
  lemma NormalizedBoardStable(s: string)
    requires DataUtils.StrToBoard(s).Some?
    ensures var b := DataUtils.StrToBoard(s).value;
      DataUtils.StrToBoard(DataUtils.BoardToStr(b)) == Some(b)
  {
    var b := DataUtils.StrToBoard(s).value;
    var rows := Strings.Split(s, ';');
    assert |b| == |rows| >= 1;
    forall i | 0 <= i < |b|
      ensures |b[i]| >= 1
    {
      assert |b[i]| == |Strings.Split(rows[i], ',')|;
    }
    DataUtils.StrToBoardRoundTrip(b);
  }

  /**
   * Imports a hand-labelled CSV file for a user: false when the file does
   * not exist, a required column is missing, or a kept row's board does
   * not parse; otherwise the cleaned rows are saved and the result is true.
   */
  method ImportManualData(fileExists: bool, fieldnames: seq<string>, rows: seq<Row>, userId: string, now: real)
    returns (ok: bool, saved: Option<seq<Row>>)
    ensures ok <==> fileExists && MissingColumns(fieldnames) == [] && Clean(rows, userId, now).Some?
    ensures saved == if ok then Clean(rows, userId, now) else None
  {
    if !fileExists || MissingColumns(fieldnames) != [] {
      return false, None;
    }
    var cleaned: seq<Row> := [];
    var i := 0;
    while i < |rows|
      invariant 0 <= i <= |rows|
      invariant Clean(rows[..i], userId, now) == Some(cleaned)
    {
      assert rows[..i + 1][..i] == rows[..i];
      var st := CleanRow(rows[i], userId, now, |cleaned|);
      if st.Fail? {
        CleanFailSticks(rows, userId, now, i + 1);
        return false, None;
      }
      if st.Keep? {
        cleaned := cleaned + [st.row];
      }
      i := i + 1;
    }
    assert rows[..i] == rows;
    return true, Some(cleaned);
  }

  /** Once a prefix fails to clean, so does the whole list. */
  lemma {:induction false} CleanFailSticks(rows: seq<Row>, userId: string, now: real, n: nat)
    requires n <= |rows| && Clean(rows[..n], userId, now).None?
    ensures Clean(rows, userId, now).None?
    decreases |rows| - n
  {
    if n < |rows| {
      assert rows[..n + 1][..n] == rows[..n];
      CleanFailSticks(rows, userId, now, n + 1);
    } else {
      assert rows[..n] == rows;
    }
  }
}
