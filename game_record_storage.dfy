/**
 * The game-record store: one JSON file per finished game, named
 * user_{id}_record_{timestamp}.json, completed with the required fields,
 * and read back newest first. The directory is a map from file name to the
 * JSON value stored in it; the listing list_files returns, the clock and
 * Python's rendering of non-integer timestamps are parameters.
 */
module RecordStore {
  import opened Wrappers
  import opened Strings
  import opened Json
  import opened ExtReals
  import Sorting
  import Standings

  const RECORD_SUFFIX: string := ".json"

  /** The fields every saved record has, in the order save_record fills them. */
  const REQUIRED_FIELDS: seq<string> := ["mode", "move_history", "result", "timestamp"]

  /** The value save_record fills in for a missing required field. */
  function DefaultFor(field: string, now: int): Value
  {
    if field == "timestamp" then Int(now)
    else if field == "result" then Obj(map["winner" := Str("draw"), "win_line" := Arr([])])
    else if field == "move_history" then Arr([])
    else Str("unknown")
  }

  /** The defaults of all required fields: the current time, a draw with no winning line, no moves, mode "unknown". */
  function RequiredDefaults(now: int): (m: map<string, Value>)
    ensures forall k :: k in m <==> k in REQUIRED_FIELDS
    ensures forall k :: k in m ==> m[k] == DefaultFor(k, now)
  {
    map k | k in REQUIRED_FIELDS :: DefaultFor(k, now)
  }

  /** save_record's completion: missing required fields get their defaults, present ones stay. */
  function Completed(record: map<string, Value>, now: int): (r: map<string, Value>)
    ensures forall k :: k in r <==> k in record || k in REQUIRED_FIELDS
    ensures forall k :: k in record ==> r[k] == record[k]
    ensures forall k :: k in REQUIRED_FIELDS && k !in record ==> r[k] == DefaultFor(k, now)
  {
    RequiredDefaults(now) + record
  }

  /** A completed record keeps a timestamp it was given, and otherwise is stamped with the current time. */
  lemma CompletedTimestamp(record: map<string, Value>, now: int)
    ensures Completed(record, now)["timestamp"] == if "timestamp" in record then record["timestamp"] else Int(now)
  {
    assert "timestamp" in REQUIRED_FIELDS;
  }

  /** The prefix shared by all of one user's record files. */
  function RecordPrefix(userId: string): string
  {
    "user_" + userId + "_record_"
  }

  /** _get_record_filename: user_{id}_record_{timestamp}.json, the timestamp as an f-string renders it. */
  function RecordFilename(userId: string, timestamp: Value, repr: Value -> string): (f: string)
    ensures StartsWith(f, RecordPrefix(userId)) && EndsWith(f, RECORD_SUFFIX)
  {
    var f := RecordPrefix(userId) + Format(timestamp, repr) + RECORD_SUFFIX;
    assert f[..|RecordPrefix(userId)|] == RecordPrefix(userId);
    f
  }

  /** An integer timestamp is written in decimal and can be read back from the name. */
  lemma RecordFilenameTimestamp(userId: string, timestamp: int, repr: Value -> string)
    ensures var f := RecordFilename(userId, Int(timestamp), repr);
      var p := |RecordPrefix(userId)|;
      p <= |f| - |RECORD_SUFFIX| && ParseInt(f[p..|f| - |RECORD_SUFFIX|]) == Some(timestamp)
  {
    var f := RecordFilename(userId, Int(timestamp), repr);
    var p := |RecordPrefix(userId)|;
    assert f[p..|f| - |RECORD_SUFFIX|] == IntToString(timestamp);
    ParseIntRoundTrip(timestamp);
  }

  /** The number of names in the listing that carry the prefix. */
  function CountPrefixed(listed: seq<string>, prefix: string): (n: nat)
    ensures n <= |listed|
  {
    if listed == [] then 0
    else CountPrefixed(listed[..|listed| - 1], prefix) + (if StartsWith(listed[|listed| - 1], prefix) then 1 else 0)
  }

  /** Saving one more record of a user adds one to the user's count and none to any other user whose prefix it lacks. */
  lemma {:induction false} CountAfterSave(listed: seq<string>, userId: string, other: string, timestamp: Value, repr: Value -> string)
    ensures CountPrefixed(listed + [RecordFilename(userId, timestamp, repr)], RecordPrefix(other))
         == CountPrefixed(listed, RecordPrefix(other))
            + (if StartsWith(RecordFilename(userId, timestamp, repr), RecordPrefix(other)) then 1 else 0)
    ensures other == userId ==> StartsWith(RecordFilename(userId, timestamp, repr), RecordPrefix(other))
  {
    var l := listed + [RecordFilename(userId, timestamp, repr)];
    assert l[..|l| - 1] == listed;
  }

  /** The records load_user_records collects, in listing order: the truthy contents of existing files carrying the user's prefix. */
  function LoadedRecords(files: map<string, Value>, listed: seq<string>, userId: string): (recs: seq<Value>)
    ensures |recs| <= CountPrefixed(listed, RecordPrefix(userId))
    ensures forall v :: v in recs ==> Truthy(v)
  {
    if listed == [] then []
    else
      var f := listed[|listed| - 1];
      LoadedRecords(files, listed[..|listed| - 1], userId)
        + (if StartsWith(f, RecordPrefix(userId)) && f in files && Truthy(files[f]) then [files[f]] else [])
  }

  /** Every loaded record is the content of one of the user's files. */
  lemma {:induction false} LoadedFromUserFiles(files: map<string, Value>, listed: seq<string>, userId: string, v: Value)
    requires v in LoadedRecords(files, listed, userId)
    ensures exists f :: f in listed && StartsWith(f, RecordPrefix(userId)) && f in files && files[f] == v
  {
    var n := |listed| - 1;
    var f := listed[n];
    if v in LoadedRecords(files, listed[..n], userId) {
      LoadedFromUserFiles(files, listed[..n], userId, v);
      var g :| g in listed[..n] && StartsWith(g, RecordPrefix(userId)) && g in files && files[g] == v;
      assert g in listed;
    } else {
      assert f in listed && files[f] == v;
    }
  }

  /** x['timestamp'] as a number: a dict's timestamp field when it is an int, a bool or a float. */
  function TimestampKey(v: Value): Option<real>
  {
    if v.Obj? && "timestamp" in v.fields then AsReal(v.fields["timestamp"]) else None
  }

  /** Every record has a sort key; otherwise computing the keys raises. */
  predicate AllKeyed(recs: seq<Value>)
  {
    forall i :: 0 <= i < |recs| ==> TimestampKey(recs[i]).Some?
  }

  function Keyed(recs: seq<Value>): (r: seq<(XReal, Value)>)
    requires AllKeyed(recs)
    ensures |r| == |recs| && forall i :: 0 <= i < |recs| ==> r[i] == (Fin(TimestampKey(recs[i]).value), recs[i])
  {
    seq(|recs|, i requires 0 <= i < |recs| => (Fin(TimestampKey(recs[i]).value), recs[i]))
  }

  /** The records sorted by timestamp, newest first and stably. */
  function ByTimestamp(recs: seq<Value>): seq<Value>
    requires AllKeyed(recs)
  {
    Sorting.Items(Sorting.SortBy(Keyed(recs), true))
  }

  /** The records sorted by timestamp, newest first and stably, cut with records[:limit]. */
  function Newest(recs: seq<Value>, limit: int): seq<Value>
    requires AllKeyed(recs)
  {
    Standings.Prefix(ByTimestamp(recs), limit)
  }

  /** The sort keeps the records and puts them newest first. */
  lemma ByTimestampSpec(recs: seq<Value>)
    requires AllKeyed(recs)
    ensures var items := ByTimestamp(recs);
      && multiset(items) == multiset(recs)
      && AllKeyed(items)
      && forall i, j :: 0 <= i < j < |items| ==> TimestampKey(items[i]).value >= TimestampKey(items[j]).value
  {
    var ks := Keyed(recs);
    var sorted := Sorting.SortBy(ks, true);
    Sorting.SortBySpec(ks, true);
    var items := Sorting.Items(sorted);
    Standings.MapPermutes(sorted, ks, (p: (XReal, Value)) => p.1);
    assert Standings.Map(sorted, (p: (XReal, Value)) => p.1) == items;
    assert Standings.Map(ks, (p: (XReal, Value)) => p.1) == recs;
    forall i | 0 <= i < |sorted| ensures TimestampKey(sorted[i].1).Some? && sorted[i].0 == Fin(TimestampKey(sorted[i].1).value) {
      assert sorted[i] in multiset(ks);
      var k :| 0 <= k < |ks| && ks[k] == sorted[i];
    }
  }

  /**
   * What load_user_records returns: records of the listing's own, newest
   * first, as many as the limit allows (all but the last -limit for a
   * negative limit).
   */
  lemma NewestSpec(recs: seq<Value>, limit: int)
    requires AllKeyed(recs)
    ensures var r := Newest(recs, limit);
      && |r| == (if limit >= 0 then (if limit < |recs| then limit else |recs|) else (if |recs| + limit > 0 then |recs| + limit else 0))
      && multiset(r) <= multiset(recs)
      && AllKeyed(r)
      && forall i, j :: 0 <= i < j < |r| ==> TimestampKey(r[i]).value >= TimestampKey(r[j]).value
  {
    var items := ByTimestamp(recs);
    ByTimestampSpec(recs);
    var r := Newest(recs, limit);
    assert items == r + items[|r|..];
    assert multiset(items) == multiset(r) + multiset(items[|r|..]);
  }

  /** No record left out by the limit is newer than a record kept. */
  lemma NewestDropsOlder(recs: seq<Value>, limit: int, v: Value)
    requires AllKeyed(recs)
    requires v in recs && multiset(Newest(recs, limit))[v] < multiset(recs)[v]
    ensures TimestampKey(v).Some?
    ensures forall i :: 0 <= i < |Newest(recs, limit)| ==>
      TimestampKey(Newest(recs, limit)[i]).Some? && TimestampKey(Newest(recs, limit)[i]).value >= TimestampKey(v).value
  {
    var items := ByTimestamp(recs);
    ByTimestampSpec(recs);
    var r := Newest(recs, limit);
    var dropped := items[|r|..];
    assert items == r + dropped;
    assert multiset(items) == multiset(r) + multiset(dropped);
    assert v in multiset(dropped);
    var j :| 0 <= j < |dropped| && dropped[j] == v;
    assert items[|r| + j] == v;
  }

  /** save_record's loop: each required field, in order, is added when the record lacks it. */
  method FillRequired(before: map<string, Value>, now: int) returns (fields: map<string, Value>)
    ensures fields == Completed(before, now)
  {
    fields := before;
    var i := 0;
    while i < |REQUIRED_FIELDS|
      invariant 0 <= i <= |REQUIRED_FIELDS|
      invariant forall k :: k in before ==> k in fields && fields[k] == before[k]
      invariant forall k :: k in REQUIRED_FIELDS[..i] ==> k in fields
      invariant forall k :: k in fields ==> k in before || (k in REQUIRED_FIELDS && fields[k] == DefaultFor(k, now))
    {
      var field := REQUIRED_FIELDS[i];
      if field !in fields {
        if field == "timestamp" {
          fields := fields[field := Int(now)];
        } else if field == "result" {
          fields := fields[field := Obj(map["winner" := Str("draw"), "win_line" := Arr([])])];
        } else {
          fields := fields[field := if field != "move_history" then Str("unknown") else Arr([])];
        }
      }
      assert REQUIRED_FIELDS[..i + 1] == REQUIRED_FIELDS[..i] + [field];
      i := i + 1;
    }
    assert REQUIRED_FIELDS[..i] == REQUIRED_FIELDS;
    assert fields.Keys == Completed(before, now).Keys;
  }

  class GameRecordStorage {
    /** The record directory: file name to the JSON value in it. */
    var files: map<string, Value>

    constructor (files: map<string, Value>)
      ensures this.files == files
    {
      this.files := files;
    }

    /**
     * save_record: complete the caller's record in place, then write it
     * under the name its timestamp gives.
     */
    method SaveRecord(userId: string, record: Dict, now: int, repr: Value -> string) returns (ok: bool)
      modifies this, record
      ensures ok
      ensures record.fields == Completed(old(record.fields), now)
      ensures "timestamp" in record.fields
      ensures files == old(files)[RecordFilename(userId, record.fields["timestamp"], repr) := Obj(record.fields)]
    {
      var fields := FillRequired(record.fields, now);
      assert "timestamp" in REQUIRED_FIELDS;
      var timestamp := fields["timestamp"];
      files := files[RecordFilename(userId, timestamp, repr) := Obj(fields)];
      record.fields := fields;
      ok := true;
    }

    /**
     * load_user_records: collect the user's records from the listing, sort
     * them by timestamp, newest first, and keep the first `limit`. A record
     * without a numeric timestamp makes the sort raise.
     */
    method LoadUserRecords(listed: seq<string>, userId: string, limit: int) returns (r: Result<seq<Value>>)
      ensures r.Err? <==> !AllKeyed(LoadedRecords(files, listed, userId))
      ensures r.Ok? ==> r.value == Newest(LoadedRecords(files, listed, userId), limit)
    {
      var records: seq<Value> := [];
      var i := 0;
      while i < |listed|
        invariant 0 <= i <= |listed|
        invariant records == LoadedRecords(files, listed[..i], userId)
      {
        assert listed[..i + 1][..i] == listed[..i];
        var f := listed[i];
        if StartsWith(f, RecordPrefix(userId)) && f in files {
          var record := files[f];
          if Truthy(record) {
            records := records + [record];
          }
        }
        i := i + 1;
      }
      assert listed[..i] == listed;
      if !AllKeyed(records) {
        return Err("a record has no comparable timestamp");
      }
      r := Ok(Newest(records, limit));
    }

    /** get_record_count: the names in the listing that carry the user's record prefix. */
    method GetRecordCount(listed: seq<string>, userId: string) returns (count: nat)
      ensures count == CountPrefixed(listed, RecordPrefix(userId))
    {
      count := 0;
      var i := 0;
      while i < |listed|
        invariant 0 <= i <= |listed|
        invariant count == CountPrefixed(listed[..i], RecordPrefix(userId))
      {
        assert listed[..i + 1][..i] == listed[..i];
        if StartsWith(listed[i], RecordPrefix(userId)) {
          count := count + 1;
        }
        i := i + 1;
      }
      assert listed[..i] == listed;
    }
  }
}
