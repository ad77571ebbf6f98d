/**
 * The user store: one JSON file per user, named user_{id}.json, holding
 * the user's fields completed with defaults. The directory is a map from
 * file name to the JSON value stored in it; the listing list_files returns
 * is a parameter.
 */
module UserStore {
  import opened Wrappers
  import opened Strings
  import opened Json

  const FILE_PREFIX: string := "user_"
  const FILE_SUFFIX: string := ".json"

  /** The default fields, in the order save_user fills them. */
  const DEFAULT_KEYS: seq<string> := ["nickname", "elo_score", "win_count", "lose_count", "draw_count",
                                      "total_games", "last_login", "created_at", "preferred_ai_level", "theme"]

  /** The default user: "anonymous user", an Elo score of 1500, no games, medium AI level, default theme. */
  const DEFAULTS: map<string, Value> := map[
    "nickname" := Str("匿名用户"), "elo_score" := Int(1500), "win_count" := Int(0), "lose_count" := Int(0),
    "draw_count" := Int(0), "total_games" := Int(0), "last_login" := Int(0), "created_at" := Int(0),
    "preferred_ai_level" := Str("MEDIUM"), "theme" := Str("default")]

  /** The three counts whose update recomputes total_games. */
  const COUNT_KEYS: set<string> := {"win_count", "lose_count", "draw_count"}

  lemma DefaultKeysListed()
    ensures forall k :: k in DEFAULTS <==> k in DEFAULT_KEYS
  {
  }

  /** save_user's completion: every default field the data lacks is added, and no supplied field changes. */
  function Completed(data: map<string, Value>): (r: map<string, Value>)
    ensures r.Keys == data.Keys + DEFAULTS.Keys
    ensures forall k :: k in data ==> r[k] == data[k]
    ensures forall k :: k in DEFAULTS && k !in data ==> r[k] == DEFAULTS[k]
  {
    DEFAULTS + data
  }

  /** Completing twice is completing once. */
  lemma CompletedIdempotent(data: map<string, Value>)
    ensures Completed(Completed(data)) == Completed(data)
  {
  }

  /** user_{id}.json */
  function UserFilename(userId: string): (f: string)
    ensures StartsWith(f, FILE_PREFIX) && EndsWith(f, FILE_SUFFIX)
    ensures |f| == |FILE_PREFIX| + |userId| + |FILE_SUFFIX|
  {
    FILE_PREFIX + userId + FILE_SUFFIX
  }

  /**
   * list_all_users on one name: a name with the prefix and the suffix gives
   * the text between them (filename[5:-5]), any other name nothing. The
   * prefix and the suffix cannot overlap, so such a name is at least ten
   * characters long.
   */
  function UserIdOf(filename: string): (r: Option<string>)
    ensures r.Some? <==> StartsWith(filename, FILE_PREFIX) && EndsWith(filename, FILE_SUFFIX)
  {
    if StartsWith(filename, FILE_PREFIX) && EndsWith(filename, FILE_SUFFIX) then
      assert filename[|filename| - 5] == '.';
      Some(filename[5..|filename| - 5])
    else None
  }

  /** The id is recovered from its file name. */
  lemma UserIdRoundTrip(userId: string)
    ensures UserIdOf(UserFilename(userId)) == Some(userId)
  {
    var f := UserFilename(userId);
    assert f[..5] == FILE_PREFIX && f[|f| - 5..] == FILE_SUFFIX;
    assert f[5..|f| - 5] == userId;
  }

  /** Every name an id is recovered from is that id's file name. */
  lemma UserFilenameRoundTrip(filename: string)
    requires UserIdOf(filename).Some?
    ensures UserFilename(UserIdOf(filename).value) == filename
  {
    var f := filename;
    assert f[..5] == FILE_PREFIX && f[|f| - 5..] == FILE_SUFFIX;
    assert f[|f| - 5] == '.';
    assert f == f[..5] + f[5..|f| - 5] + f[|f| - 5..];
  }

  /** The ids list_all_users collects from a listing, in its order. */
  function UserIds(listed: seq<string>): (ids: seq<string>)
    ensures |ids| <= |listed|
  {
    if listed == [] then []
    else
      var last := listed[|listed| - 1];
      UserIds(listed[..|listed| - 1]) + (if UserIdOf(last).Some? then [UserIdOf(last).value] else [])
  }

  /** Listing the files of a set of users gives the users back, in listing order. */
  lemma {:induction false} UserIdsOfFilenames(ids: seq<string>)
    ensures UserIds(seq(|ids|, i requires 0 <= i < |ids| => UserFilename(ids[i]))) == ids
  {
    var names := seq(|ids|, i requires 0 <= i < |ids| => UserFilename(ids[i]));
    if ids != [] {
      var n := |ids| - 1;
      UserIdsOfFilenames(ids[..n]);
      assert names[..n] == seq(|ids[..n]|, i requires 0 <= i < |ids[..n]| => UserFilename(ids[..n][i]));
      UserIdRoundTrip(ids[n]);
      assert ids == ids[..n] + [ids[n]];
    }
  }

  /** load_user: the stored data, or a copy of the defaults when there is no file or its data is falsy. */
  function Loaded(files: map<string, Value>, userId: string): (r: Value)
    ensures r == Obj(DEFAULTS) || (UserFilename(userId) in files && r == files[UserFilename(userId)])
    ensures Truthy(r)
  {
    var f := UserFilename(userId);
    assert "theme" in DEFAULTS;
    if f in files && Truthy(files[f]) then files[f] else Obj(DEFAULTS)
  }

  /** A saved user loads back as saved, completed with the defaults. */
  lemma SaveThenLoad(files: map<string, Value>, userId: string, data: map<string, Value>)
    ensures Loaded(files[UserFilename(userId) := Obj(Completed(data))], userId) == Obj(Completed(data))
  {
    assert "theme" in Completed(data);
  }

  /** The sum update_user stores: win_count + lose_count + draw_count, none when a count is missing or the types do not add. */
  function Total(user: map<string, Value>): (r: Option<Value>)
    ensures (forall k :: k in COUNT_KEYS ==> k in user && user[k].Int?) ==>
      r == Some(Int(user["win_count"].i + user["lose_count"].i + user["draw_count"].i))
  {
    if "win_count" in user && "lose_count" in user && "draw_count" in user then
      match Add(user["win_count"], user["lose_count"])
      case None => None
      case Some(wl) => Add(wl, user["draw_count"])
    else None
  }

  /**
   * update_user on the loaded data: the update's fields overwrite, and when
   * the update names a count, total_games is recomputed from the merged
   * counts. Data that is not a dict, or counts that are missing or do not
   * add, raise.
   */
  function Updated(user: Value, update: map<string, Value>): (r: Result<map<string, Value>>)
    ensures r.Err? <==> !user.Obj? || ((update.Keys * COUNT_KEYS != {}) && Total(user.fields + update).None?)
    ensures r.Ok? ==> r.value.Keys == user.fields.Keys + update.Keys + (if update.Keys * COUNT_KEYS != {} then {"total_games"} else {})
    ensures r.Ok? ==> forall k :: k in update && k != "total_games" ==> r.value[k] == update[k]
    ensures r.Ok? ==> forall k :: k in user.fields && k !in update && k != "total_games" ==> r.value[k] == user.fields[k]
    ensures r.Ok? && update.Keys * COUNT_KEYS == {} ==> r.value == user.fields + update
  {
    if !user.Obj? then Err("user data is not a dict")
    else
      var merged := user.fields + update;
      if update.Keys * COUNT_KEYS != {} then
        match Total(merged)
        case None => Err("counts do not add up")
        case Some(t) => Ok(merged["total_games" := t])
      else Ok(merged)
  }

  /** After an update of integer counts, total_games is their sum. */
  lemma UpdateKeepsTotal(user: Value, update: map<string, Value>)
    requires user.Obj? && update.Keys * COUNT_KEYS != {}
    requires forall k :: k in COUNT_KEYS ==> k in user.fields + update && (user.fields + update)[k].Int?
    ensures var r := Updated(user, update).value;
      r["total_games"] == Int(r["win_count"].i + r["lose_count"].i + r["draw_count"].i)
  {
    var merged := user.fields + update;
    assert Total(merged).Some?;
  }

  /** A dict that kept its own fields and gained exactly the missing defaults is the completed dict. */
  lemma FilledIsCompleted(before: map<string, Value>, after: map<string, Value>)
    requires forall k :: k in before ==> k in after && after[k] == before[k]
    requires forall k :: k in DEFAULT_KEYS ==> k in after
    requires forall k :: k in after ==> k in before || (k in DEFAULTS && after[k] == DEFAULTS[k])
    ensures after == Completed(before)
  {
    DefaultKeysListed();
    assert after.Keys == Completed(before).Keys;
  }

  /** save_user's loop: each default field, in order, is added when the dict lacks it. */
  method FillDefaults(before: map<string, Value>) returns (fields: map<string, Value>)
    ensures fields == Completed(before)
  {
    fields := before;
    var i := 0;
    while i < |DEFAULT_KEYS|
      invariant 0 <= i <= |DEFAULT_KEYS|
      invariant forall k :: k in before ==> k in fields && fields[k] == before[k]
      invariant forall k :: k in DEFAULT_KEYS[..i] ==> k in fields
      invariant forall k :: k in fields ==> k in before || (k in DEFAULTS && fields[k] == DEFAULTS[k])
    {
      var key := DEFAULT_KEYS[i];
      DefaultKeysListed();
      assert key in DEFAULTS;
      if key !in fields {
        fields := fields[key := DEFAULTS[key]];
      }
      assert DEFAULT_KEYS[..i + 1] == DEFAULT_KEYS[..i] + [key];
      i := i + 1;
    }
    assert DEFAULT_KEYS[..i] == DEFAULT_KEYS;
    FilledIsCompleted(before, fields);
  }

  class UserStorage {
    /** The user directory: file name to the JSON value in it. */
    var files: map<string, Value>

    constructor (files: map<string, Value>)
      ensures this.files == files
    {
      this.files := files;
    }

    /**
     * save_user: add the missing default fields to the caller's dict, in
     * place, then write it to the user's file.
     */
    method SaveUser(userId: string, data: Dict) returns (ok: bool)
      modifies this, data
      ensures ok
      ensures data.fields == Completed(old(data.fields))
      ensures files == old(files)[UserFilename(userId) := Obj(data.fields)]
    {
      var fields := FillDefaults(data.fields);
      files := files[UserFilename(userId) := Obj(fields)];
      data.fields := fields;
      ok := true;
    }

    /** load_user: a new dict holding the stored data or the defaults. */
    method LoadUser(userId: string) returns (r: Value)
      ensures r == Loaded(files, userId)
    {
      var f := UserFilename(userId);
      if f in files && Truthy(files[f]) {
        r := files[f];
      } else {
        r := Obj(DEFAULTS);
      }
    }

    /**
     * update_user: load, merge the update, recompute the total when a count
     * changed, and save with the defaults completed. A raise leaves the
     * directory as it was.
     */
    method UpdateUser(userId: string, update: map<string, Value>) returns (r: Result<bool>)
      modifies this
      ensures r.Ok? <==> Updated(Loaded(old(files), userId), update).Ok?
      ensures r.Ok? ==> files == old(files)[UserFilename(userId) := Obj(Completed(Updated(Loaded(old(files), userId), update).value))]
      ensures r.Err? ==> files == old(files)
    {
      var user := LoadUser(userId);
      match Updated(user, update) {
        case Err(e) =>
          return Err(e);
        case Ok(merged) =>
          var d := new Dict(merged);
          var ok := SaveUser(userId, d);
          return Ok(ok);
      }
    }

    /** delete_user: remove the user's file; false when there is none. */
    method DeleteUser(userId: string) returns (deleted: bool)
      modifies this
      ensures deleted <==> UserFilename(userId) in old(files)
      ensures files == old(files) - {UserFilename(userId)}
    {
      var f := UserFilename(userId);
      deleted := f in files;
      files := files - {f};
    }

    /** list_all_users over list_files' listing of the .json files. */
    method ListAllUsers(listed: seq<string>) returns (users: seq<string>)
      ensures users == UserIds(listed)
    {
      users := [];
      var i := 0;
      while i < |listed|
        invariant 0 <= i <= |listed|
        invariant users == UserIds(listed[..i])
      {
        assert listed[..i + 1][..i] == listed[..i];
        var f := listed[i];
        if StartsWith(f, FILE_PREFIX) && EndsWith(f, FILE_SUFFIX) {
          users := users + [UserIdOf(f).value];
        }
        i := i + 1;
      }
      assert listed[..i] == listed;
    }
  }
}
