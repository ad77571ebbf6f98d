/**
 * The model store's file naming and version control: model files
 * `{name}_v{version}_{timestamp}.pth` with a metadata file
 * `{name}_v{version}_{timestamp}_meta.json` beside them, the version read
 * back from a name with the pattern `_v(\d+)_`, the next version to save
 * and the latest version to load. The directory listing is a parameter,
 * given in the order the base store's list_files returns it; the model
 * and metadata contents (torch, JSON) are not modelled.
 */
module ModelStore {
  import opened Wrappers
  import opened Strings
  import opened ExtReals
  import Standings
  import Sorting
  import Json

  const BASE_DIR: string := "./data/model"
  const MODEL_SUFFIX: string := ".pth"
  const META_SUFFIX: string := "_meta.json"
  const SUPPORTED_TYPES: seq<string> := ["rl", "mcts", "minimax", "hybrid"]
  /** The model type assumed when the metadata names none. */
  const UNKNOWN_TYPE: string := "unknown"

  /** os.path.join(base_dir, filename) for a relative file name. */
  function FilePath(filename: string): string
  {
    BASE_DIR + "/" + filename
  }

  /** get_model_path's suffix completion: ".pth" is appended only when missing. */
  function WithModelSuffix(name: string): (r: string)
    ensures EndsWith(r, MODEL_SUFFIX)
    ensures StartsWith(r, name) && |r| <= |name| + |MODEL_SUFFIX|
    ensures EndsWith(name, MODEL_SUFFIX) <==> r == name
  {
    if EndsWith(name, MODEL_SUFFIX) then name else name + MODEL_SUFFIX
  }

  /** get_model_path: the completed name inside the model directory. */
  function GetModelPath(name: string): (p: string)
    ensures StartsWith(p, BASE_DIR + "/") && EndsWith(p, MODEL_SUFFIX)
    ensures |p| <= |BASE_DIR| + 1 + |name| + |MODEL_SUFFIX|
  {
    FilePath(WithModelSuffix(name))
  }

  /** Completing a name that is already complete changes nothing, so get_model_path may be given either form. */
  lemma ModelPathIdempotent(name: string)
    ensures WithModelSuffix(WithModelSuffix(name)) == WithModelSuffix(name)
    ensures GetModelPath(WithModelSuffix(name)) == GetModelPath(name)
  {
  }

  /** The length of the run of digits starting at position p. */
  function DigitRun(s: string, p: nat): (n: nat)
    requires p <= |s|
    ensures p + n <= |s|
    ensures forall k :: p <= k < p + n ==> IsDigit(s[k])
    ensures p + n == |s| || !IsDigit(s[p + n])
    decreases |s| - p
  {
    if p < |s| && IsDigit(s[p]) then 1 + DigitRun(s, p + 1) else 0
  }

  /**
   * The pattern _v(\d+)_ matches at position i. Since the closing '_' is not
   * a digit, the digits the group captures are exactly the run after "_v".
   */
  predicate TagAt(s: string, i: nat)
  {
    && i + 2 <= |s| && s[i] == '_' && s[i + 1] == 'v'
    && var n := DigitRun(s, i + 2);
       n >= 1 && i + 2 + n < |s| && s[i + 2 + n] == '_'
  }

  /** re.search: the leftmost position from `from` on where the pattern matches. */
  function FindTag(s: string, from: nat): (r: Option<nat>)
    ensures r.Some? ==> from <= r.value < |s| && TagAt(s, r.value)
    ensures r.Some? ==> forall j :: from <= j < r.value ==> !TagAt(s, j)
    ensures r.None? ==> forall j :: from <= j ==> !TagAt(s, j)
    decreases |s| - from
  {
    if from >= |s| then None
    else if TagAt(s, from) then Some(from)
    else FindTag(s, from + 1)
  }

  /** The captured digits of the leftmost match starting at i. */
  function TagDigits(s: string, i: nat): (d: string)
    requires TagAt(s, i)
    ensures |d| >= 1 && AllDigits(d)
  {
    var d := s[i + 2..i + 2 + DigitRun(s, i + 2)];
    assert forall k :: 0 <= k < |d| ==> d[k] == s[i + 2 + k];
    d
  }

  /** int(re.search(r'_v(\d+)_', name).group(1)), or none when the name has no match. */
  function VersionOf(name: string): Option<nat>
  {
    match FindTag(name, 0)
    case None => None
    case Some(i) => Some(DigitsToNat(TagDigits(name, i)))
  }

  /** The sort key of _find_latest_meta_file: the version, or 0 for a name without one. */
  function VersionOr0(name: string): nat
  {
    match VersionOf(name)
    case None => 0
    case Some(v) => v
  }

  /** The same key as an int, the type the sort takes. */
  function VersionKey(name: string): int
  {
    VersionOr0(name)
  }

  /** Nothing in the model name can be taken for a version tag: it never holds "_v". */
  predicate NoTag(name: string)
  {
    forall i :: 0 <= i && i + 1 < |name| ==> name[i] != '_' || name[i + 1] != 'v'
  }

  /** The common part of the two saved names: {name}_v{version}_{timestamp}. */
  function Stem(name: string, version: nat, timestamp: nat): string
  {
    name + "_v" + NatToString(version) + "_" + NatToString(timestamp)
  }

  function ModelFilename(name: string, version: nat, timestamp: nat): string
  {
    Stem(name, version, timestamp) + MODEL_SUFFIX
  }

  function MetaFilename(name: string, version: nat, timestamp: nat): string
  {
    Stem(name, version, timestamp) + META_SUFFIX
  }

  /** A saved name gives back the version it was saved under, whatever follows the stem. */
  lemma {:induction false} StemVersion(name: string, version: nat, timestamp: nat, suffix: string)
    requires NoTag(name)
    ensures VersionOf(Stem(name, version, timestamp) + suffix) == Some(version)
  {
    var s := Stem(name, version, timestamp) + suffix;
    var d := NatToString(version);
    var p := |name|;
    assert s == name + "_v" + d + ("_" + NatToString(timestamp) + suffix);
    assert s[p] == '_' && s[p + 1] == 'v' && s[p + 2 + |d|] == '_';
    assert forall k :: 0 <= k < |d| ==> s[p + 2 + k] == d[k];
    RunLength(s, p + 2, |d|);
    assert TagAt(s, p);
    forall j | 0 <= j < p ensures !TagAt(s, j) {
      if j + 1 < p {
        assert s[j] == name[j] && s[j + 1] == name[j + 1];
      } else {
        assert s[j + 1] == '_';
      }
    }
    assert FindTag(s, 0) == Some(p);
    assert TagDigits(s, p) == d;
    NatToStringRoundTrip(version);
  }

  /** A run of k digits followed by a non-digit has length k. */
  lemma {:induction false} RunLength(s: string, p: nat, k: nat)
    requires p + k < |s| && !IsDigit(s[p + k])
    requires forall j :: p <= j < p + k ==> IsDigit(s[j])
    ensures DigitRun(s, p) == k
    decreases k
  {
    if k > 0 {
      RunLength(s, p + 1, k - 1);
    }
  }

  /** The names of a listing that satisfy keep, in listing order. */
  function Keep(listed: seq<string>, keep: string -> bool): (r: seq<string>)
    ensures |r| <= |listed|
    ensures forall f :: f in r <==> f in listed && keep(f)
  {
    if listed == [] then []
    else (if keep(listed[0]) then [listed[0]] else []) + Keep(listed[1..], keep)
  }

  /**
   * _find_all_meta_files as written: the metadata files whose name starts
   * with the model name, which also takes in every model whose name
   * extends this one.
   */
  function MetaFilesAsWritten(listed: seq<string>, name: string): (r: seq<string>)
    ensures forall f :: f in r <==> f in listed && EndsWith(f, META_SUFFIX) && StartsWith(f, name)
  {
    Keep(listed, f => EndsWith(f, META_SUFFIX) && StartsWith(f, name))
  }

  /** The metadata files of this model: the name must be followed by its version tag. */
  function OwnMetaFiles(listed: seq<string>, name: string): (r: seq<string>)
    ensures forall f :: f in r <==> f in listed && EndsWith(f, META_SUFFIX) && StartsWith(f, name + "_v")
  {
    Keep(listed, f => EndsWith(f, META_SUFFIX) && StartsWith(f, name + "_v"))
  }

  /** With the prefix "m", the metadata of model "m2" is taken for model "m"'s own, version 5 included. */
  lemma PrefixTakesOtherModel()
    ensures var other := MetaFilename("m2", 5, 100);
      && other in MetaFilesAsWritten([other], "m")
      && VersionOf(other) == Some(5)
      && OwnMetaFiles([other], "m") == []
  {
    var other := MetaFilename("m2", 5, 100);
    var rest := NatToString(5) + "_" + NatToString(100);
    assert other == "m2" + "_v" + rest + META_SUFFIX;
    assert StartsWith(other, "m");
    assert EndsWith(other, META_SUFFIX);
    assert other[1] == '2';
    assert !StartsWith(other, "m" + "_v");
    var own := OwnMetaFiles([other], "m");
    assert forall f :: f !in own;
    StemVersion("m2", 5, 100, META_SUFFIX);
  }

  /** For model names without a tag of their own, the corrected filter keeps a saved metadata file exactly when it belongs to the model. */
  lemma OwnPrefixExact(other: string, name: string, version: nat, timestamp: nat)
    requires NoTag(other) && NoTag(name)
    ensures StartsWith(MetaFilename(other, version, timestamp), name + "_v") <==> other == name
  {
    var s := MetaFilename(other, version, timestamp);
    var pre := name + "_v";
    assert s == other + "_v" + (NatToString(version) + "_" + NatToString(timestamp) + META_SUFFIX);
    assert s[|other|] == '_' && s[|other| + 1] == 'v';
    assert pre[|name|] == '_' && pre[|name| + 1] == 'v';
    assert forall i :: 0 <= i < |name| ==> pre[i] == name[i];
    assert forall i :: 0 <= i < |other| ==> s[i] == other[i];
    if other != name {
      var k: nat;
      if |other| < |name| {
        k := if name[|other|] == '_' then |other| + 1 else |other|;
      } else if |other| > |name| {
        k := if other[|name|] == '_' then |name| + 1 else |name|;
      } else {
        k :| 0 <= k < |other| && other[k] != name[k];
      }
      assert k < |pre| && k < |s| && s[k] != pre[k];
      if |pre| <= |s| {
        assert s[..|pre|][k] != pre[k];
      }
    }
  }

  /** The versions that parse, in listing order. */
  function Versions(files: seq<string>): (vs: seq<nat>)
    ensures forall v :: v in vs ==> exists f :: f in files && VersionOf(f) == Some(v)
    ensures forall f :: f in files && VersionOf(f).Some? ==> VersionOf(f).value in vs
  {
    if files == [] then []
    else
      var last := files[|files| - 1];
      assert files == files[..|files| - 1] + [last];
      Versions(files[..|files| - 1]) + (if VersionOf(last).Some? then [VersionOf(last).value] else [])
  }

  /** Python's max() of a non-empty list. */
  function Max(vs: seq<nat>): (m: nat)
    requires vs != []
    ensures m in vs && forall v :: v in vs ==> v <= m
  {
    if |vs| == 1 then vs[0]
    else
      var rest := Max(vs[1..]);
      assert forall v :: v in vs ==> v == vs[0] || v in vs[1..];
      if vs[0] >= rest then vs[0] else rest
  }

  /**
   * _get_next_version over the model's metadata files: one more than every
   * version found in a name, and 1 when none is found; a name without a
   * version takes no part.
   */
  method NextVersion(metaFiles: seq<string>) returns (v: nat)
    ensures v >= 1
    ensures forall f :: f in metaFiles ==> VersionOr0(f) < v
    ensures v > 1 ==> exists f :: f in metaFiles && VersionOf(f) == Some(v - 1)
  {
    if metaFiles == [] {
      return 1;
    }
    var versions: seq<nat> := [];
    var i := 0;
    while i < |metaFiles|
      invariant 0 <= i <= |metaFiles|
      invariant versions == Versions(metaFiles[..i])
    {
      assert metaFiles[..i + 1][..i] == metaFiles[..i];
      match VersionOf(metaFiles[i]) {
        case Some(x) => versions := versions + [x];
        case None =>
      }
      i := i + 1;
    }
    assert metaFiles[..i] == metaFiles;
    if versions == [] {
      return 1;
    }
    v := Max(versions) + 1;
  }

  /** One element of the stable sort's input carrying key k comes first among those that do. */
  lemma {:induction false} WithKeyFirst<T>(s: seq<(XReal, T)>, k: XReal)
    requires Sorting.WithKey(s, k) != []
    ensures exists i :: (0 <= i < |s| && s[i] == Sorting.WithKey(s, k)[0] && s[i].0 == k
                         && forall j :: 0 <= j < i ==> s[j].0 != k)
  {
    if s[0].0 != k {
      WithKeyFirst(s[1..], k);
      var i :| 0 <= i < |s[1..]| && s[1..][i] == Sorting.WithKey(s[1..], k)[0] && s[1..][i].0 == k
        && forall j :: 0 <= j < i ==> s[1..][j].0 != k;
      assert s[i + 1] == s[1..][i];
      assert forall j :: 1 <= j < i + 1 ==> s[j] == s[1..][j - 1];
    } else {
      assert s[0] == Sorting.WithKey(s, k)[0];
    }
  }

  /**
   * _find_latest_meta_file over the model's metadata files: none for none;
   * otherwise the files are sorted by version, highest first and stably,
   * and the first is taken: a file of the highest version, the earliest in
   * listing order among equals.
   */
  function LatestMetaFile(metaFiles: seq<string>): (r: Option<string>)
    ensures r.None? <==> metaFiles == []
    ensures r.Some? ==> r.value in metaFiles && forall f :: f in metaFiles ==> VersionOr0(f) <= VersionOr0(r.value)
  {
    if metaFiles == [] then None
    else
      var sorted := Standings.SortDesc(metaFiles, VersionKey);
      Standings.SortDescSpec(metaFiles, VersionKey);
      assert sorted[0] in multiset(metaFiles);
      forall f | f in metaFiles ensures VersionOr0(f) <= VersionOr0(sorted[0]) {
        assert f in multiset(sorted);
        var j :| 0 <= j < |sorted| && sorted[j] == f;
        if j > 0 {
          assert VersionKey(sorted[0]) >= VersionKey(sorted[j]);
        }
      }
      Some(sorted[0])
  }

  /** Among files of the highest version, the one listed first is chosen. */
  lemma LatestIsFirstListed(metaFiles: seq<string>)
    requires metaFiles != []
    ensures exists i :: (0 <= i < |metaFiles| && metaFiles[i] == LatestMetaFile(metaFiles).value
                         && forall j :: 0 <= j < i ==> VersionOr0(metaFiles[j]) < VersionOr0(metaFiles[i]))
  {
    var ks := Standings.Keyed(metaFiles, VersionKey);
    var sorted := Sorting.SortBy(ks, true);
    Sorting.SortBySpec(ks, true);
    var top := sorted[0];
    assert Sorting.WithKey(sorted, top.0) == [top] + Sorting.WithKey(sorted[1..], top.0);
    WithKeyFirst(ks, top.0);
    var i :| 0 <= i < |ks| && ks[i] == top && forall j :: 0 <= j < i ==> ks[j].0 != top.0;
    assert LatestMetaFile(metaFiles).value == Sorting.Items(sorted)[0] == top.1;
    assert metaFiles[i] == top.1;
    var best := VersionOr0(top.1);
    assert top.0 == Fin(best as real);
    forall j | 0 <= j < i ensures VersionOr0(metaFiles[j]) < best {
      var v := VersionOr0(metaFiles[j]);
      assert metaFiles[j] in metaFiles;
      assert v <= best;
      assert ks[j].0 == Fin(v as real) != Fin(best as real);
    }
  }

  /** The metadata a caller passes: each entry may be missing. */
  datatype Metadata = Metadata(modelType: Option<string>, trainDataCount: Option<int>, winRate: Option<real>,
                               trainParams: Option<Json.Value>, boardSize: Option<int>, description: Option<string>)

  /** The metadata file's contents, with the defaults filled in. */
  datatype MetaRecord = MetaRecord(version: nat, timestamp: nat, modelFilename: string, modelType: string,
                                   trainDataCount: int, winRate: real, trainParams: Json.Value, boardSize: int,
                                   description: string)

  /** What a successful save returns (the two paths) and the metadata it writes. */
  datatype Saved = Saved(modelPath: string, metaPath: string, meta: MetaRecord)

  function Or<T>(o: Option<T>, default: T): T
  {
    if o.Some? then o.value else default
  }

  /**
   * save_model_with_version: an unsupported model type (the default
   * "unknown" included) raises; otherwise the next version is taken over
   * the metadata files whose name starts with the model name (so over
   * those of any model whose name extends it), both names are built from it and the
   * timestamp, and the metadata gets its defaults (0 games of data, a win
   * rate of 0, empty training parameters, a 15-line board, no description).
   */
  method SaveModelWithVersion(listed: seq<string>, name: string, metadata: Metadata, timestamp: nat)
    returns (r: Result<Saved>)
    ensures r.Err? <==> Or(metadata.modelType, UNKNOWN_TYPE) !in SUPPORTED_TYPES
    ensures r.Ok? ==>
      var m := r.value.meta;
      && metadata.modelType == Some(m.modelType) && m.timestamp == timestamp && m.version >= 1
      && (forall f :: f in MetaFilesAsWritten(listed, name) ==> VersionOr0(f) < m.version)
      && (m.version > 1 ==> exists f :: f in MetaFilesAsWritten(listed, name) && VersionOf(f) == Some(m.version - 1))
      && m.modelFilename == ModelFilename(name, m.version, timestamp)
      && r.value.modelPath == GetModelPath(m.modelFilename)
      && r.value.metaPath == FilePath(MetaFilename(name, m.version, timestamp))
      && m.trainDataCount == Or(metadata.trainDataCount, 0)
      && m.winRate == Or(metadata.winRate, 0.0)
      && m.trainParams == Or(metadata.trainParams, Json.Obj(map[]))
      && m.boardSize == Or(metadata.boardSize, 15)
      && m.description == Or(metadata.description, "")
  {
    var modelType := Or(metadata.modelType, UNKNOWN_TYPE);
    if modelType !in SUPPORTED_TYPES {
      return Err("unsupported model type");
    }
    var version := NextVersion(MetaFilesAsWritten(listed, name));
    var modelFilename := ModelFilename(name, version, timestamp);
    var metaFilename := MetaFilename(name, version, timestamp);
    var meta := MetaRecord(version, timestamp, modelFilename, modelType,
                           Or(metadata.trainDataCount, 0), Or(metadata.winRate, 0.0), Or(metadata.trainParams, Json.Obj(map[])),
                           Or(metadata.boardSize, 15), Or(metadata.description, ""));
    r := Ok(Saved(GetModelPath(modelFilename), FilePath(metaFilename), meta));
  }

  /** A saved metadata file carries its model's name and the metadata suffix. */
  lemma SavedIsOwn(name: string, version: nat, timestamp: nat)
    ensures var saved := MetaFilename(name, version, timestamp);
      EndsWith(saved, META_SUFFIX) && StartsWith(saved, name + "_v")
  {
    var saved := MetaFilename(name, version, timestamp);
    assert saved == name + "_v" + (NatToString(version) + "_" + NatToString(timestamp)) + META_SUFFIX;
  }

  /**
   * Once a version above every saved one is written, it is the one found
   * as the latest, whatever the order of the new listing: the prefix match
   * that picked the version also finds the latest file.
   */
  lemma SavedIsLatest(listed: seq<string>, after: seq<string>, name: string, version: nat, timestamp: nat)
    requires NoTag(name)
    requires forall f :: f in MetaFilesAsWritten(listed, name) ==> VersionOr0(f) < version
    requires MetaFilename(name, version, timestamp) in after
    requires forall f :: f in after ==> f in listed || f == MetaFilename(name, version, timestamp)
    ensures LatestMetaFile(MetaFilesAsWritten(after, name)) == Some(MetaFilename(name, version, timestamp))
  {
    var saved := MetaFilename(name, version, timestamp);
    StemVersion(name, version, timestamp, META_SUFFIX);
    SavedIsOwn(name, version, timestamp);
    OwnStartsWithName(saved, name);
    var found := MetaFilesAsWritten(after, name);
    forall f | f in found && f != saved ensures VersionOr0(f) < version {
      assert f in MetaFilesAsWritten(listed, name);
    }
    var r := LatestMetaFile(found).value;
    assert VersionOr0(saved) <= VersionOr0(r);
  }

  /** The same holds with the corrected match, for a version above the model's own. */
  lemma OwnSavedIsLatest(listed: seq<string>, after: seq<string>, name: string, version: nat, timestamp: nat)
    requires NoTag(name)
    requires forall f :: f in OwnMetaFiles(listed, name) ==> VersionOr0(f) < version
    requires MetaFilename(name, version, timestamp) in after
    requires forall f :: f in after ==> f in listed || f == MetaFilename(name, version, timestamp)
    ensures LatestMetaFile(OwnMetaFiles(after, name)) == Some(MetaFilename(name, version, timestamp))
  {
    var saved := MetaFilename(name, version, timestamp);
    StemVersion(name, version, timestamp, META_SUFFIX);
    SavedIsOwn(name, version, timestamp);
    var own := OwnMetaFiles(after, name);
    forall f | f in own && f != saved ensures VersionOr0(f) < version {
      assert f in OwnMetaFiles(listed, name);
    }
    var r := LatestMetaFile(own).value;
    assert VersionOr0(saved) <= VersionOr0(r);
  }

  /** A name that starts with the model name and '_v' starts with the model name. */
  lemma OwnStartsWithName(f: string, name: string)
    requires StartsWith(f, name + "_v")
    ensures StartsWith(f, name)
  {
    assert f[..|name|] == (name + "_v")[..|name|] == name;
  }
}
