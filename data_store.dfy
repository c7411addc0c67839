/**
 * The snapshot store of the lineage pipeline (model-lineage/storage/data_store.py):
 * timestamped JSON snapshots under `raw/<subdirectory>/`, the relationship
 * filter applied before saving, the latest-snapshot lookup, the cleanup
 * that keeps the newest files, and the path mapping used before `dvc add`.
 * The file system is a map from subdirectory to files; the clock, the
 * directory enumeration order and deletions that fail are inputs.
 */
module DataStore {
  import opened Wrappers
  import opened Json
  import opened Strings
  import opened Collections

  // -------------------------------------------------------- timestamps

  /** A clock reading, as `datetime.now()` gives it. */
  datatype DateTime = DateTime(year: int, month: int, day: int, hour: int, minute: int, second: int)

  predicate ValidDateTime(t: DateTime)
  {
    1000 <= t.year <= 9999 && 1 <= t.month <= 12 && 1 <= t.day <= 31
    && 0 <= t.hour < 24 && 0 <= t.minute < 60 && 0 <= t.second < 60
  }

  /** Chronological order of clock readings. */
  predicate Before(a: DateTime, b: DateTime)
  {
    a.year < b.year || (a.year == b.year &&
    (a.month < b.month || (a.month == b.month &&
    (a.day < b.day || (a.day == b.day &&
    (a.hour < b.hour || (a.hour == b.hour &&
    (a.minute < b.minute || (a.minute == b.minute && a.second < b.second)))))))))
  }

  function Pad2(n: nat): (r: string)
    requires n < 100
    ensures |r| == 2
  {
    [DigitChar(n / 10), DigitChar(n % 10)]
  }

  function Pad4(n: nat): (r: string)
    requires n < 10000
    ensures |r| == 4
  {
    Pad2(n / 100) + Pad2(n % 100)
  }

  /** `strftime("%Y-%m-%d_%H-%M-%S")`. */
  function FormatTimestamp(t: DateTime): (r: string)
    requires ValidDateTime(t)
    ensures |r| == 19
  {
    Pad4(t.year) + ("-" + (Pad2(t.month) + ("-" + (Pad2(t.day) + ("_" + (Pad2(t.hour)
      + ("-" + (Pad2(t.minute) + ("-" + Pad2(t.second))))))))))
  }

  /** Comparing two strings that share the length of their first parts compares those parts first. */
  lemma {:induction false} LexLessConcat(a1: string, b1: string, a2: string, b2: string)
    requires |a1| == |a2|
    ensures LexLess(a1 + b1, a2 + b2) <==> LexLess(a1, a2) || (a1 == a2 && LexLess(b1, b2))
  {
    if a1 == [] {
      assert a1 + b1 == b1 && a2 + b2 == b2;
      assert !LexLess(a1, a2);
    } else {
      assert (a1 + b1)[0] == a1[0] && (a2 + b2)[0] == a2[0];
      assert (a1 + b1)[1..] == a1[1..] + b1 && (a2 + b2)[1..] == a2[1..] + b2;
      LexLessConcat(a1[1..], b1, a2[1..], b2);
      if a1[0] == a2[0] && a1[1..] == a2[1..] {
        assert a1 == [a1[0]] + a1[1..] && a2 == [a2[0]] + a2[1..];
      }
    }
  }

  lemma Pad2Order(x: nat, y: nat)
    requires x < 100 && y < 100
    ensures LexLess(Pad2(x), Pad2(y)) <==> x < y
    ensures Pad2(x) == Pad2(y) <==> x == y
  {
    var p, q := Pad2(x), Pad2(y);
    assert LexLess(p, q) <==> p[0] < q[0] || (p[0] == q[0] && p[1] < q[1]) by {
      assert p[1..][0] == p[1] && q[1..][0] == q[1];
      assert p[1..][1..] == [] && q[1..][1..] == [];
      assert !LexLess(p[1..][1..], q[1..][1..]);
    }
    assert x == 10 * (x / 10) + x % 10 && y == 10 * (y / 10) + y % 10;
    if Pad2(x) == Pad2(y) {
      assert p[0] == q[0] && p[1] == q[1];
    }
  }

  lemma Pad4Order(x: nat, y: nat)
    requires x < 10000 && y < 10000
    ensures LexLess(Pad4(x), Pad4(y)) <==> x < y
    ensures Pad4(x) == Pad4(y) <==> x == y
  {
    LexLessConcat(Pad2(x / 100), Pad2(x % 100), Pad2(y / 100), Pad2(y % 100));
    Pad2Order(x / 100, y / 100);
    Pad2Order(x % 100, y % 100);
    assert x == 100 * (x / 100) + x % 100 && y == 100 * (y / 100) + y % 100;
    if Pad4(x) == Pad4(y) {
      assert Pad4(x)[..2] == Pad2(x / 100) && Pad4(y)[..2] == Pad2(y / 100);
      assert Pad4(x)[2..] == Pad2(x % 100) && Pad4(y)[2..] == Pad2(y % 100);
    }
  }

  /** A shared separator does not affect the comparison. */
  lemma LexLessAfterSeparator(sep: string, x: string, y: string)
    ensures LexLess(sep + x, sep + y) <==> LexLess(x, y)
  {
    LexLessConcat(sep, x, sep, y);
    LexLessIrreflexive(sep);
  }

  /** Comparing `head + rest` strings whose heads are equal-length padded numbers. */
  lemma PaddedStep(px: string, py: string, x: int, y: int, rx: string, ry: string)
    requires |px| == |py|
    requires LexLess(px, py) <==> x < y
    requires px == py <==> x == y
    ensures LexLess(px + rx, py + ry) <==> x < y || (x == y && LexLess(rx, ry))
  {
    LexLessConcat(px, rx, py, ry);
  }

  /** The timestamp format sorts as time does: the greatest name is the newest snapshot. */
  lemma TimestampOrder(a: DateTime, b: DateTime)
    requires ValidDateTime(a) && ValidDateTime(b)
    ensures LexLess(FormatTimestamp(a), FormatTimestamp(b)) <==> Before(a, b)
  {
    Pad4Order(a.year, b.year);
    Pad2Order(a.month, b.month);
    Pad2Order(a.day, b.day);
    Pad2Order(a.hour, b.hour);
    Pad2Order(a.minute, b.minute);
    Pad2Order(a.second, b.second);
    var s5a, s5b := Pad2(a.minute) + ("-" + Pad2(a.second)), Pad2(b.minute) + ("-" + Pad2(b.second));
    LexLessAfterSeparator("-", Pad2(a.second), Pad2(b.second));
    PaddedStep(Pad2(a.minute), Pad2(b.minute), a.minute, b.minute, "-" + Pad2(a.second), "-" + Pad2(b.second));
    var s4a, s4b := Pad2(a.hour) + ("-" + s5a), Pad2(b.hour) + ("-" + s5b);
    LexLessAfterSeparator("-", s5a, s5b);
    PaddedStep(Pad2(a.hour), Pad2(b.hour), a.hour, b.hour, "-" + s5a, "-" + s5b);
    var s3a, s3b := Pad2(a.day) + ("_" + s4a), Pad2(b.day) + ("_" + s4b);
    LexLessAfterSeparator("_", s4a, s4b);
    PaddedStep(Pad2(a.day), Pad2(b.day), a.day, b.day, "_" + s4a, "_" + s4b);
    var s2a, s2b := Pad2(a.month) + ("-" + s3a), Pad2(b.month) + ("-" + s3b);
    LexLessAfterSeparator("-", s3a, s3b);
    PaddedStep(Pad2(a.month), Pad2(b.month), a.month, b.month, "-" + s3a, "-" + s3b);
    LexLessAfterSeparator("-", s2a, s2b);
    PaddedStep(Pad4(a.year), Pad4(b.year), a.year, b.year, "-" + s2a, "-" + s2b);
  }

  /** `f"{data_type}_{timestamp}.json"`. */
  function SnapshotName(dataType: string, timestamp: string): string
  {
    dataType + "_" + timestamp + ".json"
  }

  /** Snapshots of one kind named from clock readings sort as the readings do. */
  lemma SnapshotNameOrder(dataType: string, a: DateTime, b: DateTime)
    requires ValidDateTime(a) && ValidDateTime(b)
    ensures LexLess(SnapshotName(dataType, FormatTimestamp(a)), SnapshotName(dataType, FormatTimestamp(b)))
      <==> Before(a, b)
  {
    var p := dataType + "_";
    assert SnapshotName(dataType, FormatTimestamp(a)) == p + (FormatTimestamp(a) + ".json");
    assert SnapshotName(dataType, FormatTimestamp(b)) == p + (FormatTimestamp(b) + ".json");
    LexLessAfterSeparator(p, FormatTimestamp(a) + ".json", FormatTimestamp(b) + ".json");
    LexLessConcat(FormatTimestamp(a), ".json", FormatTimestamp(b), ".json");
    LexLessIrreflexive(".json");
    TimestampOrder(a, b);
  }

  // ------------------------------------------------ relationship filter

  const DefaultAllowedTypes: seq<string> := ["finetuned", "adapters", "merges", "quantizations", "trained_on"]

  /** `rel.get("relationship_type") in allowed_types`. */
  predicate TypeAllowed(rel: Record, allowed: seq<string>)
  {
    var t := Get(rel, "relationship_type", Null);
    t.Str? && t.s in allowed
  }

  function KeepAllowed(allowed: seq<string>): Record -> Option<Record>
  {
    rel => if TypeAllowed(rel, allowed) then Some(rel) else None
  }

  /** `filter_relationships`: the records of an allowed type, in their original order. */
  function FilterRelationships(rels: seq<Record>, allowedTypes: Option<seq<string>>): (r: seq<Record>)
    ensures forall x :: x in r <==> x in rels && TypeAllowed(x, allowedTypes.GetOr(DefaultAllowedTypes))
    ensures |r| <= |rels|
  {
    var allowed := allowedTypes.GetOr(DefaultAllowedTypes);
    var r := FilterMap(rels, KeepAllowed(allowed));
    FilterMapSound(rels, KeepAllowed(allowed));
    assert forall x :: x in rels && TypeAllowed(x, allowed) ==> KeepAllowed(allowed)(x) == Some(x);
    r
  }

  /** Filtering keeps the relative order: the kept records of `xs + ys` are those of `xs`, then those of `ys`. */
  lemma FilterRelationshipsAppend(xs: seq<Record>, ys: seq<Record>, allowedTypes: Option<seq<string>>)
    ensures FilterRelationships(xs + ys, allowedTypes)
      == FilterRelationships(xs, allowedTypes) + FilterRelationships(ys, allowedTypes)
  {
    FilterMapAppend(xs, ys, KeepAllowed(allowedTypes.GetOr(DefaultAllowedTypes)));
  }

  lemma FilterSingleton(rel: Record, allowedTypes: Option<seq<string>>)
    ensures FilterRelationships([rel], allowedTypes) ==
      if TypeAllowed(rel, allowedTypes.GetOr(DefaultAllowedTypes)) then [rel] else []
  {
    var f := KeepAllowed(allowedTypes.GetOr(DefaultAllowedTypes));
    assert [rel][1..] == [];
    assert FilterMap([rel], f) == (if f(rel).Some? then [f(rel).value] else []) + FilterMap([], f);
  }

  /** Filtering twice is filtering once. */
  lemma {:induction false} FilterRelationshipsIdempotent(rels: seq<Record>, allowedTypes: Option<seq<string>>)
    ensures FilterRelationships(FilterRelationships(rels, allowedTypes), allowedTypes)
      == FilterRelationships(rels, allowedTypes)
  {
    var allowed := allowedTypes.GetOr(DefaultAllowedTypes);
    if rels != [] {
      var init, last := rels[..|rels| - 1], rels[|rels| - 1];
      assert rels == init + [last];
      FilterRelationshipsIdempotent(init, allowedTypes);
      FilterRelationshipsAppend(init, [last], allowedTypes);
      FilterSingleton(last, allowedTypes);
      FilterRelationshipsAppend(FilterRelationships(init, allowedTypes), FilterRelationships([last], allowedTypes), allowedTypes);
      assert FilterRelationships(FilterRelationships([last], allowedTypes), allowedTypes) == FilterRelationships([last], allowedTypes);
    }
  }

  /** With the default list, "based_on" and records without a type are dropped. */
  lemma DefaultFilterDropsOthers(rel: Record)
    requires Get(rel, "relationship_type", Null) == Str("based_on") || "relationship_type" !in rel
    ensures FilterRelationships([rel], None) == []
  {
    assert "based_on" != DefaultAllowedTypes[0] && "based_on" != DefaultAllowedTypes[1]
      && "based_on" != DefaultAllowedTypes[2] && "based_on" != DefaultAllowedTypes[3]
      && "based_on" != DefaultAllowedTypes[4];
    assert !TypeAllowed(rel, DefaultAllowedTypes);
    FilterSingleton(rel, None);
  }

  // ------------------------------------------------------- DVC path mapping

  /**
   * The path handed to `dvc add`: relative to the project root when the file
   * lies under it, otherwise a Docker mount mapped onto the repository, or
   * `None` when no mapping applies and the add is skipped.
   */
  function DvcRelativePath(filepath: string, projectRoot: string): (r: Option<string>)
    ensures StartsWith(filepath, projectRoot + "/") ==> r.Some? && projectRoot + "/" + r.value == filepath
    ensures StartsWith(filepath, "/app/data/") && !StartsWith(filepath, projectRoot + "/") ==>
      r == Some(filepath[5..])
    ensures !StartsWith(filepath, projectRoot + "/") && StartsWith(filepath, "/app/") && !StartsWith(filepath, "/app/data/") ==>
      r == Some("model-lineage/" + filepath[5..])
    ensures r.None? <==>
      && !StartsWith(filepath, projectRoot + "/") && !StartsWith(filepath, "/app/")
      && !Contains(filepath, "data/model-lineage")
    ensures r.Some? && !StartsWith(filepath, projectRoot + "/") && !StartsWith(filepath, "/app/") ==>
      StartsWith(r.value, "data/model-lineage") && EndsWith(filepath, r.value)
  {
    var under := projectRoot + "/";
    if StartsWith(filepath, under) then Some(filepath[|under|..])
    else if StartsWith(filepath, "/app/data/") then Some(filepath[5..])
    else if StartsWith(filepath, "/app/") then Some("model-lineage/" + filepath[5..])
    else
      var idx := Find(filepath, "data/model-lineage");
      if idx >= 0 then Some(filepath[idx..]) else None
  }

  /** Examples of the mapping from the container's mounts. */
  lemma DvcRelativePathDocker(rest: string)
    ensures DvcRelativePath("/app/data/" + rest, "/workspace") == Some("data/" + rest)
    ensures DvcRelativePath("/app/x/" + rest, "/workspace") == Some("model-lineage/x/" + rest)
  {
    var p := "/app/data/" + rest;
    assert p[..10] == "/app/data/";
    assert p[1] == 'a';
    assert !StartsWith(p, "/workspace/") by {
      if |p| >= 11 { assert p[..11][1] == p[1]; }
    }
    assert p[5..] == "data/" + rest;
    var q := "/app/x/" + rest;
    assert q[..5] == "/app/";
    assert q[1] == 'a' && q[5] == 'x';
    assert !StartsWith(q, "/workspace/") by {
      if |q| >= 11 { assert q[..11][1] == q[1]; }
    }
    assert !StartsWith(q, "/app/data/") by {
      if |q| >= 10 { assert q[..10][5] == q[5]; }
    }
    assert q[5..] == "x/" + rest;
    assert "model-lineage/" + q[5..] == "model-lineage/x/" + rest;
  }

  // ------------------------------------------------------- the file system

  /** A file's modification time and its JSON contents. */
  datatype FileEntry = FileEntry(mtime: int, content: Value)

  /** The files of one directory, by name. */
  type Dir = map<string, FileEntry>

  /** The glob `<prefix>*.json`. */
  predicate MatchesGlob(name: string, prefix: string)
  {
    |prefix| + 5 <= |name| && StartsWith(name, prefix) && EndsWith(name, ".json")
  }

  function Matching(dir: Dir, prefix: string): set<string>
  {
    set n | n in dir && MatchesGlob(n, prefix)
  }

  /** The directory and glob prefix `cleanup_old_files` uses for a file type; `None` for an unknown type. */
  function CleanupTarget(fileType: string): Option<(string, string)>
  {
    if fileType == "models" then Some(("models", "models_"))
    else if fileType == "datasets" then Some(("datasets", "datasets_"))
    else if fileType == "relationships" then Some(("relationships", "relationships_"))
    else if fileType == "metadata" then Some(("metadata", "scrape_metadata_"))
    else None
  }

  /** The greatest matching name in code-point order, as `sorted(glob, reverse=True)[0]` picks it. */
  method LatestName(dir: Dir, prefix: string) returns (name: Option<string>)
    ensures name.None? <==> Matching(dir, prefix) == {}
    ensures name.Some? ==> (name.value in Matching(dir, prefix)
      && forall n :: n in Matching(dir, prefix) ==> n == name.value || LexLess(n, name.value))
  {
    var all := Matching(dir, prefix);
    var remaining := all;
    name := None;
    while remaining != {}
      invariant remaining <= all
      invariant name.None? ==> remaining == all
      invariant name.Some? ==> (name.value in all
        && forall n :: n in all - remaining ==> n == name.value || LexLess(n, name.value))
      decreases |remaining|
    {
      var n :| n in remaining;
      if name.None? {
        name := Some(n);
      } else if LexLess(name.value, n) {
        forall m | m in all - remaining && m != name.value
          ensures LexLess(m, n)
        {
          LexLessTransitive(m, name.value, n);
        }
        name := Some(n);
      } else {
        LexLessTotal(n, name.value);
      }
      remaining := remaining - {n};
    }
  }

  // --------------------------------------------------------- ranking

  ghost predicate Distinct(xs: seq<string>)
  {
    forall x :: multiset(xs)[x] <= 1
  }

  predicate AllIn(xs: seq<string>, dir: Dir)
  {
    forall i :: 0 <= i < |xs| ==> xs[i] in dir
  }

  /** Most recently modified first. */
  predicate NewestFirst(xs: seq<string>, dir: Dir)
    requires AllIn(xs, dir)
  {
    forall i, j :: 0 <= i < j < |xs| ==> dir[xs[i]].mtime >= dir[xs[j]].mtime
  }

  /** Inserts `x` after every name at least as recent, so equal times keep their order. */
  function InsertByMtime(sorted: seq<string>, x: string, dir: Dir): (r: seq<string>)
    requires x in dir && AllIn(sorted, dir) && NewestFirst(sorted, dir)
    ensures multiset(r) == multiset(sorted) + multiset{x}
    ensures AllIn(r, dir) && NewestFirst(r, dir)
  {
    if sorted == [] then [x]
    else if dir[sorted[0]].mtime < dir[x].mtime then [x] + sorted
    else
      var rest := InsertByMtime(sorted[1..], x, dir);
      InsertBelowHead(sorted, x, dir, rest);
      [sorted[0]] + rest
  }

  /** Keeping the head in front of the insertion into the tail keeps the list newest first. */
  lemma InsertBelowHead(sorted: seq<string>, x: string, dir: Dir, rest: seq<string>)
    requires sorted != [] && x in dir && AllIn(sorted, dir) && NewestFirst(sorted, dir)
    requires dir[x].mtime <= dir[sorted[0]].mtime
    requires multiset(rest) == multiset(sorted[1..]) + multiset{x}
    requires AllIn(rest, dir) && NewestFirst(rest, dir)
    ensures multiset([sorted[0]] + rest) == multiset(sorted) + multiset{x}
    ensures AllIn([sorted[0]] + rest, dir) && NewestFirst([sorted[0]] + rest, dir)
  {
    assert sorted == [sorted[0]] + sorted[1..];
    forall j | 0 <= j < |rest| ensures dir[rest[j]].mtime <= dir[sorted[0]].mtime {
      assert rest[j] in multiset(rest);
      if rest[j] != x {
        assert rest[j] in sorted[1..];
        var k :| 0 <= k < |sorted[1..]| && sorted[1..][k] == rest[j];
        assert sorted[k + 1] == rest[j];
      }
    }
    var r := [sorted[0]] + rest;
    forall i, j | 0 <= i < j < |r| ensures dir[r[i]].mtime >= dir[r[j]].mtime {
      assert r[j] == rest[j - 1];
      if i > 0 {
        assert r[i] == rest[i - 1];
      }
    }
  }

  /** `files.sort(key=mtime, reverse=True)`: a stable sort, newest first. */
  function SortByMtime(xs: seq<string>, dir: Dir): (r: seq<string>)
    requires AllIn(xs, dir)
    ensures multiset(r) == multiset(xs)
    ensures AllIn(r, dir) && NewestFirst(r, dir)
  {
    if xs == [] then []
    else
      assert xs == xs[..|xs| - 1] + [xs[|xs| - 1]];
      InsertByMtime(SortByMtime(xs[..|xs| - 1], dir), xs[|xs| - 1], dir)
  }

  /** The matching files listed once each, newest first. */
  ghost predicate RankedByMtime(ranked: seq<string>, dir: Dir, names: set<string>)
  {
    AllIn(ranked, dir) && NewestFirst(ranked, dir) && Distinct(ranked)
    && forall n :: n in ranked <==> n in names
  }

  // -------------------------------------------------------- deletion

  /** Deleting one data file and then its ".dvc" sibling; a failed unlink leaves what is left. */
  function DeleteOne(dir: Dir, name: string, undeletable: set<string>): Dir
  {
    if name in undeletable then dir
    else
      var d := dir - {name};
      var dvc := name + ".dvc";
      if dvc in d && dvc !in undeletable then d - {dvc} else d
  }

  function DeleteFiles(dir: Dir, victims: seq<string>, undeletable: set<string>): Dir
  {
    if victims == [] then dir else DeleteFiles(DeleteOne(dir, victims[0], undeletable), victims[1..], undeletable)
  }

  lemma DvcSiblingIsNotJson(name: string)
    ensures !EndsWith(name + ".dvc", ".json")
  {
    var d := name + ".dvc";
    if |d| >= 5 {
      assert d[|d| - 1] == 'c';
      assert d[|d| - 5..][4] == d[|d| - 1];
    }
  }

  lemma JsonIsNotDvc(name: string)
    requires EndsWith(name, ".json")
    ensures !EndsWith(name, ".dvc")
  {
    assert name[|name| - 5..][4] == name[|name| - 1];
    assert name[|name| - 4..][3] == name[|name| - 1];
  }

  /** Deleting never adds or alters a file. */
  lemma {:induction false} DeleteFilesShrinks(dir: Dir, victims: seq<string>, undeletable: set<string>)
    ensures var r := DeleteFiles(dir, victims, undeletable);
      forall n :: n in r ==> n in dir && r[n] == dir[n]
  {
    if victims != [] {
      DeleteFilesShrinks(DeleteOne(dir, victims[0], undeletable), victims[1..], undeletable);
    }
  }

  /** A file that is neither a victim nor a ".dvc" file survives. */
  lemma {:induction false} DeleteFilesKeeps(dir: Dir, victims: seq<string>, undeletable: set<string>, n: string)
    requires n in dir && n !in victims && !EndsWith(n, ".dvc")
    ensures n in DeleteFiles(dir, victims, undeletable)
  {
    if victims != [] {
      var v := victims[0];
      assert (v + ".dvc")[|v + ".dvc"| - 4..] == ".dvc";
      DeleteFilesKeeps(DeleteOne(dir, v, undeletable), victims[1..], undeletable, n);
    }
  }

  /** A victim survives exactly when its unlink fails. */
  lemma {:induction false} DeleteFilesVictim(dir: Dir, victims: seq<string>, undeletable: set<string>, v: string)
    requires forall i :: 0 <= i < |victims| ==> EndsWith(victims[i], ".json")
    requires v in victims
    ensures v in DeleteFiles(dir, victims, undeletable) <==> v in dir && v in undeletable
  {
    var d := DeleteOne(dir, victims[0], undeletable);
    var rest := victims[1..];
    assert victims == [victims[0]] + rest;
    assert EndsWith(v, ".json") by {
      var k :| 0 <= k < |victims| && victims[k] == v;
    }
    DvcSiblingIsNotJson(victims[0]);
    assert v in d <==> (v in dir && (v == victims[0] ==> v in undeletable));
    if v in rest {
      forall i | 0 <= i < |rest| ensures EndsWith(rest[i], ".json") {
        assert rest[i] == victims[i + 1];
      }
      DeleteFilesVictim(d, rest, undeletable, v);
    } else {
      assert v == victims[0];
      DeleteFilesShrinks(d, rest, undeletable);
      if v in d {
        JsonIsNotDvc(v);
        DeleteFilesKeeps(d, rest, undeletable, v);
      }
    }
  }

  /** A deleted victim's ".dvc" sibling goes too, unless that unlink fails. */
  lemma {:induction false} DeleteFilesSibling(dir: Dir, victims: seq<string>, undeletable: set<string>, v: string)
    requires v in victims && v !in undeletable && v + ".dvc" !in undeletable
    ensures v + ".dvc" !in DeleteFiles(dir, victims, undeletable)
  {
    var d := DeleteOne(dir, victims[0], undeletable);
    if v == victims[0] {
      DeleteFilesShrinks(d, victims[1..], undeletable);
    } else {
      assert v in victims[1..];
      DeleteFilesSibling(d, victims[1..], undeletable, v);
    }
  }

  /**
   * The outcome of a cleanup: the newest `keep` files stay untouched, every
   * older one is gone unless its deletion failed (and so is its ".dvc" file),
   * none of the older ones is newer than a kept one, and no other data file
   * is touched.
   */
  lemma CleanupOutcome(dir: Dir, names: set<string>, ranked: seq<string>, keep: nat, undeletable: set<string>)
    requires RankedByMtime(ranked, dir, names) && keep <= |ranked|
    requires forall n :: n in names ==> EndsWith(n, ".json")
    ensures var r := DeleteFiles(dir, ranked[keep..], undeletable);
      && (forall i :: 0 <= i < keep ==> ranked[i] in r && r[ranked[i]] == dir[ranked[i]])
      && (forall j :: keep <= j < |ranked| ==> (ranked[j] in r <==> ranked[j] in undeletable))
      && (forall j :: keep <= j < |ranked| && ranked[j] !in undeletable && ranked[j] + ".dvc" !in undeletable
            ==> ranked[j] + ".dvc" !in r)
      && (forall i, j :: 0 <= i < keep <= j < |ranked| ==> dir[ranked[i]].mtime >= dir[ranked[j]].mtime)
      && (forall n :: n in dir && n !in names && !EndsWith(n, ".dvc") ==> n in r && r[n] == dir[n])
  {
    var victims := ranked[keep..];
    var r := DeleteFiles(dir, victims, undeletable);
    forall i | 0 <= i < |victims| ensures EndsWith(victims[i], ".json") {
      assert victims[i] == ranked[keep + i];
      assert ranked[keep + i] in ranked;
    }
    DeleteFilesShrinks(dir, victims, undeletable);
    assert ranked == ranked[..keep] + victims;
    forall i | 0 <= i < keep ensures ranked[i] in r {
      assert ranked[..keep][i] == ranked[i];
      assert multiset(ranked) == multiset(ranked[..keep]) + multiset(victims);
      assert ranked[i] in multiset(ranked[..keep]);
      assert multiset(ranked)[ranked[i]] <= 1;
      assert multiset(victims)[ranked[i]] == 0;
      assert ranked[i] in ranked;
      assert EndsWith(ranked[i], ".json");
      JsonIsNotDvc(ranked[i]);
      DeleteFilesKeeps(dir, victims, undeletable, ranked[i]);
    }
    forall j | keep <= j < |ranked| ensures ranked[j] in r <==> ranked[j] in undeletable {
      assert victims[j - keep] == ranked[j];
      DeleteFilesVictim(dir, victims, undeletable, ranked[j]);
    }
    forall j | keep <= j < |ranked| && ranked[j] !in undeletable && ranked[j] + ".dvc" !in undeletable
      ensures ranked[j] + ".dvc" !in r
    {
      assert victims[j - keep] == ranked[j];
      DeleteFilesSibling(dir, victims, undeletable, ranked[j]);
    }
    forall n | n in dir && n !in names && !EndsWith(n, ".dvc") ensures n in r {
      assert n !in ranked;
      DeleteFilesKeeps(dir, victims, undeletable, n);
    }
  }

  // ------------------------------------------------------------ the store

  lemma RankedBySort(files: seq<string>, dir: Dir, names: set<string>)
    requires names <= dir.Keys && Distinct(files)
    requires forall n :: n in files <==> n in names
    ensures AllIn(files, dir)
    ensures RankedByMtime(SortByMtime(files, dir), dir, names) && |SortByMtime(files, dir)| == |files|
  {
    var ranked := SortByMtime(files, dir);
    assert |multiset(ranked)| == |multiset(files)|;
    assert forall n :: n in ranked <==> n in multiset(ranked);
    assert forall n :: n in files <==> n in multiset(files);
  }

  /**
   * What `cleanup_old_files` leaves: nothing changes when `keep` is not
   * positive, the type is unknown, its directory is missing or holds at most
   * `keep` matching files; otherwise the matching files are ranked newest
   * first and all after the first `keep` are deleted.
   */
  ghost predicate CleanedUp(before: map<string, Dir>, after: map<string, Dir>, keep: int, fileType: string,
                            undeletable: set<string>)
  {
    if keep <= 0 || CleanupTarget(fileType).None? then after == before
    else
      var sub := CleanupTarget(fileType).value.0;
      var prefix := CleanupTarget(fileType).value.1;
      if sub !in before || |Matching(before[sub], prefix)| <= keep then after == before
      else exists ranked ::
        && RankedByMtime(ranked, before[sub], Matching(before[sub], prefix))
        && keep < |ranked|
        && after == before[sub := DeleteFiles(before[sub], ranked[keep..], undeletable)]
  }

  /**
   * `c` is what `load_latest_file` reads from `raw[sub]`: nothing when no
   * file of the prefix is there, otherwise the content of the file whose
   * name sorts last.
   */
  ghost predicate IsLatest(raw: map<string, Dir>, sub: string, prefix: string, c: Option<Value>)
  {
    if sub !in raw || Matching(raw[sub], prefix) == {} then c.None?
    else exists n ::
      && n in Matching(raw[sub], prefix)
      && c == Some(raw[sub][n].content)
      && forall m :: m in Matching(raw[sub], prefix) ==> m == n || LexLess(m, n)
  }

  /** Names sort totally, so the latest snapshot of a prefix is one file. */
  lemma IsLatestUnique(raw: map<string, Dir>, sub: string, prefix: string, c1: Option<Value>, c2: Option<Value>)
    requires IsLatest(raw, sub, prefix, c1) && IsLatest(raw, sub, prefix, c2)
    ensures c1 == c2
  {
    if sub in raw && Matching(raw[sub], prefix) != {} {
      var n1 :| n1 in Matching(raw[sub], prefix) && c1 == Some(raw[sub][n1].content)
        && forall m :: m in Matching(raw[sub], prefix) ==> m == n1 || LexLess(m, n1);
      var n2 :| n2 in Matching(raw[sub], prefix) && c2 == Some(raw[sub][n2].content)
        && forall m :: m in Matching(raw[sub], prefix) ==> m == n2 || LexLess(m, n2);
      if n1 != n2 {
        LexLessTransitive(n1, n2, n1);
        LexLessIrreflexive(n1);
      }
    }
  }

  /** Lists a set of names in some order, as a directory listing does. */
  method Enumerate(names: set<string>) returns (order: seq<string>)
    ensures Distinct(order) && |order| == |names|
    ensures forall n :: n in order <==> n in names
  {
    order := [];
    var remaining := names;
    while remaining != {}
      invariant remaining <= names
      invariant Distinct(order) && |order| + |remaining| == |names|
      invariant forall n :: n in order <==> n in names - remaining
      decreases |remaining|
    {
      var n :| n in remaining;
      assert n !in order;
      assert multiset(order)[n] == 0;
      order := order + [n];
      remaining := remaining - {n};
    }
  }

  /** Records as the JSON objects of the array a file holds. */
  function RecordValues(recs: seq<Record>): seq<Value>
  {
    seq(|recs|, i requires 0 <= i < |recs| => Dict(recs[i]))
  }

  /** `DVCDataStore`: the raw snapshot directories under `<base>/raw`. */
  class DVCDataStore {
    const rawPath: string
    var raw: map<string, Dir>

    /** Opens the store at `basePath` over the directories already on disk. */
    constructor(basePath: string, existing: map<string, Dir>)
      ensures rawPath == basePath + "/raw" && raw == existing
    {
      rawPath := basePath + "/raw";
      raw := existing;
    }

    function DirOf(subdirectory: string): Dir
      reads this
    {
      if subdirectory in raw then raw[subdirectory] else map[]
    }

    /**
     * `_save_data`: writes `data` to `raw/<subdirectory>/<data_type>_<timestamp>.json`,
     * the timestamp defaulting to the clock reading `now`.
     */
    method SaveData(data: seq<Value>, dataType: string, subdirectory: string, timestamp: Option<string>,
                    now: DateTime, mtime: int) returns (path: string)
      requires ValidDateTime(now)
      modifies this
      ensures var name := SnapshotName(dataType, timestamp.GetOr(FormatTimestamp(now)));
        && path == rawPath + "/" + subdirectory + "/" + name
        && raw == old(raw)[subdirectory := old(DirOf(subdirectory))[name := FileEntry(mtime, List(data))]]
    {
      var ts := if timestamp.Some? then timestamp.value else FormatTimestamp(now);
      var name := SnapshotName(dataType, ts);
      raw := raw[subdirectory := DirOf(subdirectory)[name := FileEntry(mtime, List(data))]];
      path := rawPath + "/" + subdirectory + "/" + name;
    }

    method SaveScrapedModels(models: seq<Value>, timestamp: Option<string>, now: DateTime, mtime: int) returns (path: string)
      requires ValidDateTime(now)
      modifies this
      ensures var name := SnapshotName("models", timestamp.GetOr(FormatTimestamp(now)));
        && path == rawPath + "/models/" + name
        && raw == old(raw)["models" := old(DirOf("models"))[name := FileEntry(mtime, List(models))]]
    {
      path := SaveData(models, "models", "models", timestamp, now, mtime);
    }

    method SaveScrapedDatasets(datasets: seq<Value>, timestamp: Option<string>, now: DateTime, mtime: int) returns (path: string)
      requires ValidDateTime(now)
      modifies this
      ensures var name := SnapshotName("datasets", timestamp.GetOr(FormatTimestamp(now)));
        && path == rawPath + "/datasets/" + name
        && raw == old(raw)["datasets" := old(DirOf("datasets"))[name := FileEntry(mtime, List(datasets))]]
    {
      path := SaveData(datasets, "datasets", "datasets", timestamp, now, mtime);
    }

    /** `save_relationships`: only the records of an allowed type are written. */
    method SaveRelationships(rels: seq<Record>, timestamp: Option<string>, now: DateTime, mtime: int) returns (path: string)
      requires ValidDateTime(now)
      modifies this
      ensures var name := SnapshotName("relationships", timestamp.GetOr(FormatTimestamp(now)));
        var kept := FilterRelationships(rels, None);
        && path == rawPath + "/relationships/" + name
        && raw == old(raw)["relationships" := old(DirOf("relationships"))[name :=
             FileEntry(mtime, List(RecordValues(kept)))]]
    {
      var kept := FilterRelationships(rels, None);
      path := SaveData(RecordValues(kept), "relationships", "relationships", timestamp, now, mtime);
    }

    /**
     * `save_metadata`: stamps the caller's record with the timestamp (returned
     * as `stamped`) and writes it to `raw/metadata/scrape_metadata_<timestamp>.json`.
     */
    method SaveMetadata(metadata: Record, timestamp: Option<string>, now: DateTime, mtime: int)
      returns (path: string, stamped: Record)
      requires ValidDateTime(now)
      modifies this
      ensures var ts := timestamp.GetOr(FormatTimestamp(now));
        var name := SnapshotName("scrape_metadata", ts);
        && stamped == metadata["timestamp" := Str(ts)]
        && path == rawPath + "/metadata/" + name
        && raw == old(raw)["metadata" := old(DirOf("metadata"))[name := FileEntry(mtime, Dict(stamped))]]
    {
      var ts := if timestamp.Some? then timestamp.value else FormatTimestamp(now);
      stamped := metadata["timestamp" := Str(ts)];
      var name := SnapshotName("scrape_metadata", ts);
      raw := raw["metadata" := DirOf("metadata")[name := FileEntry(mtime, Dict(stamped))]];
      path := rawPath + "/metadata/" + name;
    }

    /** `_load_latest_file`: the contents of the greatest matching name, or `None`. */
    method LoadLatestFile(subdirectory: string, prefix: string) returns (r: Option<Value>)
      ensures r.None? <==> subdirectory !in raw || Matching(raw[subdirectory], prefix) == {}
      ensures r.Some? ==> exists n ::
        && n in Matching(raw[subdirectory], prefix)
        && r.value == raw[subdirectory][n].content
        && forall m :: m in Matching(raw[subdirectory], prefix) ==> m == n || LexLess(m, n)
      ensures IsLatest(raw, subdirectory, prefix, r)
    {
      if subdirectory !in raw {
        return None;
      }
      var name := LatestName(raw[subdirectory], prefix);
      if name.None? {
        return None;
      }
      r := Some(raw[subdirectory][name.value].content);
    }

    method LoadLatestModels() returns (r: Option<Value>)
      ensures r.None? <==> "models" !in raw || Matching(raw["models"], "models_") == {}
      ensures r.Some? ==> exists n ::
        && n in Matching(raw["models"], "models_")
        && r.value == raw["models"][n].content
        && forall m :: m in Matching(raw["models"], "models_") ==> m == n || LexLess(m, n)
      ensures IsLatest(raw, "models", "models_", r)
    {
      r := LoadLatestFile("models", "models_");
    }

    method LoadLatestRelationships() returns (r: Option<Value>)
      ensures r.None? <==> "relationships" !in raw || Matching(raw["relationships"], "relationships_") == {}
      ensures r.Some? ==> exists n ::
        && n in Matching(raw["relationships"], "relationships_")
        && r.value == raw["relationships"][n].content
        && forall m :: m in Matching(raw["relationships"], "relationships_") ==> m == n || LexLess(m, n)
      ensures IsLatest(raw, "relationships", "relationships_", r)
    {
      r := LoadLatestFile("relationships", "relationships_");
    }

    /**
     * `cleanup_old_files`: keeps the `keepLatest` most recently modified
     * snapshots of a type and deletes the rest with their ".dvc" files; an
     * unlink that fails (a name in `undeletable`) is logged and skipped.
     */
    method CleanupOldFiles(keepLatest: int, fileType: string, undeletable: set<string>)
      modifies this
      ensures CleanedUp(old(raw), raw, keepLatest, fileType, undeletable)
    {
      if keepLatest <= 0 {
        return;
      }
      var target := CleanupTarget(fileType);
      if target.None? {
        return;
      }
      var sub := target.value.0;
      var prefix := target.value.1;
      if sub !in raw {
        return;
      }
      var dir := raw[sub];
      var files := Enumerate(Matching(dir, prefix));
      if |files| <= keepLatest {
        return;
      }
      RankedBySort(files, dir, Matching(dir, prefix));
      var ranked := SortByMtime(files, dir);
      DeleteLoop(sub, ranked[keepLatest..], undeletable);
    }

    /** The deletion loop over the files ranked after the kept ones. */
    method DeleteLoop(sub: string, victims: seq<string>, undeletable: set<string>)
      requires sub in raw
      modifies this
      ensures raw == old(raw)[sub := DeleteFiles(old(raw)[sub], victims, undeletable)]
    {
      var i := 0;
      while i < |victims|
        invariant 0 <= i <= |victims| && sub in raw
        invariant DeleteFiles(old(raw)[sub], victims, undeletable) == DeleteFiles(raw[sub], victims[i..], undeletable)
        invariant raw == old(raw)[sub := raw[sub]]
      {
        var name := victims[i];
        assert victims[i..] == [name] + victims[i + 1..];
        var dir := raw[sub];
        if name !in undeletable {
          dir := dir - {name};
          var dvc := name + ".dvc";
          if dvc in dir && dvc !in undeletable {
            dir := dir - {dvc};
          }
        }
        raw := raw[sub := dir];
        i := i + 1;
      }
    }
  }
}
