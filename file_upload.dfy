/**
 * The test-asset discovery of the file upload tests: finding the project
 * directory by walking up from the test file, the table of asset paths, and
 * checking that the assets exist, failing on or dropping the missing ones.
 */
module FileUpload {
  import opened Wrappers
  import opened Paths

  /** The directory name that marks the project root. */
  const ProjectDirName := "Assessment"

  // ---------------------------------------------------------------------
  // Finding the project directory

  /** The nearest of `dir` and its ancestors whose basename is `name`, if any. */
  function NearestNamed(dir: Path, name: string): (r: Option<Path>)
    decreases |dir.parts|
  {
    if dir.parts == [] then None
    else if Basename(dir) == name then Some(dir)
    else NearestNamed(Dirname(dir), name)
  }

  /**
   * `NearestNamed` finds the longest prefix of `dir` ending in a component
   * `name`, and finds none exactly when no component of `dir` is `name`.
   */
  lemma {:induction false} NearestNamedCorrect(dir: Path, name: string)
    ensures var r := NearestNamed(dir, name);
            && (r.None? <==> forall k :: 0 <= k < |dir.parts| ==> dir.parts[k] != name)
            && (r.Some? ==>
                  && r.value.absolute == dir.absolute
                  && 0 < |r.value.parts| && r.value.parts <= dir.parts
                  && Basename(r.value) == name
                  && forall k :: |r.value.parts| <= k < |dir.parts| ==> dir.parts[k] != name)
    decreases |dir.parts|
  {
    if dir.parts != [] && Basename(dir) != name {
      var parent := Dirname(dir);
      NearestNamedCorrect(parent, name);
      assert forall k :: 0 <= k < |parent.parts| ==> parent.parts[k] == dir.parts[k];
    }
  }

  /**
   * The directory the `assets_paths` fixture settles on for the test file at
   * `testFile`: the nearest enclosing `Assessment` directory, or else the
   * directory two levels above the test file.
   */
  function ProjectDir(testFile: Path): (r: Path) {
    match NearestNamed(Dirname(testFile), ProjectDirName)
    case Some(d) => d
    case None => Dirname(Dirname(testFile))
  }

  /**
   * The walk-up of `assets_paths`: climb from the test file's directory until
   * the basename is `Assessment` or the root is reached, falling back to two
   * levels above the test file.
   */
  method FindProjectDir(testFile: Path) returns (baseDir: Path)
    ensures baseDir == ProjectDir(testFile)
    ensures Basename(baseDir) == ProjectDirName || baseDir == Dirname(Dirname(testFile))
  {
    var currentDir := Dirname(testFile);
    baseDir := currentDir;
    while Basename(baseDir) != ProjectDirName && Dirname(baseDir) != baseDir
      invariant NearestNamed(baseDir, ProjectDirName) == NearestNamed(currentDir, ProjectDirName)
      decreases |baseDir.parts|
    {
      baseDir := Dirname(baseDir);
    }
    DirnameFixedPoint(baseDir);
    if Basename(baseDir) != ProjectDirName {
      baseDir := Dirname(Dirname(testFile));
    }
  }

  /** Where the walk-up stops, before the fall-back: an `Assessment` directory or a root. */
  lemma WalkUpStops(dir: Path)
    ensures Basename(dir) == ProjectDirName || Dirname(dir) == dir
            ==> (NearestNamed(dir, ProjectDirName).Some? <==> Basename(dir) == ProjectDirName)
  {
  }

  // ---------------------------------------------------------------------
  // The asset table

  /** One entry of the `paths` dictionary. */
  datatype Entry = Entry(fileType: string, path: Path)

  /** The `paths` dictionary literal of `assets_paths`, in insertion order. */
  function AssetEntries(baseDir: Path): (r: seq<Entry>)
    ensures |r| == 3
    ensures r[0].fileType == "text_file" && r[1].fileType == "image_file" && r[2].fileType == "pdf_file"
    ensures Dirname(r[0].path) == Child(baseDir, "test_assets") && Basename(r[0].path) == "test_file.txt"
    ensures Dirname(r[1].path) == baseDir && Basename(r[1].path) == "report.png"
    ensures Dirname(r[2].path) == Child(baseDir, "test_assets") && Basename(r[2].path) == "document.pdf"
  {
    var testAssetsDir := Child(baseDir, "test_assets");
    ChildInverse(testAssetsDir, "test_file.txt");
    ChildInverse(baseDir, "report.png");
    ChildInverse(testAssetsDir, "document.pdf");
    [ Entry("text_file", Child(testAssetsDir, "test_file.txt")),
      Entry("image_file", Child(baseDir, "report.png")),
      Entry("pdf_file", Child(testAssetsDir, "document.pdf")) ]
  }

  /** No two entries share a key, as in a dictionary. */
  predicate DistinctKeys(entries: seq<Entry>) {
    forall i, j :: 0 <= i < j < |entries| ==> entries[i].fileType != entries[j].fileType
  }

  /** The keys of `entries`, in order. */
  function Keys(entries: seq<Entry>): (r: seq<string>)
    ensures |r| == |entries|
    ensures forall i :: 0 <= i < |r| ==> r[i] == entries[i].fileType
  {
    if entries == [] then [] else Keys(entries[..|entries| - 1]) + [entries[|entries| - 1].fileType]
  }

  /** The entries whose file exists, in order. */
  function KeepExisting(entries: seq<Entry>, existing: set<Path>): (r: seq<Entry>) {
    if entries == [] then []
    else
      var last := entries[|entries| - 1];
      KeepExisting(entries[..|entries| - 1], existing) + (if last.path in existing then [last] else [])
  }

  /** The keys of the entries whose file is missing, in order: `missing_files`. */
  function MissingKeys(entries: seq<Entry>, existing: set<Path>): (r: seq<string>) {
    if entries == [] then []
    else
      var last := entries[|entries| - 1];
      MissingKeys(entries[..|entries| - 1], existing) + (if last.path in existing then [] else [last.fileType])
  }

  /** The first entry whose file is missing, if any. */
  function FirstMissing(entries: seq<Entry>, existing: set<Path>): (r: Option<Entry>) {
    if entries == [] then None
    else
      var last := entries[|entries| - 1];
      match FirstMissing(entries[..|entries| - 1], existing)
      case Some(e) => Some(e)
      case None => if last.path in existing then None else Some(last)
  }

  /** `dict.pop(key, None)`: the entries without the one keyed `key`, if any. */
  function RemoveKey(entries: seq<Entry>, key: string): (r: seq<Entry>) {
    if entries == [] then []
    else
      var last := entries[|entries| - 1];
      RemoveKey(entries[..|entries| - 1], key) + (if last.fileType == key then [] else [last])
  }

  /** The entries without those keyed by any of `keys`. */
  function WithoutKeys(entries: seq<Entry>, keys: seq<string>): (r: seq<Entry>) {
    if entries == [] then []
    else
      var last := entries[|entries| - 1];
      WithoutKeys(entries[..|entries| - 1], keys) + (if last.fileType in keys then [] else [last])
  }

  /** Popping one more key removes the entries keyed by it as well. */
  lemma {:induction false} RemoveKeyWithoutKeys(entries: seq<Entry>, keys: seq<string>, key: string)
    ensures RemoveKey(WithoutKeys(entries, keys), key) == WithoutKeys(entries, keys + [key])
    decreases |entries|
  {
    if entries != [] {
      var init := entries[..|entries| - 1];
      RemoveKeyWithoutKeys(init, keys, key);
      var w := WithoutKeys(init, keys);
      var last := entries[|entries| - 1];
      if last.fileType !in keys {
        assert WithoutKeys(entries, keys) == w + [last];
        assert (w + [last])[..|w + [last]| - 1] == w;
      } else {
        assert WithoutKeys(entries, keys) == w;
      }
    }
  }

  /** Removing an empty list of keys removes nothing. */
  lemma {:induction false} WithoutNoKeys(entries: seq<Entry>)
    ensures WithoutKeys(entries, []) == entries
    decreases |entries|
  {
    if entries != [] {
      WithoutNoKeys(entries[..|entries| - 1]);
      assert entries[..|entries| - 1] + [entries[|entries| - 1]] == entries;
    }
  }

  /** Whether a key is missing, given that keys identify entries. */
  lemma {:induction false} MissingKeysMembers(entries: seq<Entry>, existing: set<Path>)
    requires DistinctKeys(entries)
    ensures forall i :: 0 <= i < |entries| ==>
              (entries[i].fileType in MissingKeys(entries, existing) <==> entries[i].path !in existing)
    decreases |entries|
  {
    if entries != [] {
      var init := entries[..|entries| - 1];
      var last := entries[|entries| - 1];
      MissingKeysMembers(init, existing);
      MissingKeysOfPrefix(init, existing, last.fileType);
      forall i | 0 <= i < |entries|
        ensures entries[i].fileType in MissingKeys(entries, existing) <==> entries[i].path !in existing
      {
        if i < |init| {
          assert entries[i] == init[i];
          assert entries[i].fileType != last.fileType;
        }
      }
    }
  }

  /** Only keys of the entries can be missing keys. */
  lemma {:induction false} MissingKeysOfPrefix(entries: seq<Entry>, existing: set<Path>, key: string)
    requires forall i :: 0 <= i < |entries| ==> entries[i].fileType != key
    ensures key !in MissingKeys(entries, existing)
    decreases |entries|
  {
    if entries != [] {
      MissingKeysOfPrefix(entries[..|entries| - 1], existing, key);
    }
  }

  /** Dropping the entries keyed as missing is keeping the entries that exist. */
  lemma {:induction false} WithoutKeysKeeps(entries: seq<Entry>, keys: seq<string>, existing: set<Path>)
    requires forall i :: 0 <= i < |entries| ==> (entries[i].fileType in keys <==> entries[i].path !in existing)
    ensures WithoutKeys(entries, keys) == KeepExisting(entries, existing)
    decreases |entries|
  {
    if entries != [] {
      WithoutKeysKeeps(entries[..|entries| - 1], keys, existing);
    }
  }

  /**
   * What survives the filter: exactly the entries whose file exists, each
   * unchanged, and no more entries than there were.
   */
  lemma {:induction false} KeepExistingMembers(entries: seq<Entry>, existing: set<Path>)
    ensures forall e :: e in KeepExisting(entries, existing) <==> e in entries && e.path in existing
    ensures |KeepExisting(entries, existing)| <= |entries|
    decreases |entries|
  {
    if entries != [] {
      var init := entries[..|entries| - 1];
      KeepExistingMembers(init, existing);
      assert entries == init + [entries[|entries| - 1]];
    }
  }

  /** The keys that disappear are exactly the keys of the missing files. */
  lemma RemovedKeysAreMissing(entries: seq<Entry>, existing: set<Path>, key: string)
    requires DistinctKeys(entries)
    ensures key in Keys(KeepExisting(entries, existing)) <==> key in Keys(entries) && key !in MissingKeys(entries, existing)
  {
    var kept := KeepExisting(entries, existing);
    if key in Keys(kept) {
      KeptKeyIsPresent(entries, existing, key);
    }
    if key in Keys(entries) && key !in MissingKeys(entries, existing) {
      PresentKeyIsKept(entries, existing, key);
    }
  }

  /** A key that is kept belongs to an entry whose file exists. */
  lemma KeptKeyIsPresent(entries: seq<Entry>, existing: set<Path>, key: string)
    requires DistinctKeys(entries) && key in Keys(KeepExisting(entries, existing))
    ensures key in Keys(entries) && key !in MissingKeys(entries, existing)
  {
    var kept := KeepExisting(entries, existing);
    KeepExistingMembers(entries, existing);
    MissingKeysMembers(entries, existing);
    var i :| 0 <= i < |kept| && Keys(kept)[i] == key;
    assert kept[i] in entries;
    var j :| 0 <= j < |entries| && entries[j] == kept[i];
    assert Keys(entries)[j] == key;
  }

  /** The key of an entry whose file exists is kept. */
  lemma PresentKeyIsKept(entries: seq<Entry>, existing: set<Path>, key: string)
    requires DistinctKeys(entries) && key in Keys(entries) && key !in MissingKeys(entries, existing)
    ensures key in Keys(KeepExisting(entries, existing))
  {
    var kept := KeepExisting(entries, existing);
    KeepExistingMembers(entries, existing);
    MissingKeysMembers(entries, existing);
    var j :| 0 <= j < |entries| && Keys(entries)[j] == key;
    assert entries[j] in kept;
    var i :| 0 <= i < |kept| && kept[i] == entries[j];
    assert Keys(kept)[i] == key;
  }

  /** Keys stay distinct when entries are dropped. */
  lemma {:induction false} KeepExistingDistinct(entries: seq<Entry>, existing: set<Path>)
    requires DistinctKeys(entries)
    ensures DistinctKeys(KeepExisting(entries, existing))
    decreases |entries|
  {
    if entries != [] {
      var init := entries[..|entries| - 1];
      var last := entries[|entries| - 1];
      KeepExistingDistinct(init, existing);
      KeepExistingMembers(init, existing);
      var k := KeepExisting(init, existing);
      if last.path in existing {
        forall i | 0 <= i < |k| ensures k[i].fileType != last.fileType {
          assert k[i] in init;
          var j :| 0 <= j < |init| && init[j] == k[i];
          assert entries[j] == init[j];
        }
      }
    }
  }

  /** A pop keeps exactly the entries with another key. */
  lemma {:induction false} RemoveKeyMembers(entries: seq<Entry>, key: string)
    ensures forall e :: e in RemoveKey(entries, key) <==> e in entries && e.fileType != key
    decreases |entries|
  {
    if entries != [] {
      var init := entries[..|entries| - 1];
      RemoveKeyMembers(init, key);
      assert entries == init + [entries[|entries| - 1]];
    }
  }

  /** A pop keeps the keys distinct. */
  lemma {:induction false} RemoveKeyDistinct(entries: seq<Entry>, key: string)
    requires DistinctKeys(entries)
    ensures DistinctKeys(RemoveKey(entries, key))
    decreases |entries|
  {
    if entries != [] {
      var init := entries[..|entries| - 1];
      var last := entries[|entries| - 1];
      RemoveKeyDistinct(init, key);
      RemoveKeyMembers(init, key);
      var k := RemoveKey(init, key);
      if last.fileType != key {
        forall i | 0 <= i < |k| ensures k[i].fileType != last.fileType {
          assert k[i] in init;
          var j :| 0 <= j < |init| && init[j] == k[i];
          assert entries[j] == init[j];
        }
      }
    }
  }

  /** The first missing entry is an entry of the table whose file is missing. */
  lemma {:induction false} FirstMissingIsMissing(entries: seq<Entry>, existing: set<Path>)
    ensures FirstMissing(entries, existing).None? <==> forall i :: 0 <= i < |entries| ==> entries[i].path in existing
    ensures FirstMissing(entries, existing).Some? ==>
              exists i :: 0 <= i < |entries| && entries[i] == FirstMissing(entries, existing).value
                          && entries[i].path !in existing
                          && forall j :: 0 <= j < i ==> entries[j].path in existing
    decreases |entries|
  {
    if entries != [] {
      var init := entries[..|entries| - 1];
      FirstMissingIsMissing(init, existing);
      assert forall i :: 0 <= i < |init| ==> init[i] == entries[i];
      if FirstMissing(init, existing).None? {
        var n := |entries| - 1;
        if entries[n].path !in existing {
          assert forall j :: 0 <= j < n ==> entries[j].path in existing;
        }
      }
    }
  }

  /** Once a prefix has a missing entry, the whole table's first missing entry is that one. */
  lemma {:induction false} FirstMissingOfPrefix(entries: seq<Entry>, k: nat, existing: set<Path>)
    requires k <= |entries| && FirstMissing(entries[..k], existing).Some?
    ensures FirstMissing(entries, existing) == FirstMissing(entries[..k], existing)
    decreases |entries| - k
  {
    if k < |entries| {
      var init := entries[..|entries| - 1];
      assert init[..k] == entries[..k];
      FirstMissingOfPrefix(init, k, existing);
    } else {
      assert entries[..k] == entries;
    }
  }

  /**
   * Popping every key of `missing_files` from a table with distinct keys
   * leaves the entries whose file exists, and the keys stay distinct.
   */
  lemma DroppingMissingKeepsExisting(entries: seq<Entry>, missingFiles: seq<string>, existing: set<Path>)
    requires DistinctKeys(entries) && missingFiles == MissingKeys(entries, existing)
    ensures missingFiles == [] ==> entries == KeepExisting(entries, existing)
    ensures WithoutKeys(entries, missingFiles) == KeepExisting(entries, existing)
    ensures DistinctKeys(KeepExisting(entries, existing))
  {
    MissingKeysMembers(entries, existing);
    WithoutKeysKeeps(entries, missingFiles, existing);
    WithoutNoKeys(entries);
    KeepExistingDistinct(entries, existing);
  }

  /** The `paths` dictionary, which `_verify_test_files_exist` updates in place. */
  class AssetPaths {
    /** The dictionary's entries in insertion order. */
    var entries: seq<Entry>

    ghost predicate Valid()
      reads this
    {
      DistinctKeys(entries)
    }

    constructor (entries: seq<Entry>)
      requires DistinctKeys(entries)
      ensures Valid() && this.entries == entries
    {
      this.entries := entries;
    }

    /** `pop(key, None)`. */
    method Pop(key: string)
      requires Valid()
      modifies this
      ensures Valid()
      ensures entries == RemoveKey(old(entries), key)
    {
      RemoveKeyDistinct(entries, key);
      entries := RemoveKey(entries, key);
    }
  }

  /**
   * How `_verify_test_files_exist` ends: it returns normally, or `pytest.fail`
   * reports a missing asset's key and path.
   */
  datatype Verification = Returned | Missing(fileType: string, path: Path)

  /**
   * The first loop of `_verify_test_files_exist`: lenient, collect the keys
   * of the missing files in order; strict, stop at the first missing file.
   */
  method ScanForMissing(entries: seq<Entry>, skipMissing: bool, existing: set<Path>)
    returns (missingFiles: seq<string>, failed: Option<Entry>)
    ensures skipMissing ==> failed.None? && missingFiles == MissingKeys(entries, existing)
    ensures !skipMissing ==> missingFiles == [] && failed == FirstMissing(entries, existing)
  {
    missingFiles := [];
    var i := 0;
    while i < |entries|
      invariant 0 <= i <= |entries|
      invariant skipMissing ==> missingFiles == MissingKeys(entries[..i], existing)
      invariant !skipMissing ==> missingFiles == [] && FirstMissing(entries[..i], existing).None?
    {
      var entry := entries[i];
      assert entries[..i + 1][..i] == entries[..i];
      if entry.path !in existing {
        if skipMissing {
          missingFiles := missingFiles + [entry.fileType];
        } else {
          FirstMissingOfPrefix(entries, i + 1, existing);
          return [], Some(entry);
        }
      }
      i := i + 1;
    }
    assert entries[..i] == entries;
    failed := None;
  }

  /** Popping the next listed key extends the keys removed so far by one. */
  lemma PopNextKey(entries: seq<Entry>, keys: seq<string>, j: nat)
    requires j < |keys|
    ensures RemoveKey(WithoutKeys(entries, keys[..j]), keys[j]) == WithoutKeys(entries, keys[..j + 1])
  {
    RemoveKeyWithoutKeys(entries, keys[..j], keys[j]);
    assert keys[..j + 1] == keys[..j] + [keys[j]];
  }

  /** The second loop of `_verify_test_files_exist`: pop each key in turn. */
  method PopAll(paths: AssetPaths, keys: seq<string>)
    requires paths.Valid()
    modifies paths
    ensures paths.Valid()
    ensures paths.entries == WithoutKeys(old(paths.entries), keys)
  {
    ghost var start := paths.entries;
    WithoutNoKeys(start);
    assert keys[..0] == [];
    var j := 0;
    while j < |keys|
      invariant 0 <= j <= |keys|
      invariant paths.Valid()
      invariant paths.entries == WithoutKeys(start, keys[..j])
    {
      PopNextKey(start, keys, j);
      paths.Pop(keys[j]);
      j := j + 1;
    }
    assert keys[..j] == keys;
  }

  /**
   * `_verify_test_files_exist(paths, skip_missing)`. Strict: fail on the
   * first missing file in dictionary order and change nothing. Lenient:
   * remove exactly the entries whose file is missing.
   */
  method VerifyTestFilesExist(paths: AssetPaths, skipMissing: bool, existing: set<Path>)
    returns (r: Verification)
    requires paths.Valid()
    modifies paths
    ensures paths.Valid()
    ensures !skipMissing ==> paths.entries == old(paths.entries)
    ensures !skipMissing ==> r == match FirstMissing(old(paths.entries), existing)
                                  case None => Returned
                                  case Some(e) => Missing(e.fileType, e.path)
    ensures skipMissing ==> r == Returned && paths.entries == KeepExisting(old(paths.entries), existing)
  {
    var entries := paths.entries;
    var missingFiles, failed := ScanForMissing(entries, skipMissing, existing);
    if failed.Some? {
      return Missing(failed.value.fileType, failed.value.path);
    }
    if skipMissing {
      DroppingMissingKeepsExisting(entries, missingFiles, existing);
      if missingFiles != [] {
        PopAll(paths, missingFiles);
      }
    }
    r := Returned;
  }

  /** The asset table always has distinct keys. */
  lemma AssetEntriesDistinct(baseDir: Path)
    ensures DistinctKeys(AssetEntries(baseDir))
  {
  }

  /**
   * The `assets_paths` fixture: find the project directory, build the asset
   * table and drop the assets whose file is missing.
   */
  method AssetsPathsFixture(testFile: Path, existing: set<Path>) returns (paths: AssetPaths)
    ensures fresh(paths) && paths.Valid()
    ensures paths.entries == KeepExisting(AssetEntries(ProjectDir(testFile)), existing)
  {
    var baseDir := FindProjectDir(testFile);
    AssetEntriesDistinct(baseDir);
    paths := new AssetPaths(AssetEntries(baseDir));
    var _ := VerifyTestFilesExist(paths, true, existing);
  }
}
