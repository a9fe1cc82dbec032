/**
 * The parts of the two sync commands (syncfiles and syncstatic) that are
 * the same text in both files: `match_cloud`, `match_local`, the relpath
 * computation in `handle_noargs`, `delete_extra_files`, and the counters.
 */
module SyncCommon {
  import opened Common
  import opened Globs
  import opened Backend
  import Settings
  import Storage

  /**
   * Neither sync command imports as written. `from cumulus.storage import`
   * asks for `get_headers` first in syncfiles and for `sync_headers` first
   * in syncstatic, and the module defines neither (nor `get_content_type` or
   * `get_gzipped_contents`): it defines only its four classes.
   */
  lemma SyncImportsFail()
    ensures ImportName(Storage.STORAGE_CLASSES, "get_headers") == Err(ImportError("get_headers"))
    ensures ImportName(Storage.STORAGE_CLASSES, "sync_headers") == Err(ImportError("sync_headers"))
    ensures ImportName(Storage.STORAGE_CLASSES, "get_content_type").Err?
    ensures ImportName(Storage.STORAGE_CLASSES, "get_gzipped_contents").Err?
  {
  }

  /** A value of the loaded `CUMULUS` dictionary, as INCLUDE_LIST and EXCLUDE_LIST hold it. */
  type SettingValue = Settings.Value

  // ---------------------------------------------------------------------------
  // match_cloud
  // ---------------------------------------------------------------------------

  /** `[o for o in names if re.match(r, o)]`. */
  function Matching(glob: GlobMatcher, r: Regex, names: seq<string>): (m: seq<string>)
    ensures forall o :: o in m <==> o in names && ReMatch(glob, r, o)
    decreases |names|
  {
    if names == [] then []
    else
      var init := Matching(glob, r, names[..|names| - 1]);
      assert names == names[..|names| - 1] + [Last(names)];
      if ReMatch(glob, r, Last(names)) then init + [Last(names)] else init
  }

  /** `[o for o in names if o not in excluded]`. */
  function NotIn(names: seq<string>, excluded: seq<string>): (m: seq<string>)
    ensures forall o :: o in m <==> o in names && o !in excluded
    ensures |m| <= |names|
    decreases |names|
  {
    if names == [] then []
    else
      var init := NotIn(names[..|names| - 1], excluded);
      assert names == names[..|names| - 1] + [Last(names)];
      if Last(names) !in excluded then init + [Last(names)] else init
  }

  /** `match_cloud` as written: two passes over the listing, then a membership filter. */
  function MatchCloud(glob: GlobMatcher, includes: set<string>, excludes: set<string>, names: seq<string>): seq<string>
  {
    var excluded := Matching(glob, ExcludesRegex(excludes), names);
    var included := Matching(glob, IncludesRegex(includes), names);
    NotIn(included, excluded)
  }

  /** A name survives the filters: it is included and not excluded (exclude wins). */
  predicate Selected(glob: GlobMatcher, includes: set<string>, excludes: set<string>, name: string)
  {
    Included(glob, includes, name) && !Excluded(glob, excludes, name)
  }

  /** The selected names, by one order-preserving pass over the listing. */
  function SelectedNames(glob: GlobMatcher, includes: set<string>, excludes: set<string>, names: seq<string>): (m: seq<string>)
    decreases |names|
  {
    if names == [] then []
    else
      var init := SelectedNames(glob, includes, excludes, names[..|names| - 1]);
      if Selected(glob, includes, excludes, Last(names)) then init + [Last(names)] else init
  }

  lemma {:induction false} SelectedNamesMembers(glob: GlobMatcher, includes: set<string>, excludes: set<string>, names: seq<string>)
    ensures forall o :: o in SelectedNames(glob, includes, excludes, names) <==> o in names && Selected(glob, includes, excludes, o)
    decreases |names|
  {
    if names != [] {
      SelectedNamesMembers(glob, includes, excludes, names[..|names| - 1]);
      assert names == names[..|names| - 1] + [Last(names)];
    }
  }

  lemma {:induction false} NotInMatchingIsSelected(glob: GlobMatcher, includes: set<string>, excludes: set<string>,
                                                  s: seq<string>, excluded: seq<string>)
    requires forall o :: o in s ==> (o in excluded <==> Excluded(glob, excludes, o))
    ensures NotIn(Matching(glob, IncludesRegex(includes), s), excluded) == SelectedNames(glob, includes, excludes, s)
    decreases |s|
  {
    if s != [] {
      var init := s[..|s| - 1];
      var x := Last(s);
      assert s == init + [x];
      NotInMatchingIsSelected(glob, includes, excludes, init, excluded);
      var m := Matching(glob, IncludesRegex(includes), init);
      if Included(glob, includes, x) {
        assert Matching(glob, IncludesRegex(includes), s) == m + [x];
        assert (m + [x])[..|m + [x]| - 1] == m;
      }
    }
  }

  lemma {:induction false} SelectedNamesDistinct(glob: GlobMatcher, includes: set<string>, excludes: set<string>, names: seq<string>)
    requires Distinct(names)
    ensures Distinct(SelectedNames(glob, includes, excludes, names))
    decreases |names|
  {
    if names != [] {
      var init := names[..|names| - 1];
      assert Distinct(init);
      SelectedNamesDistinct(glob, includes, excludes, init);
      SelectedNamesMembers(glob, includes, excludes, init);
      assert Last(names) !in init;
    }
  }

  /**
   * `match_cloud` keeps exactly the listed names that match an include
   * pattern and no exclude pattern, in listing order.
   */
  lemma MatchCloudSelects(glob: GlobMatcher, includes: set<string>, excludes: set<string>, names: seq<string>)
    ensures MatchCloud(glob, includes, excludes, names) == SelectedNames(glob, includes, excludes, names)
    ensures forall o :: o in MatchCloud(glob, includes, excludes, names) <==> o in names && Selected(glob, includes, excludes, o)
    ensures Distinct(names) ==> Distinct(MatchCloud(glob, includes, excludes, names))
  {
    NotInMatchingIsSelected(glob, includes, excludes, names, Matching(glob, ExcludesRegex(excludes), names));
    SelectedNamesMembers(glob, includes, excludes, names);
    if Distinct(names) {
      SelectedNamesDistinct(glob, includes, excludes, names);
    }
  }

  lemma {:induction false} SelectAllIsIdentity(glob: GlobMatcher, names: seq<string>)
    ensures SelectedNames(glob, {}, {}, names) == names
    decreases |names|
  {
    if names != [] {
      SelectAllIsIdentity(glob, names[..|names| - 1]);
      assert names == names[..|names| - 1] + [Last(names)];
    }
  }

  /** With no patterns at all, `match_cloud` returns the whole listing unchanged. */
  lemma MatchCloudNoPatterns(glob: GlobMatcher, names: seq<string>)
    ensures MatchCloud(glob, {}, {}, names) == names
  {
    MatchCloudSelects(glob, {}, {}, names);
    SelectAllIsIdentity(glob, names);
  }

  // ---------------------------------------------------------------------------
  // match_local: os.walk with pruning of excluded directories
  // ---------------------------------------------------------------------------

  /** A directory entry as `os.walk` sees it: a sub-directory or a non-directory. */
  datatype Entry = Dir(name: string, entries: seq<Entry>) | File(name: string)

  /** Directory entry names are non-empty and contain no "/". */
  predicate NameOk(name: string)
  {
    name != [] && '/' !in name
  }

  /** `os.path.join(root, name)` for a relative name. */
  function PathJoin(root: string, name: string): string
  {
    if EndsWith(root, "/") then root + name else root + "/" + name
  }

  /** The directory path with exactly one trailing "/" added when missing. */
  function DirPrefix(root: string): (r: string)
    ensures StartsWith(r, root)
  {
    if EndsWith(root, "/") then root else root + "/"
  }

  lemma PathJoinIsDirPrefixPlusName(root: string, name: string)
    ensures PathJoin(root, name) == DirPrefix(root) + name
  {
  }

  lemma StartsWithTrans(s: string, mid: string, prefix: string)
    requires StartsWith(s, mid) && StartsWith(mid, prefix)
    ensures StartsWith(s, prefix)
  {
    assert s[..|prefix|] == s[..|mid|][..|prefix|];
  }

  lemma StartsWithConcat(s: string, t: string, prefix: string)
    requires StartsWith(s, prefix)
    ensures StartsWith(s + t, prefix)
  {
    assert (s + t)[..|prefix|] == s[..|prefix|];
  }

  lemma PathJoinUnder(prefix: string, root: string, name: string)
    requires StartsWith(root, prefix)
    ensures StartsWith(PathJoin(root, name), root) && StartsWith(PathJoin(root, name), prefix)
  {
    PathJoinIsDirPrefixPlusName(root, name);
    StartsWithConcat(DirPrefix(root), name, root);
    StartsWithTrans(PathJoin(root, name), root, prefix);
  }

  /** A sub-directory is walked unless `d.split(root)[1]` matches the exclude expression. */
  predicate KeepDir(glob: GlobMatcher, excludes: set<string>, root: string, name: string)
    requires root != []
  {
    PathJoinUnder(root, root, name);
    !Excluded(glob, excludes, SplitSecond(PathJoin(root, name), root))
  }

  /** A file is matched when its full path is not excluded and `f.split(prefix)[1]` is included. */
  predicate KeepFile(glob: GlobMatcher, prefix: string, includes: set<string>, excludes: set<string>, path: string)
    requires prefix != [] && StartsWith(path, prefix)
  {
    !Excluded(glob, excludes, path) && Included(glob, includes, SplitSecond(path, prefix))
  }

  /** The matched files directly inside `root`, in directory order. */
  function MatchedFiles(glob: GlobMatcher, prefix: string, includes: set<string>, excludes: set<string>,
                        root: string, entries: seq<Entry>): (m: seq<string>)
    requires prefix != [] && StartsWith(root, prefix)
    ensures forall p :: p in m ==> StartsWith(p, DirPrefix(root)) && StartsWith(p, prefix)
    ensures forall p :: p in m ==> KeepFile(glob, prefix, includes, excludes, p)
    ensures forall i :: 0 <= i < |entries| && entries[i].File? ==>
              var p := PathJoin(root, entries[i].name);
              StartsWith(p, prefix) && (p in m <==> KeepFile(glob, prefix, includes, excludes, p))
    decreases |entries|
  {
    if entries == [] then []
    else
      var init := MatchedFiles(glob, prefix, includes, excludes, root, entries[..|entries| - 1]);
      var e := Last(entries);
      var p := PathJoin(root, e.name);
      PathJoinUnder(prefix, root, e.name);
      PathJoinIsDirPrefixPlusName(root, e.name);
      StartsWithConcat(DirPrefix(root), e.name, DirPrefix(root));
      var m := if e.File? && KeepFile(glob, prefix, includes, excludes, p) then init + [p] else init;
      assert forall q :: q in m <==> q in init || (q == p && e.File? && KeepFile(glob, prefix, includes, excludes, p));
      assert forall i :: 0 <= i < |entries| && entries[i].File? ==>
               var q := PathJoin(root, entries[i].name);
               StartsWith(q, prefix) && (q in m <==> KeepFile(glob, prefix, includes, excludes, q)) by {
        forall i | 0 <= i < |entries| && entries[i].File?
          ensures var q := PathJoin(root, entries[i].name);
                  StartsWith(q, prefix) && (q in m <==> KeepFile(glob, prefix, includes, excludes, q))
        {
          if i < |entries| - 1 {
            assert entries[i] == entries[..|entries| - 1][i];
          }
        }
      }
      m
  }

  /** The walk of the kept sub-directories among `entries`, one after the other. */
  function WalkDirs(glob: GlobMatcher, prefix: string, includes: set<string>, excludes: set<string>,
                    root: string, entries: seq<Entry>): seq<string>
    requires prefix != [] && StartsWith(root, prefix)
    decreases entries, 0
  {
    if entries == [] then []
    else
      var e := entries[0];
      PathJoinUnder(prefix, root, e.name);
      (if e.Dir? && KeepDir(glob, excludes, root, e.name)
       then Walk(glob, prefix, includes, excludes, PathJoin(root, e.name), e.entries)
       else [])
      + WalkDirs(glob, prefix, includes, excludes, root, entries[1..])
  }

  /** One `os.walk` step at `root` and, top-down, the walks of its kept sub-directories. */
  function Walk(glob: GlobMatcher, prefix: string, includes: set<string>, excludes: set<string>,
                root: string, entries: seq<Entry>): seq<string>
    requires prefix != [] && StartsWith(root, prefix)
    decreases entries, 1
  {
    MatchedFiles(glob, prefix, includes, excludes, root, entries)
    + WalkDirs(glob, prefix, includes, excludes, root, entries)
  }

  /** `match_local(prefix, includes, excludes)` over the tree below `prefix`. */
  function MatchLocal(glob: GlobMatcher, prefix: string, includes: set<string>, excludes: set<string>,
                      tree: seq<Entry>): seq<string>
    requires prefix != []
  {
    Walk(glob, prefix, includes, excludes, prefix, tree)
  }

  lemma {:induction false} WalkDirsMember(glob: GlobMatcher, prefix: string, includes: set<string>, excludes: set<string>,
                                          root: string, entries: seq<Entry>, p: string)
    requires prefix != [] && StartsWith(root, prefix)
    requires p in WalkDirs(glob, prefix, includes, excludes, root, entries)
    ensures exists i :: 0 <= i < |entries| && entries[i].Dir? && KeepDir(glob, excludes, root, entries[i].name) &&
              StartsWith(PathJoin(root, entries[i].name), prefix) &&
              p in Walk(glob, prefix, includes, excludes, PathJoin(root, entries[i].name), entries[i].entries)
    decreases |entries|
  {
    var e := entries[0];
    PathJoinUnder(prefix, root, e.name);
    if !(e.Dir? && KeepDir(glob, excludes, root, e.name) &&
         p in Walk(glob, prefix, includes, excludes, PathJoin(root, e.name), e.entries)) {
      WalkDirsMember(glob, prefix, includes, excludes, root, entries[1..], p);
      var i :| 0 <= i < |entries[1..]| && entries[1..][i].Dir? && KeepDir(glob, excludes, root, entries[1..][i].name) &&
               StartsWith(PathJoin(root, entries[1..][i].name), prefix) &&
               p in Walk(glob, prefix, includes, excludes, PathJoin(root, entries[1..][i].name), entries[1..][i].entries);
      assert entries[i + 1] == entries[1..][i];
    }
  }

  /**
   * Every path `match_local` returns lies below the directory being walked,
   * and passed the file filter: not excluded, and included relative to the prefix.
   */
  lemma WalkResultsFiltered(glob: GlobMatcher, prefix: string, includes: set<string>, excludes: set<string>,
                            root: string, entries: seq<Entry>)
    requires prefix != [] && StartsWith(root, prefix)
    ensures forall p :: p in Walk(glob, prefix, includes, excludes, root, entries) ==>
              StartsWith(p, DirPrefix(root)) && StartsWith(p, prefix) && KeepFile(glob, prefix, includes, excludes, p)
  {
    forall p | p in Walk(glob, prefix, includes, excludes, root, entries)
      ensures StartsWith(p, DirPrefix(root)) && StartsWith(p, prefix) && KeepFile(glob, prefix, includes, excludes, p)
    {
      WalkResultFiltered(glob, prefix, includes, excludes, root, entries, p);
    }
  }

  /** One path `match_local` returns: below the walked directory, and passed the file filter. */
  lemma {:induction false} WalkResultFiltered(glob: GlobMatcher, prefix: string, includes: set<string>,
                                              excludes: set<string>, root: string, entries: seq<Entry>, p: string)
    requires prefix != [] && StartsWith(root, prefix)
    requires p in Walk(glob, prefix, includes, excludes, root, entries)
    ensures StartsWith(p, DirPrefix(root)) && StartsWith(p, prefix) && KeepFile(glob, prefix, includes, excludes, p)
    decreases entries
  {
    if p !in MatchedFiles(glob, prefix, includes, excludes, root, entries) {
      WalkDirsMember(glob, prefix, includes, excludes, root, entries, p);
      var i :| 0 <= i < |entries| && entries[i].Dir? && KeepDir(glob, excludes, root, entries[i].name) &&
               StartsWith(PathJoin(root, entries[i].name), prefix) &&
               p in Walk(glob, prefix, includes, excludes, PathJoin(root, entries[i].name), entries[i].entries);
      var sub := PathJoin(root, entries[i].name);
      WalkResultFiltered(glob, prefix, includes, excludes, sub, entries[i].entries, p);
      UnderSubdir(root, entries[i].name, p);
    }
  }

  /** A path below a subdirectory of `root` is below `root`. */
  lemma UnderSubdir(root: string, name: string, p: string)
    requires StartsWith(p, DirPrefix(PathJoin(root, name)))
    ensures StartsWith(p, DirPrefix(root))
  {
    var dir := DirPrefix(root);
    var sub := PathJoin(root, name);
    PathJoinIsDirPrefixPlusName(root, name);
    assert dir[..|dir|] == dir;
    StartsWithConcat(dir, name, dir);
    StartsWithTrans(DirPrefix(sub), sub, dir);
    StartsWithTrans(p, DirPrefix(sub), dir);
  }

  /** Two names without "/" that both start, followed by "/", the same string are equal. */
  lemma SameFirstComponent(a: string, b: string, s: string)
    requires '/' !in a && '/' !in b
    requires StartsWith(s, a + "/") && StartsWith(s, b + "/")
    ensures a == b
  {
    if |a| < |b| {
      SlashAfterShorter(s, a, b);
      assert false;
    } else if |b| < |a| {
      SlashAfterShorter(s, b, a);
      assert false;
    }
    assert a == s[..|a|] == b;
  }

  /** When `a + "/"` and `b` both start `s` and `a` is shorter, `b` has a "/" right after `a`. */
  lemma SlashAfterShorter(s: string, a: string, b: string)
    requires StartsWith(s, a + "/") && StartsWith(s, b) && |a| < |b|
    ensures b[|a|] == '/'
  {
    assert s[|a|] == (a + "/")[|a|];
    assert s[|a|] == s[..|b|][|a|];
  }

  lemma StartsWithShift(p: string, d: string, t: string)
    requires StartsWith(p, d + t)
    ensures |d| <= |p| && StartsWith(p[|d|..], t)
  {
    assert p[|d|..][..|t|] == (d + t)[|d|..];
  }

  lemma PathJoinSlash(root: string, name: string)
    ensures PathJoin(root, name) + "/" == DirPrefix(root) + (name + "/")
  {
    PathJoinIsDirPrefixPlusName(root, name);
  }

  /** A file directly inside `root` does not lie inside a sibling directory. */
  lemma FileNotInsideSibling(root: string, file: string, dir: string)
    requires NameOk(file)
    ensures !StartsWith(PathJoin(root, file), PathJoin(root, dir) + "/")
  {
    if StartsWith(PathJoin(root, file), PathJoin(root, dir) + "/") {
      PathJoinSlash(root, dir);
      PathJoinIsDirPrefixPlusName(root, file);
      StartsWithShift(PathJoin(root, file), DirPrefix(root), dir + "/");
      SlashAfterShorter(PathJoin(root, file)[|DirPrefix(root)|..], dir, file);
      assert false;
    }
  }

  /** Whatever lies inside one sub-directory of `root` does not lie inside a sibling with another name. */
  lemma InsideOneNotInsideSibling(root: string, sub: string, dir: string, p: string)
    requires NameOk(sub) && NameOk(dir) && sub != dir
    requires StartsWith(p, DirPrefix(PathJoin(root, sub)))
    ensures !StartsWith(p, PathJoin(root, dir) + "/")
  {
    var joined := PathJoin(root, sub);
    PathJoinIsDirPrefixPlusName(root, sub);
    assert !EndsWith(joined, "/") by {
      assert joined[|joined| - 1] == sub[|sub| - 1];
    }
    PathJoinSlash(root, sub);
    StartsWithShift(p, DirPrefix(root), sub + "/");
    if StartsWith(p, PathJoin(root, dir) + "/") {
      PathJoinSlash(root, dir);
      StartsWithShift(p, DirPrefix(root), dir + "/");
      SameFirstComponent(sub, dir, p[|DirPrefix(root)|..]);
      assert false;
    }
  }

  /**
   * A sub-directory whose name is excluded is never entered: no path that
   * `match_local` returns lies inside it.
   */
  lemma PrunedDirNeverVisited(glob: GlobMatcher, prefix: string, includes: set<string>, excludes: set<string>,
                              root: string, entries: seq<Entry>, k: int)
    requires prefix != [] && StartsWith(root, prefix)
    requires forall i :: 0 <= i < |entries| ==> NameOk(entries[i].name)
    requires 0 <= k < |entries| && entries[k].Dir? && !KeepDir(glob, excludes, root, entries[k].name)
    ensures forall p :: p in Walk(glob, prefix, includes, excludes, root, entries) ==>
              !StartsWith(p, PathJoin(root, entries[k].name) + "/")
  {
    var d := entries[k].name;
    forall p | p in Walk(glob, prefix, includes, excludes, root, entries)
      ensures !StartsWith(p, PathJoin(root, d) + "/")
    {
      if p in MatchedFiles(glob, prefix, includes, excludes, root, entries) {
        MatchedFilesSource(glob, prefix, includes, excludes, root, entries, p);
        var i :| 0 <= i < |entries| && entries[i].File? && p == PathJoin(root, entries[i].name);
        FileNotInsideSibling(root, entries[i].name, d);
      } else {
        WalkDirsMember(glob, prefix, includes, excludes, root, entries, p);
        var i :| 0 <= i < |entries| && entries[i].Dir? && KeepDir(glob, excludes, root, entries[i].name) &&
                 StartsWith(PathJoin(root, entries[i].name), prefix) &&
                 p in Walk(glob, prefix, includes, excludes, PathJoin(root, entries[i].name), entries[i].entries);
        WalkResultsFiltered(glob, prefix, includes, excludes, PathJoin(root, entries[i].name), entries[i].entries);
        InsideOneNotInsideSibling(root, entries[i].name, d, p);
      }
    }
  }

  lemma {:induction false} MatchedFilesSource(glob: GlobMatcher, prefix: string, includes: set<string>, excludes: set<string>,
                                              root: string, entries: seq<Entry>, p: string)
    requires prefix != [] && StartsWith(root, prefix)
    requires p in MatchedFiles(glob, prefix, includes, excludes, root, entries)
    ensures exists i :: 0 <= i < |entries| && entries[i].File? && p == PathJoin(root, entries[i].name)
    decreases |entries|
  {
    var init := entries[..|entries| - 1];
    if p in MatchedFiles(glob, prefix, includes, excludes, root, init) {
      MatchedFilesSource(glob, prefix, includes, excludes, root, init, p);
      var i :| 0 <= i < |init| && init[i].File? && p == PathJoin(root, init[i].name);
      assert entries[i] == init[i];
    } else {
      assert p == PathJoin(root, Last(entries).name) by {
        var e := Last(entries);
        PathJoinUnder(prefix, root, e.name);
      }
    }
  }

  // ---------------------------------------------------------------------------
  // Options shared by both commands
  // ---------------------------------------------------------------------------

  /** `file_root` / `static_root` after `set_options`: `/` appended when missing. */
  function WithTrailingSlash(root: string): string
  {
    if EndsWith(root, "/") then root else root + "/"
  }

  /** The root ends with one "/", and only one is added, after the unchanged original. */
  lemma TrailingSlashAdded(root: string)
    ensures var r := WithTrailingSlash(root);
      && EndsWith(r, "/") && StartsWith(r, root) && |r| <= |root| + 1
      && (EndsWith(root, "/") ==> r == root)
  {
    var r := WithTrailingSlash(root);
    assert r[..|root|] == root;
  }

  /** `file_url` / `static_url` after `set_options`: one leading `/` removed. */
  function WithoutLeadingSlash(url: string): string
  {
    if StartsWith(url, "/") then url[1..] else url
  }

  /** Exactly one leading "/" is removed, and only when there is one. */
  lemma LeadingSlashRemoved(url: string)
    ensures var r := WithoutLeadingSlash(url);
      && (StartsWith(url, "/") ==> url == "/" + r)
      && (!StartsWith(url, "/") ==> r == url)
  {
    if StartsWith(url, "/") {
      assert url == url[..1] + url[1..];
    }
  }

  /** `list(set(cli + settings))`: order and duplicates do not matter to the matcher. */
  function MergePatterns(cli: seq<string>, fromSettings: seq<string>): set<string>
  {
    set g | g in cli + fromSettings
  }

  lemma MergePatternsMembers(cli: seq<string>, fromSettings: seq<string>)
    ensures forall g :: g in MergePatterns(cli, fromSettings) <==> g in cli || g in fromSettings
  {
  }

  /**
   * `list(set(cli + setting))` with the setting as the settings module
   * leaves it: a list merges into the command-line patterns, and anything
   * else (the `CUMULUS` dictionary that FILTER_LIST stores, None, a string)
   * cannot be added to a list and raises TypeError.
   */
  function MergeSetting(cli: seq<string>, setting: SettingValue): (r: Result<set<string>>)
    ensures r.Ok? <==> setting.VList?
    ensures r.Err? ==> r.error == TypeError
    ensures r.Ok? ==> forall g :: g in r.value <==> g in cli || g in setting.items
  {
    if setting.VList? then
      MergePatternsMembers(cli, setting.items);
      Ok(MergePatterns(cli, setting.items))
    else Err(TypeError)
  }

  /**
   * Both sync commands merge EXCLUDE_LIST into the command-line excludes.
   * When the project's `CUMULUS` names FILTER_LIST, the loaded EXCLUDE_LIST
   * is the dictionary itself and that merge raises TypeError whatever the
   * command line; without FILTER_LIST or EXCLUDE_LIST it merges the empty
   * default list.
   */
  lemma FilterListBreaksMerge(u: map<string, SettingValue>, cli: seq<string>)
    ensures var excludeList := Settings.Loaded(Settings.DEFAULTS, Some(u)).value["EXCLUDE_LIST"];
      && ("FILTER_LIST" in u ==> MergeSetting(cli, excludeList) == Err(TypeError))
      && ("FILTER_LIST" !in u && "EXCLUDE_LIST" !in u ==> MergeSetting(cli, excludeList) == Ok(MergePatterns(cli, [])))
  {
    Settings.LoadedMerges(u);
    Settings.LoadedExcludeList(u);
  }

  // ---------------------------------------------------------------------------
  // The local file system
  // ---------------------------------------------------------------------------

  /** What `os.path.isfile`, `os.stat` and `open(path).read()` give for a local path. */
  datatype FileStat = FileStat(isRegular: bool, mtime: int, data: seq<bv8>)

  type FileSystem = string -> FileStat

  /** `{name: last_modified}` for every object in the container. */
  function LastModified(objects: map<string, StoredObject>): (r: map<string, int>)
    ensures r.Keys == objects.Keys
    ensures forall n :: n in r ==> r[n] == objects[n].lastModified
  {
    map n | n in objects :: objects[n].lastModified
  }

  // ---------------------------------------------------------------------------
  // relpaths (handle_noargs)
  // ---------------------------------------------------------------------------

  function StripLeadingSlash(s: string): string
  {
    if StartsWith(s, "/") then s[1..] else s
  }

  /** `filename = path.split(root)[1]`, without one leading "/". */
  function Relpath(path: string, root: string): string
    requires root != [] && StartsWith(path, root)
  {
    StripLeadingSlash(SplitSecond(path, root))
  }

  function Relpaths(paths: seq<string>, root: string): (r: seq<string>)
    requires root != [] && forall p :: p in paths ==> StartsWith(p, root)
    ensures |r| == |paths|
    ensures forall i :: 0 <= i < |paths| ==> r[i] == Relpath(paths[i], root)
    decreases |paths|
  {
    if paths == [] then []
    else
      InitLast(paths);
      Relpaths(paths[..|paths| - 1], root) + [Relpath(Last(paths), root)]
  }

  /** The first path that `os.path.isfile` rejects, if any. */
  function FirstIrregular(paths: seq<string>, fs: FileSystem): (r: Option<string>)
    ensures r.None? <==> forall p :: p in paths ==> fs(p).isRegular
    ensures r.Some? ==> r.value in paths && !fs(r.value).isRegular
    decreases |paths|
  {
    if paths == [] then None
    else if !fs(paths[0]).isRegular then Some(paths[0])
    else FirstIrregular(paths[1..], fs)
  }

  /** The matched local paths, all of them below the root. */
  function LocalPaths(glob: GlobMatcher, root: string, includes: set<string>, excludes: set<string>,
                      tree: seq<Entry>): (r: seq<string>)
    requires root != []
    ensures forall p :: p in r ==> StartsWith(p, root)
  {
    WalkResultsFiltered(glob, root, includes, excludes, root, tree);
    MatchLocal(glob, root, includes, excludes, tree)
  }

  // ---------------------------------------------------------------------------
  // Counters and delete_extra_files
  // ---------------------------------------------------------------------------

  /** The command's counter fields. */
  datatype Tally = Tally(create: int, upload: int, update: int, skip: int, delete: int)

  const ZERO_TALLY := Tally(0, 0, 0, 0, 0)

  /** Counters plus the container's objects: what a sync pass changes. */
  datatype SyncState = SyncState(tally: Tally, objects: map<string, StoredObject>)

  /** The state reached and, when the pass stopped early, the exception that stopped it. */
  datatype Progress = Progress(state: SyncState, error: Option<Error>)

  /** One iteration of `delete_extra_files`. */
  function DeleteStep(testRun: bool, failing: set<string>, st: SyncState, relpaths: seq<string>, name: string): Progress
  {
    if name in relpaths then Progress(st, None)
    else if testRun then Progress(st.(tally := st.tally.(delete := st.tally.delete + 1)), None)
    else
      var effect := Delete(st.objects, failing, name);
      if effect.error.Some? then Progress(st.(objects := effect.objects), effect.error)
      else Progress(SyncState(st.tally.(delete := st.tally.delete + 1), effect.objects), None)
  }

  /** `delete_extra_files(relpaths, cloud_objs)`, stopping at the first exception. */
  function DeletePass(testRun: bool, failing: set<string>, st: SyncState, relpaths: seq<string>,
                            cloudObjs: seq<string>): Progress
    decreases |cloudObjs|
  {
    if cloudObjs == [] then Progress(st, None)
    else
      var pr := DeletePass(testRun, failing, st, relpaths, cloudObjs[..|cloudObjs| - 1]);
      if pr.error.Some? then pr else DeleteStep(testRun, failing, pr.state, relpaths, Last(cloudObjs))
  }

  /**
   * `delete_extra_files` deletes each listed name that is not a local relpath
   * and counts it once. A test run always succeeds, counts the same names and
   * deletes nothing. Over a listing without duplicates, a real run succeeds
   * exactly when every such name is present and deletable, and then removes
   * exactly those names.
   */
  lemma DeletePassEffect(testRun: bool, failing: set<string>, st: SyncState,
                         relpaths: seq<string>, cloudObjs: seq<string>)
    requires Distinct(cloudObjs)
    ensures var pr := DeletePass(testRun, failing, st, relpaths, cloudObjs);
            var extras := NotIn(cloudObjs, relpaths);
      && (pr.error.None? <==> testRun || forall o :: o in extras ==> o in st.objects && o !in failing)
      && (pr.error.None? ==> pr.state.tally == st.tally.(delete := st.tally.delete + |extras|))
      && (pr.error.None? && testRun ==> pr.state.objects == st.objects)
      && (pr.error.None? && !testRun ==> pr.state.objects == st.objects - set o | o in extras)
  {
    DeletePassCounts(testRun, failing, st, relpaths, cloudObjs);
    if !testRun {
      DeletePassRemoves(failing, st, relpaths, cloudObjs);
    }
  }

  /** A pass counts each deleted name once; a test run always succeeds and leaves the objects alone. */
  lemma {:induction false} DeletePassCounts(testRun: bool, failing: set<string>, st: SyncState,
                                            relpaths: seq<string>, cloudObjs: seq<string>)
    ensures var pr := DeletePass(testRun, failing, st, relpaths, cloudObjs);
      && (pr.error.None? ==> pr.state.tally == st.tally.(delete := st.tally.delete + |NotIn(cloudObjs, relpaths)|))
      && (testRun ==> pr.error.None? && pr.state.objects == st.objects)
    decreases |cloudObjs|
  {
    if cloudObjs != [] {
      var init := cloudObjs[..|cloudObjs| - 1];
      var x := Last(cloudObjs);
      DeletePassCounts(testRun, failing, st, relpaths, init);
      assert NotIn(cloudObjs, relpaths) == NotIn(init, relpaths) + (if x !in relpaths then [x] else []);
    }
  }

  /**
   * Over distinct names, a real pass succeeds exactly when every name to
   * delete is present and deletable, and then removes exactly those names.
   */
  lemma {:induction false} DeletePassRemoves(failing: set<string>, st: SyncState,
                                             relpaths: seq<string>, cloudObjs: seq<string>)
    requires Distinct(cloudObjs)
    ensures var pr := DeletePass(false, failing, st, relpaths, cloudObjs);
            var extras := NotIn(cloudObjs, relpaths);
      && (pr.error.None? <==> forall o :: o in extras ==> o in st.objects && o !in failing)
      && (pr.error.None? ==> pr.state.objects == st.objects - set o | o in extras)
    decreases |cloudObjs|
  {
    if cloudObjs != [] {
      var init := cloudObjs[..|cloudObjs| - 1];
      var x := Last(cloudObjs);
      DistinctInit(cloudObjs);
      DeletePassRemoves(failing, st, relpaths, init);
      var extrasInit := NotIn(init, relpaths);
      var gone := set o | o in extrasInit;
      assert x !in gone;
      var pr := DeletePass(false, failing, st, relpaths, init);
      if x !in relpaths {
        assert NotIn(cloudObjs, relpaths) == extrasInit + [x];
        assert (set o | o in extrasInit + [x]) == gone + {x};
        if pr.error.None? {
          DeleteStepRemoves(failing, st.objects, pr.state, relpaths, x, gone);
        }
      } else {
        assert NotIn(cloudObjs, relpaths) == extrasInit;
      }
    }
  }

  /** Deleting a name not yet removed: it succeeds exactly when the name is present and deletable. */
  lemma DeleteStepRemoves(failing: set<string>, objects: map<string, StoredObject>, st: SyncState,
                          relpaths: seq<string>, x: string, gone: set<string>)
    requires st.objects == objects - gone && x !in gone && x !in relpaths
    ensures var pr := DeleteStep(false, failing, st, relpaths, x);
      && (pr.error.None? <==> x in objects && x !in failing)
      && (pr.error.None? ==> pr.state.objects == objects - (gone + {x}))
  {
    assert x in st.objects <==> x in objects;
    if x in objects && x !in failing {
      assert st.objects - {x} == objects - (gone + {x});
    }
  }

  /** The filtered listing of a container has no duplicates. */
  lemma CloudListingDistinct(glob: GlobMatcher, includes: set<string>, excludes: set<string>,
                             objects: map<string, StoredObject>)
    ensures Distinct(MatchCloud(glob, includes, excludes, Listing(objects)))
  {
    SortedIsDistinct(Listing(objects));
    MatchCloudSelects(glob, includes, excludes, Listing(objects));
  }

  /**
   * When every object that is not a relpath was already in the container
   * and was filtered out of its listing, the new listing holds only relpaths.
   */
  lemma OnlyRelpathsListed(glob: GlobMatcher, includes: set<string>, excludes: set<string>, relpaths: seq<string>,
                           before: map<string, StoredObject>, after: map<string, StoredObject>)
    requires forall o :: o in after && o !in relpaths ==>
      o in before && o !in MatchCloud(glob, includes, excludes, Listing(before))
    ensures forall o :: o in MatchCloud(glob, includes, excludes, Listing(after)) ==> o in relpaths
  {
    MatchCloudSelects(glob, includes, excludes, Listing(before));
    MatchCloudSelects(glob, includes, excludes, Listing(after));
  }

  /** When every listed name is a local relpath, `delete_extra_files` does nothing. */
  lemma {:induction false} NothingExtraDeletesNothing(testRun: bool, failing: set<string>, st: SyncState,
                                                      relpaths: seq<string>, cloudObjs: seq<string>)
    requires forall o :: o in cloudObjs ==> o in relpaths
    ensures DeletePass(testRun, failing, st, relpaths, cloudObjs) == Progress(st, None)
    decreases |cloudObjs|
  {
    if cloudObjs != [] {
      var init := cloudObjs[..|cloudObjs| - 1];
      assert forall o :: o in init ==> o in cloudObjs;
      assert Last(cloudObjs) in cloudObjs;
      NothingExtraDeletesNothing(testRun, failing, st, relpaths, init);
    }
  }

  /** Once `delete_extra_files` has raised, the rest of the listing is never looked at. */
  lemma {:induction false} DeletePassStops(testRun: bool, failing: set<string>, st: SyncState,
                                                 relpaths: seq<string>, cloudObjs: seq<string>, k: nat)
    requires k <= |cloudObjs|
    requires DeletePass(testRun, failing, st, relpaths, cloudObjs[..k]).error.Some?
    ensures DeletePass(testRun, failing, st, relpaths, cloudObjs) == DeletePass(testRun, failing, st, relpaths, cloudObjs[..k])
    decreases |cloudObjs| - k
  {
    if k < |cloudObjs| {
      assert cloudObjs[..|cloudObjs| - 1][..k] == cloudObjs[..k];
      DeletePassStops(testRun, failing, st, relpaths, cloudObjs[..|cloudObjs| - 1], k);
    } else {
      assert cloudObjs[..k] == cloudObjs;
    }
  }

  /** Deleting a name that a previous pass already removed raises a 404 ClientException. */
  lemma DeleteAbsentRaises(failing: set<string>, st: SyncState, relpaths: seq<string>, name: string)
    requires name !in relpaths && name !in st.objects && name !in failing
    ensures DeleteStep(false, failing, st, relpaths, name).error == Some(ClientException(DELETE_FAILED, 404))
  {
  }
}
