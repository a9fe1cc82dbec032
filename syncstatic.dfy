/**
 * The `syncstatic` management command (cumulus/management/commands/syncstatic.py):
 * the older sync of STATIC_ROOT into STATIC_CONTAINER. It shares
 * `match_cloud`, `match_local` and `delete_extra_files` with `syncfiles`, but
 * asks the service for each file's time with a HEAD request, finds a
 * relpath's file by suffix, counts every upload as a create, and can wipe the
 * container first from the listing taken when it connected.
 */
module SyncStatic {
  import opened Common
  import opened Globs
  import opened Backend
  import opened SyncCommon

  const STATIC_ROOT_EMPTY := "The STATIC_ROOT directory is empty or all files have been ignored."

  /** The parsed command line; `-q/--quiet` stores into `test_run` like `-t/--test-run`. */
  datatype Options = Options(
    wipe: bool,
    testRun: bool,
    container: Option<string>,
    verbosity: int,
    includes: seq<string>,
    excludes: seq<string>)

  /** The `CUMULUS` entries and Django settings `set_options` reads; the root is after `os.path.abspath`. */
  datatype StaticSettings = StaticSettings(
    staticContainer: Option<string>,
    includeList: SettingValue,
    excludeList: SettingValue,
    staticRoot: string,
    staticUrl: string)

  /** The instance variables `set_options` assigns. */
  datatype Config = Config(
    wipe: bool,
    testRun: bool,
    quiet: bool,
    containerName: Option<string>,
    verbosity: int,
    staticRoot: string,
    staticUrl: string,
    includes: set<string>,
    excludes: set<string>)

  /**
   * INCLUDE_LIST and EXCLUDE_LIST are lists. Otherwise `set_options` raises
   * TypeError when it adds them to the command-line patterns, as it does
   * for EXCLUDE_LIST whenever the project names FILTER_LIST (see
   * FilterListBreaksMerge).
   */
  predicate ListSettings(cfg: StaticSettings)
  {
    cfg.includeList.VList? && cfg.excludeList.VList?
  }

  /** The instance variables `set_options` assigns when it does not raise. */
  function Configured(opts: Options, cfg: StaticSettings): (c: Config)
    requires ListSettings(cfg)
    ensures c.staticRoot != []
  {
    TrailingSlashAdded(cfg.staticRoot);
    Config(opts.wipe, opts.testRun, opts.testRun,
           if Truthy(opts.container) then opts.container else cfg.staticContainer,
           if opts.testRun then 2 else opts.verbosity,
           WithTrailingSlash(cfg.staticRoot), WithoutLeadingSlash(cfg.staticUrl),
           MergeSetting(opts.includes, cfg.includeList).value, MergeSetting(opts.excludes, cfg.excludeList).value)
  }

  /**
   * `--container` overrides STATIC_CONTAINER; quiet is the test-run flag and
   * a test run forces verbosity 2; the root gains a trailing "/", the URL
   * loses one leading "/", and the patterns are the union of the command
   * line and the settings.
   */
  lemma ConfiguredProperties(opts: Options, cfg: StaticSettings)
    requires ListSettings(cfg)
    ensures var c := Configured(opts, cfg);
      && c.containerName == (if Truthy(opts.container) then opts.container else cfg.staticContainer)
      && c.wipe == opts.wipe && c.testRun == opts.testRun && c.quiet == opts.testRun
      && c.verbosity == (if opts.testRun then 2 else opts.verbosity)
      && (!c.quiet || c.verbosity > 1)
      && EndsWith(c.staticRoot, "/") && StartsWith(c.staticRoot, cfg.staticRoot)
      && |c.staticRoot| <= |cfg.staticRoot| + 1
      && (StartsWith(cfg.staticUrl, "/") ==> cfg.staticUrl == "/" + c.staticUrl)
      && (!StartsWith(cfg.staticUrl, "/") ==> c.staticUrl == cfg.staticUrl)
      && (forall g :: g in c.includes <==> g in opts.includes || g in cfg.includeList.items)
      && (forall g :: g in c.excludes <==> g in opts.excludes || g in cfg.excludeList.items)
  {
    TrailingSlashAdded(cfg.staticRoot);
    LeadingSlashRemoved(cfg.staticUrl);
  }

  // ---------------------------------------------------------------------------
  // upload_files / upload_file
  // ---------------------------------------------------------------------------

  /** What `upload_file` uses: the files, `mimetypes.guess_type`, gzip, GZIP_CONTENT_TYPES and the service clock. */
  datatype StaticEnv = StaticEnv(
    fs: FileSystem,
    guessType: string -> Option<string>,
    gzip: seq<bv8> -> seq<bv8>,
    gzipTypes: seq<string>,     // CUMULUS.get("GZIP_CONTENT_TYPES", [])
    now: int)

  /** `[p for p in abspaths if p.endswith(relpath)][0]`: the first path ending with the relpath. */
  function FindEnding(abspaths: seq<string>, relpath: string): (r: Option<string>)
    ensures r.Some? ==> r.value in abspaths && EndsWith(r.value, relpath)
    ensures r.None? <==> forall p :: p in abspaths ==> !EndsWith(p, relpath)
    decreases |abspaths|
  {
    if abspaths == [] then None
    else if EndsWith(abspaths[0], relpath) then Some(abspaths[0])
    else FindEnding(abspaths[1..], relpath)
  }

  /**
   * The suffix test can pick another file: for relpath "b.css" the first
   * path ending with it is "/s/ab.css", not "/s/b.css".
   */
  lemma SuffixLookupPicksOtherFile()
    ensures FindEnding(["/s/ab.css", "/s/b.css"], "b.css") == Some("/s/ab.css")
  {
    assert EndsWith("/s/ab.css", "b.css") by {
      assert "/s/ab.css"[4..] == "b.css";
    }
  }

  datatype Verdict = Skip | Upload | Raise(error: Error)

  /** What `upload_files` does with the answer to HEAD and the local modification time. */
  function Judge(head: HeadResult, localMtime: int): Verdict
  {
    match head
    case HeadFailed(msg, status) => if msg != HEAD_FAILED then Raise(ClientException(msg, status)) else Upload
    case HeadOk(lastModified) => if lastModified.Some? && localMtime < lastModified.value then Skip else Upload
  }

  /** HEAD raises something other than swiftclient's "Object HEAD failed" for this name. */
  predicate HeadRaises(headFailures: map<string, string>, name: string)
  {
    name in headFailures && headFailures[name] != HEAD_FAILED
  }

  /**
   * A HEAD failure with "Object HEAD failed" (a missing object among them)
   * leads to an upload and any other one is re-raised; otherwise the file
   * is skipped exactly when the remote time is later than the local one.
   */
  lemma JudgeHead(objects: map<string, StoredObject>, headFailures: map<string, string>, name: string, localMtime: int)
    ensures var v := Judge(Head(objects, headFailures, name), localMtime);
      && (v.Raise? <==> HeadRaises(headFailures, name))
      && (v.Raise? ==> v.error == ClientException(headFailures[name], 500))
      && (v == Skip <==> name !in headFailures && name in objects && localMtime < objects[name].lastModified)
      && (name !in objects && !HeadRaises(headFailures, name) ==> v == Upload)
  {
  }

  predicate Gzipped(env: StaticEnv, abspath: string)
  {
    var mime := env.guessType(abspath);
    mime.Some? && mime.value in env.gzipTypes
  }

  /** The object `put_object` stores: gzipped with its compressed length when the type is listed, else as is. */
  function StaticObject(env: StaticEnv, abspath: string): (o: StoredObject)
    ensures var local := env.fs(abspath).data;
      && o.contentType == env.guessType(abspath) && o.ttl == None && o.lastModified == env.now
      && (Gzipped(env, abspath) ==>
            o.data == env.gzip(local) && o.contentLength == |env.gzip(local)| &&
            o.headers == map["Content-Encoding" := "gzip"])
      && (!Gzipped(env, abspath) ==> o.data == local && o.contentLength == |local| && o.headers == map[])
  {
    var local := env.fs(abspath).data;
    if Gzipped(env, abspath) then
      StoredObject(env.gzip(local), env.guessType(abspath), |env.gzip(local)|,
                   map["Content-Encoding" := "gzip"], None, env.now)
    else
      StoredObject(local, env.guessType(abspath), |local|, map[], None, env.now)
  }

  /** `upload_file`: a real run stores the object; both count it as created. */
  function UploadFileEffect(testRun: bool, env: StaticEnv, st: SyncState, abspath: string, name: string): SyncState
  {
    var counted := st.(tally := st.tally.(create := st.tally.create + 1));
    if testRun then counted else counted.(objects := st.objects[name := StaticObject(env, abspath)])
  }

  /** One iteration of `upload_files`, asking HEAD of the container as it is now. */
  function UploadStep(testRun: bool, env: StaticEnv, headFailures: map<string, string>, abspaths: seq<string>,
                      st: SyncState, relpath: string): Progress
  {
    match FindEnding(abspaths, relpath)
    case None => Progress(st, Some(IndexError))
    case Some(abspath) =>
      match Judge(Head(st.objects, headFailures, relpath), env.fs(abspath).mtime)
      case Raise(e) => Progress(st, Some(e))
      case Skip => Progress(st.(tally := st.tally.(skip := st.tally.skip + 1)), None)
      case Upload => Progress(UploadFileEffect(testRun, env, st, abspath, relpath), None)
  }

  /** `upload_files(abspaths, relpaths)`, stopping at the first exception. */
  function UploadPass(testRun: bool, env: StaticEnv, headFailures: map<string, string>, abspaths: seq<string>,
                      st: SyncState, relpaths: seq<string>): Progress
    decreases |relpaths|
  {
    if relpaths == [] then Progress(st, None)
    else
      var pr := UploadPass(testRun, env, headFailures, abspaths, st, relpaths[..|relpaths| - 1]);
      if pr.error.Some? then pr else UploadStep(testRun, env, headFailures, abspaths, pr.state, Last(relpaths))
  }

  /** The verdict for a relpath against given objects, or None when no path ends with it. */
  function Decide(env: StaticEnv, headFailures: map<string, string>, abspaths: seq<string>,
                  objects: map<string, StoredObject>, relpath: string): Option<Verdict>
  {
    match FindEnding(abspaths, relpath)
    case None => None
    case Some(p) => Some(Judge(Head(objects, headFailures, relpath), env.fs(p).mtime))
  }

  /** How many relpaths get verdict `v` against the given objects. */
  function Count(env: StaticEnv, headFailures: map<string, string>, abspaths: seq<string>,
                 objects: map<string, StoredObject>, relpaths: seq<string>, v: Verdict): nat
    decreases |relpaths|
  {
    if relpaths == [] then 0
    else Count(env, headFailures, abspaths, objects, relpaths[..|relpaths| - 1], v)
         + (if Decide(env, headFailures, abspaths, objects, Last(relpaths)) == Some(v) then 1 else 0)
  }

  /**
   * `upload_files` succeeds exactly when every relpath is the suffix of a
   * matched path and no HEAD raises anything but "Object HEAD failed".
   */
  lemma {:induction false} UploadPassSucceeds(testRun: bool, env: StaticEnv, headFailures: map<string, string>,
                                              abspaths: seq<string>, st: SyncState, relpaths: seq<string>)
    ensures UploadPass(testRun, env, headFailures, abspaths, st, relpaths).error.None? <==>
      forall r :: r in relpaths ==> FindEnding(abspaths, r).Some? && !HeadRaises(headFailures, r)
    decreases |relpaths|
  {
    if relpaths != [] {
      var init := relpaths[..|relpaths| - 1];
      var x := Last(relpaths);
      assert forall r :: r in relpaths <==> r in init || r == x by {
        assert relpaths == init + [x];
      }
      UploadPassSucceeds(testRun, env, headFailures, abspaths, st, init);
      var pr := UploadPass(testRun, env, headFailures, abspaths, st, init);
      if pr.error.None? {
        match FindEnding(abspaths, x)
        case None =>
        case Some(p) =>
          JudgeHead(pr.state.objects, headFailures, x, env.fs(p).mtime);
          assert UploadStep(testRun, env, headFailures, abspaths, pr.state, x).error.None?
             <==> !HeadRaises(headFailures, x);
      }
    }
  }

  /** The two containers agree on the name: both lack it, or both hold the same object. */
  predicate SameAt(a: map<string, StoredObject>, b: map<string, StoredObject>, name: string)
  {
    (name in a <==> name in b) && (name in a ==> a[name] == b[name])
  }

  /** One iteration changes at most the object named by its relpath, and none in a test run. */
  lemma UploadStepFrame(testRun: bool, env: StaticEnv, headFailures: map<string, string>, abspaths: seq<string>,
                        st: SyncState, relpath: string)
    ensures var objs := UploadStep(testRun, env, headFailures, abspaths, st, relpath).state.objects;
      && (testRun ==> objs == st.objects)
      && (forall n :: n != relpath ==> SameAt(objs, st.objects, n))
  {
  }

  /** `upload_files` changes only the objects named by relpaths, and none in a test run. */
  lemma {:induction false} UploadPassFrame(testRun: bool, env: StaticEnv, headFailures: map<string, string>,
                                           abspaths: seq<string>, st: SyncState, relpaths: seq<string>)
    ensures var objs := UploadPass(testRun, env, headFailures, abspaths, st, relpaths).state.objects;
      && (testRun ==> objs == st.objects)
      && (forall n :: n !in relpaths ==> SameAt(objs, st.objects, n))
    decreases |relpaths|
  {
    if relpaths != [] {
      var init := relpaths[..|relpaths| - 1];
      var x := Last(relpaths);
      InitLast(relpaths);
      UploadPassFrame(testRun, env, headFailures, abspaths, st, init);
      var pr := UploadPass(testRun, env, headFailures, abspaths, st, init);
      if pr.error.None? {
        UploadStepFrame(testRun, env, headFailures, abspaths, pr.state, x);
      }
    }
  }

  /** `upload_files` changes only the create and skip counters: `upload_count` is never incremented. */
  lemma {:induction false} UploadPassCounters(testRun: bool, env: StaticEnv, headFailures: map<string, string>,
                                              abspaths: seq<string>, st: SyncState, relpaths: seq<string>)
    ensures var t := UploadPass(testRun, env, headFailures, abspaths, st, relpaths).state.tally;
      t.upload == st.tally.upload && t.update == st.tally.update && t.delete == st.tally.delete
    decreases |relpaths|
  {
    if relpaths != [] {
      var init := relpaths[..|relpaths| - 1];
      UploadPassCounters(testRun, env, headFailures, abspaths, st, init);
      var pr := UploadPass(testRun, env, headFailures, abspaths, st, init);
      if pr.error.None? {
        UploadStepCounters(testRun, env, headFailures, abspaths, pr.state, Last(relpaths));
      }
    }
  }

  /** One iteration leaves `upload_count`, `update_count` and `delete_count` alone. */
  lemma UploadStepCounters(testRun: bool, env: StaticEnv, headFailures: map<string, string>, abspaths: seq<string>,
                           st: SyncState, relpath: string)
    ensures var t := UploadStep(testRun, env, headFailures, abspaths, st, relpath).state.tally;
      t.upload == st.tally.upload && t.update == st.tally.update && t.delete == st.tally.delete
  {
  }

  /** One successful iteration counts its relpath's verdict against the container it sees. */
  lemma UploadStepTally(testRun: bool, env: StaticEnv, headFailures: map<string, string>, abspaths: seq<string>,
                        st: SyncState, relpath: string)
    requires UploadStep(testRun, env, headFailures, abspaths, st, relpath).error.None?
    ensures var d := Decide(env, headFailures, abspaths, st.objects, relpath);
      && (d == Some(Upload) || d == Some(Skip))
      && UploadStep(testRun, env, headFailures, abspaths, st, relpath).state.tally
           == st.tally.(create := st.tally.create + (if d == Some(Upload) then 1 else 0),
                        skip := st.tally.skip + (if d == Some(Skip) then 1 else 0))
  {
  }

  /**
   * Over distinct relpaths, a successful pass creates one object per upload
   * verdict and skips one per skip verdict, judged against the container as
   * it was before the pass; the two add up to the number of relpaths.
   */
  lemma {:induction false} UploadPassTally(testRun: bool, env: StaticEnv, headFailures: map<string, string>,
                                           abspaths: seq<string>, st: SyncState, relpaths: seq<string>)
    requires Distinct(relpaths)
    requires UploadPass(testRun, env, headFailures, abspaths, st, relpaths).error.None?
    ensures var uploads := Count(env, headFailures, abspaths, st.objects, relpaths, Upload);
            var skips := Count(env, headFailures, abspaths, st.objects, relpaths, Skip);
      && UploadPass(testRun, env, headFailures, abspaths, st, relpaths).state.tally
           == st.tally.(create := st.tally.create + uploads, skip := st.tally.skip + skips)
      && uploads + skips == |relpaths|
    decreases |relpaths|
  {
    if relpaths != [] {
      var init := relpaths[..|relpaths| - 1];
      var x := Last(relpaths);
      DistinctInit(relpaths);
      var pr := UploadPass(testRun, env, headFailures, abspaths, st, init);
      UploadPassTally(testRun, env, headFailures, abspaths, st, init);
      UploadPassFrame(testRun, env, headFailures, abspaths, st, init);
      assert SameAt(pr.state.objects, st.objects, x);
      assert Decide(env, headFailures, abspaths, pr.state.objects, x) == Decide(env, headFailures, abspaths, st.objects, x);
      UploadStepTally(testRun, env, headFailures, abspaths, pr.state, x);
    }
  }

  /**
   * Over distinct relpaths, a test run makes the same calls to HEAD with
   * the same answers as a successful real run: it counts the same and
   * stores nothing.
   */
  lemma DryRunCountsLikeRealRun(env: StaticEnv, headFailures: map<string, string>, abspaths: seq<string>,
                                st: SyncState, relpaths: seq<string>)
    requires Distinct(relpaths)
    requires UploadPass(false, env, headFailures, abspaths, st, relpaths).error.None?
    ensures var realRun := UploadPass(false, env, headFailures, abspaths, st, relpaths);
            var dryRun := UploadPass(true, env, headFailures, abspaths, st, relpaths);
      dryRun == Progress(SyncState(realRun.state.tally, st.objects), None)
  {
    UploadPassSucceeds(false, env, headFailures, abspaths, st, relpaths);
    UploadPassSucceeds(true, env, headFailures, abspaths, st, relpaths);
    UploadPassTally(false, env, headFailures, abspaths, st, relpaths);
    UploadPassTally(true, env, headFailures, abspaths, st, relpaths);
    UploadPassFrame(true, env, headFailures, abspaths, st, relpaths);
  }

  /**
   * After a successful real pass over distinct relpaths whose HEAD never
   * fails on the server, with the service clock past every local mtime,
   * every relpath is stored with a later time than its file.
   */
  lemma {:induction false} NewerAfterUpload(env: StaticEnv, headFailures: map<string, string>, abspaths: seq<string>,
                                            st: SyncState, relpaths: seq<string>)
    requires Distinct(relpaths)
    requires UploadPass(false, env, headFailures, abspaths, st, relpaths).error.None?
    requires forall r :: r in relpaths ==> r !in headFailures
    requires forall p :: p in abspaths ==> env.fs(p).mtime < env.now
    ensures var objs := UploadPass(false, env, headFailures, abspaths, st, relpaths).state.objects;
      forall r :: r in relpaths ==>
        FindEnding(abspaths, r).Some? && r in objs &&
        env.fs(FindEnding(abspaths, r).value).mtime < objs[r].lastModified
    decreases |relpaths|
  {
    if relpaths != [] {
      var init := relpaths[..|relpaths| - 1];
      var x := Last(relpaths);
      InitLast(relpaths);
      DistinctInit(relpaths);
      var pr := UploadPass(false, env, headFailures, abspaths, st, init);
      assert pr.error.None?;
      NewerAfterUpload(env, headFailures, abspaths, st, init);
      UploadStepNewer(env, headFailures, abspaths, pr.state, x);
      UploadStepFrame(false, env, headFailures, abspaths, pr.state, x);
    }
  }

  /** A successful real iteration for a name HEAD does not fail on leaves that name newer than its file. */
  lemma UploadStepNewer(env: StaticEnv, headFailures: map<string, string>, abspaths: seq<string>,
                        st: SyncState, x: string)
    requires UploadStep(false, env, headFailures, abspaths, st, x).error.None?
    requires x !in headFailures
    requires forall p :: p in abspaths ==> env.fs(p).mtime < env.now
    ensures var objs := UploadStep(false, env, headFailures, abspaths, st, x).state.objects;
      FindEnding(abspaths, x).Some? && x in objs && env.fs(FindEnding(abspaths, x).value).mtime < objs[x].lastModified
  {
    var p := FindEnding(abspaths, x).value;
    JudgeHead(st.objects, headFailures, x, env.fs(p).mtime);
  }

  /** When every relpath is already newer remotely, `upload_files` skips them all and stores nothing. */
  lemma {:induction false} AllNewerSkipsAll(testRun: bool, env: StaticEnv, headFailures: map<string, string>,
                                            abspaths: seq<string>, st: SyncState, relpaths: seq<string>)
    requires forall r :: r in relpaths ==>
      FindEnding(abspaths, r).Some? && r !in headFailures && r in st.objects &&
      env.fs(FindEnding(abspaths, r).value).mtime < st.objects[r].lastModified
    ensures UploadPass(testRun, env, headFailures, abspaths, st, relpaths)
         == Progress(st.(tally := st.tally.(skip := st.tally.skip + |relpaths|)), None)
    decreases |relpaths|
  {
    if relpaths != [] {
      var init := relpaths[..|relpaths| - 1];
      assert forall r :: r in init ==> r in relpaths;
      assert Last(relpaths) in relpaths;
      AllNewerSkipsAll(testRun, env, headFailures, abspaths, st, init);
    }
  }

  /** The pass over one more relpath is one more step, while no exception has been raised. */
  lemma UploadPassSnoc(testRun: bool, env: StaticEnv, headFailures: map<string, string>, abspaths: seq<string>,
                       st: SyncState, relpaths: seq<string>, i: nat)
    requires i < |relpaths|
    requires UploadPass(testRun, env, headFailures, abspaths, st, relpaths[..i]).error.None?
    ensures UploadPass(testRun, env, headFailures, abspaths, st, relpaths[..i + 1])
         == UploadStep(testRun, env, headFailures, abspaths,
                       UploadPass(testRun, env, headFailures, abspaths, st, relpaths[..i]).state, relpaths[i])
  {
    assert relpaths[..i + 1][..i] == relpaths[..i];
  }

  /** Once `upload_files` has raised, the remaining relpaths are never looked at. */
  lemma {:induction false} UploadPassStops(testRun: bool, env: StaticEnv, headFailures: map<string, string>,
                                           abspaths: seq<string>, st: SyncState, relpaths: seq<string>, k: nat)
    requires k <= |relpaths|
    requires UploadPass(testRun, env, headFailures, abspaths, st, relpaths[..k]).error.Some?
    ensures UploadPass(testRun, env, headFailures, abspaths, st, relpaths)
         == UploadPass(testRun, env, headFailures, abspaths, st, relpaths[..k])
    decreases |relpaths| - k
  {
    if k < |relpaths| {
      assert relpaths[..|relpaths| - 1][..k] == relpaths[..k];
      UploadPassStops(testRun, env, headFailures, abspaths, st, relpaths[..|relpaths| - 1], k);
    } else {
      assert relpaths[..k] == relpaths;
    }
  }

  // ---------------------------------------------------------------------------
  // wipe_container
  // ---------------------------------------------------------------------------

  /** The real-run loop of `wipe_container`: `delete_object` for each listed name, stopping at the first exception. */
  function WipeDeletes(failing: set<string>, st: SyncState, names: seq<string>): Progress
    decreases |names|
  {
    if names == [] then Progress(st, None)
    else
      var pr := WipeDeletes(failing, st, names[..|names| - 1]);
      if pr.error.Some? then pr
      else
        var effect := Delete(pr.state.objects, failing, Last(names));
        Progress(pr.state.(objects := effect.objects), effect.error)
  }

  /** `wipe_container` over the listing taken at connection time; a test run only reports. */
  function WipePass(testRun: bool, failing: set<string>, st: SyncState, names: seq<string>): Progress
  {
    if testRun then Progress(st, None) else WipeDeletes(failing, st, names)
  }

  /**
   * Deleting distinct names that are all present succeeds exactly when none
   * of them fails on the server, and then removes exactly those names. The
   * counters are never touched.
   */
  lemma {:induction false} WipeDeletesEffect(failing: set<string>, st: SyncState, names: seq<string>)
    requires Distinct(names)
    requires forall n :: n in names ==> n in st.objects
    ensures var pr := WipeDeletes(failing, st, names);
      && pr.state.tally == st.tally
      && (pr.error.None? <==> forall n :: n in names ==> n !in failing)
      && (pr.error.None? ==> pr.state.objects == st.objects - set n | n in names)
    decreases |names|
  {
    if names != [] {
      var init := names[..|names| - 1];
      var x := Last(names);
      InitLast(names);
      DistinctInit(names);
      WipeDeletesEffect(failing, st, init);
      var pr := WipeDeletes(failing, st, init);
      if pr.error.None? {
        var gone := set n | n in init;
        assert x in st.objects && x !in gone;
        assert x in pr.state.objects;
        if x !in failing {
          assert (set n | n in names) == gone + {x};
          assert pr.state.objects - {x} == st.objects - (gone + {x});
        }
      }
    }
  }

  /** A real wipe of the whole listing that succeeds leaves the container empty. */
  lemma WipeEmptiesContainer(failing: set<string>, st: SyncState)
    ensures var pr := WipePass(false, failing, st, Listing(st.objects));
      && (pr.error.None? <==> forall n :: n in st.objects ==> n !in failing)
      && (pr.error.None? ==> pr.state == SyncState(st.tally, map[]))
  {
    SortedIsDistinct(Listing(st.objects));
    WipeDeletesEffect(failing, st, Listing(st.objects));
    var pr := WipePass(false, failing, st, Listing(st.objects));
    if pr.error.None? {
      assert pr.state.objects == map[];
    }
  }

  lemma WipeDeletesSnoc(failing: set<string>, st: SyncState, names: seq<string>, i: nat)
    requires i < |names|
    requires WipeDeletes(failing, st, names[..i]).error.None?
    ensures var pr := WipeDeletes(failing, st, names[..i]);
            var effect := Delete(pr.state.objects, failing, names[i]);
      WipeDeletes(failing, st, names[..i + 1]) == Progress(pr.state.(objects := effect.objects), effect.error)
  {
    assert names[..i + 1][..i] == names[..i];
  }

  lemma {:induction false} WipeDeletesStops(failing: set<string>, st: SyncState, names: seq<string>, k: nat)
    requires k <= |names|
    requires WipeDeletes(failing, st, names[..k]).error.Some?
    ensures WipeDeletes(failing, st, names) == WipeDeletes(failing, st, names[..k])
    decreases |names| - k
  {
    if k < |names| {
      assert names[..|names| - 1][..k] == names[..k];
      WipeDeletesStops(failing, st, names[..|names| - 1], k);
    } else {
      assert names[..k] == names;
    }
  }

  // ---------------------------------------------------------------------------
  // handle_noargs after set_options and connect_container
  // ---------------------------------------------------------------------------

  /**
   * `upload_files`, `delete_extra_files` and `print_tally`'s
   * `update_count = upload_count - create_count`, stopping at the first
   * exception.
   */
  function Transfer(testRun: bool, env: StaticEnv, headFailures: map<string, string>, failing: set<string>,
                    abspaths: seq<string>, relpaths: seq<string>, cloudObjs: seq<string>, st: SyncState): Progress
  {
    var up := UploadPass(testRun, env, headFailures, abspaths, st, relpaths);
    if up.error.Some? then up
    else
      var del := DeletePass(testRun, failing, up.state, relpaths, cloudObjs);
      if del.error.Some? then del
      else Progress(del.state.(tally := del.state.tally.(update := del.state.tally.upload - del.state.tally.create)), None)
  }

  /** The checks between the wipe and the transfer pass. */
  predicate ReachesTransfer(c: Config, env: StaticEnv, glob: GlobMatcher, tree: seq<Entry>)
    requires c.staticRoot != []
  {
    var abspaths := LocalPaths(glob, c.staticRoot, c.includes, c.excludes, tree);
    Relpaths(abspaths, c.staticRoot) != [] && FirstIrregular(abspaths, env.fs).None?
  }

  /**
   * One whole pass: the listing taken at connection time, the optional
   * wipe, local matching, the relpath and file-type checks, then the
   * transfer against the filtered listing, which is still the one taken
   * before the wipe.
   */
  ghost function SyncPass(c: Config, env: StaticEnv, glob: GlobMatcher, tree: seq<Entry>,
                          headFailures: map<string, string>, failing: set<string>, st: SyncState): Progress
    requires c.staticRoot != []
  {
    var listing := Listing(st.objects);
    var wiped := if c.wipe then WipePass(c.testRun, failing, st, listing) else Progress(st, None);
    if wiped.error.Some? then wiped
    else
      var abspaths := LocalPaths(glob, c.staticRoot, c.includes, c.excludes, tree);
      var relpaths := Relpaths(abspaths, c.staticRoot);
      if relpaths == [] then Progress(wiped.state, Some(CommandError(STATIC_ROOT_EMPTY)))
      else match FirstIrregular(abspaths, env.fs)
      case Some(p) => Progress(wiped.state, Some(CommandError("Unsupported filetype: " + p + ".")))
      case None =>
        Transfer(c.testRun, env, headFailures, failing, abspaths, relpaths,
                 MatchCloud(glob, c.includes, c.excludes, listing), wiped.state)
  }

  /** Without a wipe, a pass that gets past its checks is the transfer; one that does not raises and changes nothing. */
  lemma SyncPassTransfers(c: Config, env: StaticEnv, glob: GlobMatcher, tree: seq<Entry>,
                          headFailures: map<string, string>, failing: set<string>, st: SyncState)
    requires c.staticRoot != [] && !c.wipe
    ensures !ReachesTransfer(c, env, glob, tree) ==>
      var pr := SyncPass(c, env, glob, tree, headFailures, failing, st);
      pr.error.Some? && pr.state == st
    ensures ReachesTransfer(c, env, glob, tree) ==>
      var abspaths := LocalPaths(glob, c.staticRoot, c.includes, c.excludes, tree);
      SyncPass(c, env, glob, tree, headFailures, failing, st)
        == Transfer(c.testRun, env, headFailures, failing, abspaths, Relpaths(abspaths, c.staticRoot),
                    MatchCloud(glob, c.includes, c.excludes, Listing(st.objects)), st)
  {
  }

  /** A successful transfer keeps `upload_count` and reports "Updated" as `upload_count - create_count`. */
  lemma TransferCounters(testRun: bool, env: StaticEnv, headFailures: map<string, string>, failing: set<string>,
                         abspaths: seq<string>, relpaths: seq<string>, cloudObjs: seq<string>, st: SyncState)
    requires Distinct(cloudObjs)
    requires Transfer(testRun, env, headFailures, failing, abspaths, relpaths, cloudObjs, st).error.None?
    ensures var t := Transfer(testRun, env, headFailures, failing, abspaths, relpaths, cloudObjs, st).state.tally;
      t.upload == st.tally.upload && t.update == st.tally.upload - t.create
  {
    UploadPassCounters(testRun, env, headFailures, abspaths, st, relpaths);
    var up := UploadPass(testRun, env, headFailures, abspaths, st, relpaths);
    DeletePassEffect(testRun, failing, up.state, relpaths, cloudObjs);
  }

  /**
   * `upload_count` is never incremented, so from zeroed counters a
   * successful pass reports "Updated" as minus the number created.
   */
  lemma UpdatedIsMinusCreated(c: Config, env: StaticEnv, glob: GlobMatcher, tree: seq<Entry>,
                              headFailures: map<string, string>, failing: set<string>, st: SyncState)
    requires c.staticRoot != [] && st.tally == ZERO_TALLY
    requires SyncPass(c, env, glob, tree, headFailures, failing, st).error.None?
    ensures var t := SyncPass(c, env, glob, tree, headFailures, failing, st).state.tally;
      t.upload == 0 && t.update == -t.create
  {
    var listing := Listing(st.objects);
    if c.wipe && !c.testRun {
      WipeEmptiesContainer(failing, st);
    }
    var wiped := if c.wipe then WipePass(c.testRun, failing, st, listing) else Progress(st, None);
    assert wiped.state.tally == ZERO_TALLY;
    var abspaths := LocalPaths(glob, c.staticRoot, c.includes, c.excludes, tree);
    CloudListingDistinct(glob, c.includes, c.excludes, st.objects);
    TransferCounters(c.testRun, env, headFailures, failing, abspaths, Relpaths(abspaths, c.staticRoot),
                     MatchCloud(glob, c.includes, c.excludes, listing), wiped.state);
  }

  /** Over distinct relpaths, a test run of the transfer counts like a successful real run and changes no object. */
  lemma DryRunTransferMatches(env: StaticEnv, headFailures: map<string, string>, failing: set<string>,
                              abspaths: seq<string>, relpaths: seq<string>, cloudObjs: seq<string>, st: SyncState)
    requires Distinct(relpaths) && Distinct(cloudObjs)
    requires Transfer(false, env, headFailures, failing, abspaths, relpaths, cloudObjs, st).error.None?
    ensures var realRun := Transfer(false, env, headFailures, failing, abspaths, relpaths, cloudObjs, st);
            var dryRun := Transfer(true, env, headFailures, failing, abspaths, relpaths, cloudObjs, st);
      dryRun == Progress(SyncState(realRun.state.tally, st.objects), None)
  {
    DryRunCountsLikeRealRun(env, headFailures, abspaths, st, relpaths);
    var up := UploadPass(false, env, headFailures, abspaths, st, relpaths);
    var upDry := UploadPass(true, env, headFailures, abspaths, st, relpaths);
    DeletePassEffect(false, failing, up.state, relpaths, cloudObjs);
    DeletePassEffect(true, failing, upDry.state, relpaths, cloudObjs);
  }

  /**
   * Without a wipe and over distinct relpaths, a test run of a pass reports
   * the same tally as a successful real run and leaves the container
   * untouched.
   */
  lemma DryRunSyncMatchesRealSync(c: Config, env: StaticEnv, glob: GlobMatcher, tree: seq<Entry>,
                                  headFailures: map<string, string>, failing: set<string>, st: SyncState)
    requires c.staticRoot != [] && !c.testRun && !c.wipe
    requires Distinct(Relpaths(LocalPaths(glob, c.staticRoot, c.includes, c.excludes, tree), c.staticRoot))
    requires SyncPass(c, env, glob, tree, headFailures, failing, st).error.None?
    ensures var realRun := SyncPass(c, env, glob, tree, headFailures, failing, st);
            var dryRun := SyncPass(c.(testRun := true), env, glob, tree, headFailures, failing, st);
      dryRun == Progress(SyncState(realRun.state.tally, st.objects), None)
  {
    var abspaths := LocalPaths(glob, c.staticRoot, c.includes, c.excludes, tree);
    SyncPassTransfers(c, env, glob, tree, headFailures, failing, st);
    SyncPassTransfers(c.(testRun := true), env, glob, tree, headFailures, failing, st);
    CloudListingDistinct(glob, c.includes, c.excludes, st.objects);
    DryRunTransferMatches(env, headFailures, failing, abspaths, Relpaths(abspaths, c.staticRoot),
                          MatchCloud(glob, c.includes, c.excludes, Listing(st.objects)), st);
  }

  /**
   * Deleting names that are absent and not failing on the server: nothing
   * happens while the names are local relpaths, and the first one that is
   * not raises ClientException 404.
   */
  lemma {:induction false} DeleteMissingFails(failing: set<string>, st: SyncState, relpaths: seq<string>,
                                              cloudObjs: seq<string>)
    requires forall o :: o in cloudObjs && o !in relpaths ==> o !in st.objects && o !in failing
    ensures DeletePass(false, failing, st, relpaths, cloudObjs)
         == if NotIn(cloudObjs, relpaths) == [] then Progress(st, None)
            else Progress(st, Some(ClientException(DELETE_FAILED, 404)))
    decreases |cloudObjs|
  {
    if cloudObjs != [] {
      var init := cloudObjs[..|cloudObjs| - 1];
      var x := Last(cloudObjs);
      InitLast(cloudObjs);
      DeleteMissingFails(failing, st, relpaths, init);
      if NotIn(init, relpaths) != [] {
        assert NotIn(cloudObjs, relpaths) != [] by {
          assert NotIn(init, relpaths)[0] in NotIn(cloudObjs, relpaths);
        }
      } else if x !in relpaths {
        assert x in NotIn(cloudObjs, relpaths);
      }
    }
  }

  /**
   * A real run with `--wipe` deletes every listed object, but
   * `delete_extra_files` still works from the listing taken before the
   * wipe: as soon as a selected object existed that is not a local relpath,
   * the pass ends with ClientException 404 after the uploads.
   */
  lemma WipeThenStaleDeleteFails(c: Config, env: StaticEnv, glob: GlobMatcher, tree: seq<Entry>,
                                 headFailures: map<string, string>, failing: set<string>, st: SyncState, extra: string)
    requires c.staticRoot != [] && c.wipe && !c.testRun
    requires ReachesTransfer(c, env, glob, tree)
    requires forall n :: n in st.objects ==> n !in failing
    requires var abspaths := LocalPaths(glob, c.staticRoot, c.includes, c.excludes, tree);
      forall r :: r in Relpaths(abspaths, c.staticRoot) ==> FindEnding(abspaths, r).Some? && !HeadRaises(headFailures, r)
    requires extra in st.objects && Selected(glob, c.includes, c.excludes, extra)
    requires extra !in Relpaths(LocalPaths(glob, c.staticRoot, c.includes, c.excludes, tree), c.staticRoot)
    ensures SyncPass(c, env, glob, tree, headFailures, failing, st).error == Some(ClientException(DELETE_FAILED, 404))
  {
    var listing := Listing(st.objects);
    var abspaths := LocalPaths(glob, c.staticRoot, c.includes, c.excludes, tree);
    var relpaths := Relpaths(abspaths, c.staticRoot);
    var cloudObjs := MatchCloud(glob, c.includes, c.excludes, listing);
    WipeEmptiesContainer(failing, st);
    var wiped := SyncState(st.tally, map[]);
    UploadPassSucceeds(false, env, headFailures, abspaths, wiped, relpaths);
    UploadPassFrame(false, env, headFailures, abspaths, wiped, relpaths);
    var up := UploadPass(false, env, headFailures, abspaths, wiped, relpaths);
    MatchCloudSelects(glob, c.includes, c.excludes, listing);
    DeleteMissingFails(failing, up.state, relpaths, cloudObjs);
    assert extra in NotIn(cloudObjs, relpaths);
  }

  /**
   * Syncing twice without a wipe changes nothing the second time: after a
   * successful real pass over distinct relpaths whose HEAD never fails on
   * the server (with the service clock past every local mtime), a second
   * pass skips every file, deletes nothing and leaves the container as the
   * first pass left it.
   */
  lemma SecondSyncChangesNothing(c: Config, env: StaticEnv, glob: GlobMatcher, tree: seq<Entry>,
                                 headFailures: map<string, string>, failing: set<string>, st: SyncState)
    requires c.staticRoot != [] && !c.testRun && !c.wipe
    requires var relpaths := Relpaths(LocalPaths(glob, c.staticRoot, c.includes, c.excludes, tree), c.staticRoot);
      Distinct(relpaths) && forall r :: r in relpaths ==> r !in headFailures
    requires SyncPass(c, env, glob, tree, headFailures, failing, st).error.None?
    requires forall p :: p in LocalPaths(glob, c.staticRoot, c.includes, c.excludes, tree) ==> env.fs(p).mtime < env.now
    ensures var first := SyncPass(c, env, glob, tree, headFailures, failing, st);
            var second := SyncPass(c, env, glob, tree, headFailures, failing, first.state.(tally := ZERO_TALLY));
      && second.error.None?
      && second.state.objects == first.state.objects
      && second.state.tally == Tally(0, 0, 0, |LocalPaths(glob, c.staticRoot, c.includes, c.excludes, tree)|, 0)
  {
    var abspaths := LocalPaths(glob, c.staticRoot, c.includes, c.excludes, tree);
    SyncPassTransfers(c, env, glob, tree, headFailures, failing, st);
    var first := SyncPass(c, env, glob, tree, headFailures, failing, st);
    SyncPassTransfers(c, env, glob, tree, headFailures, failing, first.state.(tally := ZERO_TALLY));
    SecondTransferChangesNothing(env, headFailures, failing, glob, c.includes, c.excludes,
                                 abspaths, Relpaths(abspaths, c.staticRoot), st);
  }

  /** The transfer part of SecondSyncChangesNothing, with the listing taken afresh before each pass. */
  lemma SecondTransferChangesNothing(env: StaticEnv, headFailures: map<string, string>, failing: set<string>,
                                     glob: GlobMatcher, includes: set<string>, excludes: set<string>,
                                     abspaths: seq<string>, relpaths: seq<string>, st: SyncState)
    requires Distinct(relpaths) && forall r :: r in relpaths ==> r !in headFailures
    requires forall p :: p in abspaths ==> env.fs(p).mtime < env.now
    requires Transfer(false, env, headFailures, failing, abspaths, relpaths,
                      MatchCloud(glob, includes, excludes, Listing(st.objects)), st).error.None?
    ensures var first := Transfer(false, env, headFailures, failing, abspaths, relpaths,
                                  MatchCloud(glob, includes, excludes, Listing(st.objects)), st);
            var st2 := first.state.(tally := ZERO_TALLY);
      Transfer(false, env, headFailures, failing, abspaths, relpaths,
               MatchCloud(glob, includes, excludes, Listing(st2.objects)), st2)
        == Progress(st2.(tally := ZERO_TALLY.(skip := |relpaths|)), None)
  {
    var cloud1 := MatchCloud(glob, includes, excludes, Listing(st.objects));
    var first := Transfer(false, env, headFailures, failing, abspaths, relpaths, cloud1, st);
    CloudListingDistinct(glob, includes, excludes, st.objects);
    TransferLeavesNewer(env, headFailures, failing, abspaths, relpaths, cloud1, st);
    var st2 := first.state.(tally := ZERO_TALLY);
    OnlyRelpathsListed(glob, includes, excludes, relpaths, st.objects, st2.objects);
    TransferAllNewer(false, env, headFailures, failing, abspaths, relpaths,
                     MatchCloud(glob, includes, excludes, Listing(st2.objects)), st2);
  }

  /**
   * When every relpath is already stored with a later time and the listing
   * holds nothing but relpaths, the transfer skips everything and deletes
   * nothing.
   */
  lemma TransferAllNewer(testRun: bool, env: StaticEnv, headFailures: map<string, string>, failing: set<string>,
                         abspaths: seq<string>, relpaths: seq<string>, cloudObjs: seq<string>, st: SyncState)
    requires forall r :: r in relpaths ==>
      FindEnding(abspaths, r).Some? && r !in headFailures && r in st.objects &&
      env.fs(FindEnding(abspaths, r).value).mtime < st.objects[r].lastModified
    requires forall o :: o in cloudObjs ==> o in relpaths
    ensures Transfer(testRun, env, headFailures, failing, abspaths, relpaths, cloudObjs, st)
         == Progress(st.(tally := st.tally.(skip := st.tally.skip + |relpaths|,
                                            update := st.tally.upload - st.tally.create)), None)
  {
    AllNewerSkipsAll(testRun, env, headFailures, abspaths, st, relpaths);
    var up := UploadPass(testRun, env, headFailures, abspaths, st, relpaths);
    NothingExtraDeletesNothing(testRun, failing, up.state, relpaths, cloudObjs);
  }

  /**
   * After a successful real transfer over distinct relpaths (HEAD never
   * failing on the server, the clock past every local mtime) every relpath
   * is stored with a later time than its file, and every other object was
   * there before and was not in the filtered listing.
   */
  lemma TransferLeavesNewer(env: StaticEnv, headFailures: map<string, string>, failing: set<string>,
                            abspaths: seq<string>, relpaths: seq<string>, cloudObjs: seq<string>, st: SyncState)
    requires Distinct(relpaths) && Distinct(cloudObjs)
    requires forall r :: r in relpaths ==> r !in headFailures
    requires forall p :: p in abspaths ==> env.fs(p).mtime < env.now
    requires Transfer(false, env, headFailures, failing, abspaths, relpaths, cloudObjs, st).error.None?
    ensures var objs := Transfer(false, env, headFailures, failing, abspaths, relpaths, cloudObjs, st).state.objects;
      && (forall r :: r in relpaths ==>
            FindEnding(abspaths, r).Some? && r in objs &&
            env.fs(FindEnding(abspaths, r).value).mtime < objs[r].lastModified)
      && (forall o :: o in objs && o !in relpaths ==> o in st.objects && o !in cloudObjs)
  {
    var up := UploadPass(false, env, headFailures, abspaths, st, relpaths);
    UploadPassFrame(false, env, headFailures, abspaths, st, relpaths);
    NewerAfterUpload(env, headFailures, abspaths, st, relpaths);
    DeletePassEffect(false, failing, up.state, relpaths, cloudObjs);
  }

  // ---------------------------------------------------------------------------
  // The command object
  // ---------------------------------------------------------------------------

  /** `Command`: the options and counters are instance variables updated as the sync proceeds. */
  class Command {
    var wipe: bool
    var testRun: bool
    var quiet: bool
    var containerName: Option<string>
    var verbosity: int
    var staticRoot: string
    var staticUrl: string
    var includes: set<string>
    var excludes: set<string>
    var createCount: int
    var uploadCount: int
    var updateCount: int
    var skipCount: int
    var deleteCount: int
    /** The connection's view of the container. */
    var container: Container
    /** The object names of `self.container[1]`, the listing taken when connecting. */
    var listing: seq<string>

    constructor(container: Container)
      ensures this.container == container
      ensures Counters() == ZERO_TALLY && listing == []
    {
      this.container := container;
      wipe, testRun, quiet := false, false, false;
      containerName := None;
      verbosity := 1;
      staticRoot, staticUrl := "", "";
      includes, excludes := {}, {};
      createCount, uploadCount, updateCount, skipCount, deleteCount := 0, 0, 0, 0, 0;
      listing := [];
    }

    function Settings(): Config
      reads this`wipe, this`testRun, this`quiet, this`containerName, this`verbosity
      reads this`staticRoot, this`staticUrl, this`includes, this`excludes
    {
      Config(wipe, testRun, quiet, containerName, verbosity, staticRoot, staticUrl, includes, excludes)
    }

    function Counters(): Tally
      reads this`createCount, this`uploadCount, this`updateCount, this`skipCount, this`deleteCount
    {
      Tally(createCount, uploadCount, updateCount, skipCount, deleteCount)
    }

    function State(): SyncState
      reads this`createCount, this`uploadCount, this`updateCount, this`skipCount, this`deleteCount
      reads this`container, container`objects
    {
      SyncState(Counters(), container.objects)
    }

    /**
     * `set_options`: raises TypeError when a pattern setting is not a list,
     * with the command-line fields and the paths already assigned (and the
     * includes, when only EXCLUDE_LIST is bad); otherwise the fields hold
     * the configuration and the counters are zero.
     */
    method SetOptions(opts: Options, cfg: StaticSettings) returns (err: Option<Error>)
      modifies this`wipe, this`testRun, this`quiet, this`containerName, this`verbosity
      modifies this`staticRoot, this`staticUrl, this`includes, this`excludes
      modifies this`createCount, this`uploadCount, this`updateCount, this`skipCount, this`deleteCount
      ensures err.None? <==> ListSettings(cfg)
      ensures err.Some? ==> err == Some(TypeError)
      ensures staticRoot == WithTrailingSlash(cfg.staticRoot) && staticUrl == WithoutLeadingSlash(cfg.staticUrl)
      ensures cfg.includeList.VList? ==> includes == MergeSetting(opts.includes, cfg.includeList).value
      ensures err.None? ==> Settings() == Configured(opts, cfg) && Counters() == ZERO_TALLY
    {
      SetCommandLineOptions(opts, cfg.staticContainer);
      SetPaths(cfg);
      var merged := MergeSetting(opts.includes, cfg.includeList);
      if merged.Err? {
        return Some(merged.error);
      }
      includes := merged.value;
      merged := MergeSetting(opts.excludes, cfg.excludeList);
      if merged.Err? {
        return Some(merged.error);
      }
      excludes := merged.value;
      createCount, uploadCount, updateCount, skipCount, deleteCount := 0, 0, 0, 0, 0;
      err := None;
    }

    /** The command-line part of `set_options`; `--quiet` is stored as `test_run`. */
    method SetCommandLineOptions(opts: Options, staticContainer: Option<string>)
      modifies this`wipe, this`testRun, this`quiet, this`containerName, this`verbosity
      ensures wipe == opts.wipe && testRun == opts.testRun && quiet == opts.testRun
      ensures containerName == (if Truthy(opts.container) then opts.container else staticContainer)
      ensures verbosity == (if opts.testRun then 2 else opts.verbosity)
    {
      wipe, testRun, quiet := opts.wipe, opts.testRun, opts.testRun;
      containerName := opts.container;
      verbosity := opts.verbosity;
      if testRun {
        verbosity := 2;
      }
      if !Truthy(containerName) {
        containerName := staticContainer;
      }
    }

    /** STATIC_ROOT with a trailing "/", and STATIC_URL without a leading one. */
    method SetPaths(cfg: StaticSettings)
      modifies this`staticRoot, this`staticUrl
      ensures staticRoot == WithTrailingSlash(cfg.staticRoot) && staticRoot != []
      ensures staticUrl == WithoutLeadingSlash(cfg.staticUrl)
    {
      staticRoot, staticUrl := cfg.staticRoot, cfg.staticUrl;
      if !EndsWith(staticRoot, "/") {
        staticRoot := staticRoot + "/";
      }
      if StartsWith(staticUrl, "/") {
        staticUrl := staticUrl[1..];
      }
    }

    /** The part of `connect_container` that is modelled: `self.container` keeps the listing of that moment. */
    method ConnectContainer()
      modifies this`listing
      ensures listing == Listing(container.objects)
    {
      listing := container.ListNames();
    }

    /** `wipe_container`: a real run deletes every name of the listing taken when connecting. */
    method WipeContainer() returns (err: Option<Error>)
      modifies container`objects, container`deleteAttempts
      ensures Progress(State(), err) == WipePass(testRun, container.failing, old(State()), listing)
      ensures testRun ==> container.deleteAttempts == old(container.deleteAttempts)
    {
      if testRun {
        return None;
      }
      var i := 0;
      while i < |listing|
        invariant 0 <= i <= |listing|
        invariant Progress(State(), None) == WipeDeletes(container.failing, old(State()), listing[..i])
      {
        WipeDeletesSnoc(container.failing, old(State()), listing, i);
        err := container.DeleteObject(listing[i]);
        if err.Some? {
          WipeDeletesStops(container.failing, old(State()), listing, i + 1);
          return;
        }
        i := i + 1;
      }
      assert listing[..i] == listing;
      err := None;
    }

    /** `upload_file`: stores the object unless this is a test run, and counts it as created. */
    method UploadFile(env: StaticEnv, abspath: string, name: string)
      modifies this`createCount, container`objects
      ensures State() == UploadFileEffect(testRun, env, old(State()), abspath, name)
    {
      if !testRun {
        var mime := env.guessType(abspath);
        var contents := env.fs(abspath).data;
        var size := |contents|;
        var headers: map<string, string> := map[];
        if mime.Some? && mime.value in env.gzipTypes {
          headers := map["Content-Encoding" := "gzip"];
          contents := env.gzip(contents);
          size := |contents|;
        }
        container.Put(name, StoredObject(contents, mime, size, headers, None, env.now));
      }
      createCount := createCount + 1;
    }

    /** One iteration of `upload_files`: HEAD the relpath, then skip it, upload it or re-raise. */
    method UploadOne(env: StaticEnv, abspaths: seq<string>, relpath: string) returns (err: Option<Error>)
      modifies this`createCount, this`skipCount, container`objects
      ensures Progress(State(), err) == UploadStep(testRun, env, container.headFailures, abspaths, old(State()), relpath)
    {
      var found := FindEnding(abspaths, relpath);
      if found.None? {
        return Some(IndexError);
      }
      var abspath := found.value;
      var head := container.HeadObject(relpath);
      if head.HeadFailed? {
        if head.msg != HEAD_FAILED {
          return Some(ClientException(head.msg, head.httpStatus));
        }
        UploadFile(env, abspath, relpath);
        return None;
      }
      var cloudTime := head.lastModified;
      var localTime := env.fs(abspath).mtime;
      if cloudTime.Some? && localTime < cloudTime.value {
        skipCount := skipCount + 1;
        return None;
      }
      UploadFile(env, abspath, relpath);
      err := None;
    }

    /** `upload_files`: HEAD each relpath and upload the ones that are not skipped. */
    method UploadFiles(env: StaticEnv, abspaths: seq<string>, relpaths: seq<string>) returns (err: Option<Error>)
      modifies this`createCount, this`skipCount, container`objects
      ensures Progress(State(), err) == UploadPass(testRun, env, container.headFailures, abspaths, old(State()), relpaths)
    {
      var i := 0;
      while i < |relpaths|
        invariant 0 <= i <= |relpaths|
        invariant Progress(State(), None) == UploadPass(testRun, env, container.headFailures, abspaths, old(State()), relpaths[..i])
      {
        UploadPassSnoc(testRun, env, container.headFailures, abspaths, old(State()), relpaths, i);
        err := UploadOne(env, abspaths, relpaths[i]);
        if err.Some? {
          UploadPassStops(testRun, env, container.headFailures, abspaths, old(State()), relpaths, i + 1);
          return;
        }
        i := i + 1;
      }
      assert relpaths[..i] == relpaths;
      err := None;
    }

    /** `delete_extra_files`: delete and count each listed name that is not a local relpath. */
    method DeleteExtraFiles(relpaths: seq<string>, cloudObjs: seq<string>) returns (err: Option<Error>)
      modifies this`deleteCount, container`objects, container`deleteAttempts
      ensures Progress(State(), err) == DeletePass(testRun, container.failing, old(State()), relpaths, cloudObjs)
      ensures testRun ==> container.deleteAttempts == old(container.deleteAttempts)
    {
      var i := 0;
      while i < |cloudObjs|
        invariant 0 <= i <= |cloudObjs|
        invariant Progress(State(), None) == DeletePass(testRun, container.failing, old(State()), relpaths, cloudObjs[..i])
        invariant testRun ==> container.deleteAttempts == old(container.deleteAttempts)
      {
        var cloudObj := cloudObjs[i];
        assert cloudObjs[..i + 1][..i] == cloudObjs[..i];
        if cloudObj !in relpaths {
          if !testRun {
            err := container.DeleteObject(cloudObj);
            if err.Some? {
              DeletePassStops(testRun, container.failing, old(State()), relpaths, cloudObjs, i + 1);
              return;
            }
          }
          deleteCount := deleteCount + 1;
        }
        i := i + 1;
      }
      assert cloudObjs[..i] == cloudObjs;
      err := None;
    }

    /** `print_tally`: the reported update count is recomputed from the other counters. */
    method PrintTally()
      modifies this`updateCount
      ensures updateCount == uploadCount - createCount
    {
      updateCount := uploadCount - createCount;
    }

    /** The uploads, the deletions and the final tally of `handle_noargs`. */
    method TransferFiles(env: StaticEnv, abspaths: seq<string>, relpaths: seq<string>, cloudObjs: seq<string>)
      returns (err: Option<Error>)
      modifies this`createCount, this`uploadCount, this`updateCount, this`skipCount, this`deleteCount
      modifies container`objects, container`deleteAttempts
      ensures Progress(State(), err)
           == Transfer(testRun, env, container.headFailures, container.failing, abspaths, relpaths, cloudObjs, old(State()))
    {
      err := UploadFiles(env, abspaths, relpaths);
      if err.Some? {
        return;
      }
      err := DeleteExtraFiles(relpaths, cloudObjs);
      if err.Some? {
        return;
      }
      PrintTally();
    }

    /** The part of `handle_noargs` after connecting: the wipe, the checks and the transfer. */
    method Sync(env: StaticEnv, glob: GlobMatcher, tree: seq<Entry>) returns (err: Option<Error>)
      requires staticRoot != [] && listing == Listing(container.objects)
      modifies this`createCount, this`uploadCount, this`updateCount, this`skipCount, this`deleteCount
      modifies container`objects, container`deleteAttempts
      ensures Progress(State(), err)
           == SyncPass(old(Settings()), env, glob, tree, container.headFailures, container.failing, old(State()))
    {
      if wipe {
        err := WipeContainer();
        if err.Some? {
          return;
        }
      }
      var abspaths := LocalPaths(glob, staticRoot, includes, excludes, tree);
      var relpaths := Relpaths(abspaths, staticRoot);
      if relpaths == [] {
        return Some(CommandError(STATIC_ROOT_EMPTY));
      }
      var irregular := FirstIrregular(abspaths, env.fs);
      if irregular.Some? {
        return Some(CommandError("Unsupported filetype: " + irregular.value + "."));
      }
      var cloudObjs := MatchCloud(glob, includes, excludes, listing);
      err := TransferFiles(env, abspaths, relpaths, cloudObjs);
    }

    /**
     * `handle_noargs`: `set_options`, which raises TypeError before any
     * connection when a pattern setting is not a list; then the listing of
     * `connect_container` and one sync pass from zeroed counters. The tally
     * is printed in every configuration (see ConfiguredProperties).
     */
    method HandleNoArgs(opts: Options, cfg: StaticSettings, env: StaticEnv, glob: GlobMatcher, tree: seq<Entry>)
      returns (err: Option<Error>)
      modifies this`wipe, this`testRun, this`quiet, this`containerName, this`verbosity
      modifies this`staticRoot, this`staticUrl, this`includes, this`excludes
      modifies this`createCount, this`uploadCount, this`updateCount, this`skipCount, this`deleteCount
      modifies this`listing, container`objects, container`deleteAttempts
      ensures !ListSettings(cfg) ==> err == Some(TypeError) && container.objects == old(container.objects)
      ensures ListSettings(cfg) ==> listing == Listing(old(container.objects))
      ensures ListSettings(cfg) ==>
        Progress(State(), err) == SyncPass(Configured(opts, cfg), env, glob, tree, container.headFailures,
                                           container.failing, SyncState(ZERO_TALLY, old(container.objects)))
    {
      err := SetOptions(opts, cfg);
      if err.Some? {
        return;
      }
      ConnectContainer();
      ghost var configured := Settings();
      assert configured == Configured(opts, cfg);
      err := Sync(env, glob, tree);
    }
  }
}
