/**
 * The `syncfiles` management command (cumulus/management/commands/syncfiles.py):
 * a one-way sync of MEDIA_ROOT or STATIC_ROOT into a container. Local files
 * are matched with include/exclude globs, each one is skipped, updated or
 * created by comparing modification times, and filtered remote names with
 * no local counterpart are deleted.
 */
module SyncFiles {
  import opened Common
  import opened Globs
  import opened Backend
  import opened SyncCommon

  const MUTUALLY_EXCLUSIVE := "options --media and --static are mutually exclusive"
  const SELECT_ONE := "must select one of the required options, either --media or --static"

  /**
   * The parsed command line. `-t/--test-run` and `-q/--quiet` both store
   * into `test_run`, so there is no separate quiet option.
   */
  datatype Options = Options(
    wipe: bool,
    testRun: bool,
    container: Option<string>,
    verbosity: int,
    syncMedia: bool,
    syncStatic: bool,
    includes: seq<string>,
    excludes: seq<string>)

  /**
   * The settings the command reads: `CUMULUS` entries and the Django paths.
   * The roots are the values after `os.path.abspath`.
   */
  datatype SyncSettings = SyncSettings(
    container: Option<string>,
    staticContainer: Option<string>,
    includeList: SettingValue,
    excludeList: SettingValue,
    mediaRoot: string,
    mediaUrl: string,
    staticRoot: string,
    staticUrl: string)

  /** The instance variables that `set_options` assigns. */
  datatype Config = Config(
    wipe: bool,
    testRun: bool,
    quiet: bool,
    containerName: Option<string>,
    verbosity: int,
    syncMedia: bool,
    syncStatic: bool,
    fileRoot: string,
    fileUrl: string,
    includes: set<string>,
    excludes: set<string>)

  /** The exception `set_options` raises for the `--container`, `--media` and `--static` options, if any. */
  function OptionsError(container: Option<string>, syncMedia: bool, syncStatic: bool): (e: Option<Error>)
    ensures e.None? <==> syncMedia != syncStatic
  {
    if syncMedia && syncStatic then Some(CommandError(MUTUALLY_EXCLUSIVE))
    else if !Truthy(container) && !syncMedia && !syncStatic then Some(CommandError(SELECT_ONE))
    // with `--container` alone, `file_root` is read before it is ever assigned
    else if !syncMedia && !syncStatic then Some(AttributeError("file_root"))
    else None
  }

  /** `--container`, or else the container setting of the selected tree. */
  function ContainerChoice(container: Option<string>, syncMedia: bool, cfg: SyncSettings): Option<string>
  {
    if Truthy(container) then container
    else if syncMedia then cfg.container else cfg.staticContainer
  }

  /** INCLUDE_LIST and EXCLUDE_LIST are lists, so they can be added to the command-line patterns. */
  predicate ListSettings(cfg: SyncSettings)
  {
    cfg.includeList.VList? && cfg.excludeList.VList?
  }

  /**
   * The exception `set_options` raises, if any: first the flag checks, then
   * the merges of the pattern settings, where a setting that is not a list
   * (EXCLUDE_LIST whenever the project names FILTER_LIST, see
   * FilterListBreaksMerge) raises TypeError.
   */
  function SetOptionsError(opts: Options, cfg: SyncSettings): (e: Option<Error>)
    ensures e.None? <==> opts.syncMedia != opts.syncStatic && ListSettings(cfg)
    ensures OptionsError(opts.container, opts.syncMedia, opts.syncStatic).Some? ==>
      e == OptionsError(opts.container, opts.syncMedia, opts.syncStatic)
    ensures OptionsError(opts.container, opts.syncMedia, opts.syncStatic).None? && e.Some? ==> e == Some(TypeError)
  {
    var flags := OptionsError(opts.container, opts.syncMedia, opts.syncStatic);
    if flags.Some? then flags
    else if !ListSettings(cfg) then Some(TypeError)
    else None
  }

  /** The instance variables `set_options` assigns when it does not raise. */
  function Configured(opts: Options, cfg: SyncSettings): (c: Config)
    requires opts.syncMedia != opts.syncStatic && ListSettings(cfg)
    ensures c.fileRoot != []
  {
    TrailingSlashAdded(if opts.syncMedia then cfg.mediaRoot else cfg.staticRoot);
    Config(opts.wipe, opts.testRun, opts.testRun, ContainerChoice(opts.container, opts.syncMedia, cfg),
           if opts.testRun then 2 else opts.verbosity,
           opts.syncMedia, opts.syncStatic,
           WithTrailingSlash(if opts.syncMedia then cfg.mediaRoot else cfg.staticRoot),
           WithoutLeadingSlash(if opts.syncMedia then cfg.mediaUrl else cfg.staticUrl),
           MergeSetting(opts.includes, cfg.includeList).value,
           MergeSetting(opts.excludes, cfg.excludeList).value)
  }

  /**
   * Media selects CONTAINER and static selects STATIC_CONTAINER unless
   * `--container` is given; a test run forces verbosity 2; the root gains a
   * trailing "/", the URL loses one leading "/", and the patterns are the
   * union of the command line and the settings.
   */
  lemma ConfiguredProperties(opts: Options, cfg: SyncSettings)
    requires opts.syncMedia != opts.syncStatic && ListSettings(cfg)
    ensures var c := Configured(opts, cfg);
            var root := if opts.syncMedia then cfg.mediaRoot else cfg.staticRoot;
            var url := if opts.syncMedia then cfg.mediaUrl else cfg.staticUrl;
      && c.containerName == (if Truthy(opts.container) then opts.container
                             else if opts.syncMedia then cfg.container else cfg.staticContainer)
      && c.testRun == opts.testRun && c.quiet == opts.testRun
      && c.verbosity == (if opts.testRun then 2 else opts.verbosity)
      && c.wipe == opts.wipe && c.syncMedia == opts.syncMedia && c.syncStatic == opts.syncStatic
      && EndsWith(c.fileRoot, "/") && StartsWith(c.fileRoot, root) && |c.fileRoot| <= |root| + 1
      && (StartsWith(url, "/") ==> url == "/" + c.fileUrl)
      && (!StartsWith(url, "/") ==> c.fileUrl == url)
      && (forall g :: g in c.includes <==> g in opts.includes || g in cfg.includeList.items)
      && (forall g :: g in c.excludes <==> g in opts.excludes || g in cfg.excludeList.items)
  {
    TrailingSlashAdded(if opts.syncMedia then cfg.mediaRoot else cfg.staticRoot);
    LeadingSlashRemoved(if opts.syncMedia then cfg.mediaUrl else cfg.staticUrl);
  }

  /**
   * `quiet` is always `test_run`, and a test run sets verbosity 2, so the
   * condition guarding `print_tally` holds for every configuration.
   */
  lemma TallyAlwaysPrinted(opts: Options, cfg: SyncSettings)
    requires opts.syncMedia != opts.syncStatic && ListSettings(cfg)
    ensures var c := Configured(opts, cfg); !c.quiet || c.verbosity > 1
  {
  }

  // ---------------------------------------------------------------------------
  // upload_files / upload_file
  // ---------------------------------------------------------------------------

  datatype Decision = Skip | Update | Create

  /** The helpers upload_file calls, the service clock, and `CUMULUS.get("FILE_TTL")`. */
  datatype UploadEnv = UploadEnv(
    fs: FileSystem,
    contentType: (string, seq<bv8>) -> string,             // get_content_type(name, content)
    headers: (string, string) -> map<string, string>,     // get_headers(name, content_type)
    gzip: seq<bv8> -> seq<bv8>,                            // get_gzipped_contents
    fileTtl: Option<int>,
    now: int)

  /** `[p for p in abspaths if p[len(file_root):] == relpath][0]`; None where that list is empty. */
  function FindAbspath(fileRoot: string, abspaths: seq<string>, relpath: string): (r: Option<string>)
    ensures r.Some? ==> r.value in abspaths && Drop(r.value, |fileRoot|) == relpath
    ensures r.None? <==> forall p :: p in abspaths ==> Drop(p, |fileRoot|) != relpath
    decreases |abspaths|
  {
    if abspaths == [] then None
    else if Drop(abspaths[0], |fileRoot|) == relpath then Some(abspaths[0])
    else FindAbspath(fileRoot, abspaths[1..], relpath)
  }

  /** Skip when the remote copy is strictly newer, otherwise update an existing object or create one. */
  function Classify(remote: map<string, int>, relpath: string, localMtime: int): (d: Decision)
    ensures d == Skip <==> relpath in remote && localMtime < remote[relpath]
    ensures d == Update <==> relpath in remote && !(localMtime < remote[relpath])
    ensures d == Create <==> relpath !in remote
  {
    if relpath in remote && localMtime < remote[relpath] then Skip
    else if relpath in remote then Update
    else Create
  }

  /** The decision for one relpath, or None when no matched path has it (IndexError). */
  function Decide(fileRoot: string, env: UploadEnv, abspaths: seq<string>, remote: map<string, int>,
                  relpath: string): (r: Option<Decision>)
    ensures r.None? <==> FindAbspath(fileRoot, abspaths, relpath).None?
  {
    match FindAbspath(fileRoot, abspaths, relpath)
    case None => None
    case Some(p) => Some(Classify(remote, relpath, env.fs(p).mtime))
  }

  predicate GzipHeader(headers: map<string, string>)
  {
    "Content-Encoding" in headers && headers["Content-Encoding"] == "gzip"
  }

  /** The object `container.create` stores for one upload. */
  function UploadedObject(env: UploadEnv, abspath: string, name: string): (o: StoredObject)
    requires env.fileTtl.Some?
    ensures var local := env.fs(abspath).data;
            var contentType := env.contentType(name, local);
            var headers := env.headers(name, contentType);
      && o.contentType == Some(contentType) && o.headers == headers
      && (GzipHeader(headers) ==> o.data == env.gzip(local) && o.contentLength == |env.gzip(local)|)
      && (!GzipHeader(headers) ==> o.data == local && o.contentLength == |local|)
      && o.ttl == env.fileTtl && o.lastModified == env.now
  {
    var local := env.fs(abspath).data;
    var contentType := env.contentType(name, local);
    var headers := env.headers(name, contentType);
    var body := if GzipHeader(headers) then env.gzip(local) else local;
    StoredObject(body, Some(contentType), |body|, headers, env.fileTtl, env.now)
  }

  /** `upload_file`: a real run stores the object (FILE_TTL must be set); both count the upload. */
  function UploadFileEffect(testRun: bool, env: UploadEnv, st: SyncState, abspath: string, name: string): Progress
  {
    if testRun then Progress(st.(tally := st.tally.(upload := st.tally.upload + 1)), None)
    else if env.fileTtl.None? then Progress(st, Some(KeyError("FILE_TTL")))
    else Progress(SyncState(st.tally.(upload := st.tally.upload + 1),
                            st.objects[name := UploadedObject(env, abspath, name)]), None)
  }

  /** One iteration of `upload_files`. */
  function UploadStep(testRun: bool, fileRoot: string, env: UploadEnv, abspaths: seq<string>,
                      remote: map<string, int>, st: SyncState, relpath: string): Progress
  {
    match FindAbspath(fileRoot, abspaths, relpath)
    case None => Progress(st, Some(IndexError))
    case Some(abspath) =>
      var t := st.tally;
      match Classify(remote, relpath, env.fs(abspath).mtime)
      case Skip => Progress(st.(tally := t.(skip := t.skip + 1)), None)
      case Update => UploadFileEffect(testRun, env, st.(tally := t.(update := t.update + 1)), abspath, relpath)
      case Create => UploadFileEffect(testRun, env, st.(tally := t.(create := t.create + 1)), abspath, relpath)
  }

  /** `upload_files(abspaths, relpaths, remote_objects)`, stopping at the first exception. */
  function UploadPass(testRun: bool, fileRoot: string, env: UploadEnv, abspaths: seq<string>,
                      remote: map<string, int>, st: SyncState, relpaths: seq<string>): Progress
    decreases |relpaths|
  {
    if relpaths == [] then Progress(st, None)
    else
      var pr := UploadPass(testRun, fileRoot, env, abspaths, remote, st, relpaths[..|relpaths| - 1]);
      if pr.error.Some? then pr else UploadStep(testRun, fileRoot, env, abspaths, remote, pr.state, Last(relpaths))
  }

  /** What one iteration of `upload_files` does to the counters and the objects. */
  lemma UploadStepEffect(testRun: bool, fileRoot: string, env: UploadEnv, abspaths: seq<string>,
                         remote: map<string, int>, st: SyncState, relpath: string)
    ensures var pr := UploadStep(testRun, fileRoot, env, abspaths, remote, st, relpath);
            var d := Decide(fileRoot, env, abspaths, remote, relpath);
            var up := Uploaded(fileRoot, env, abspaths, remote, relpath);
      && (pr.error.None? <==> d.Some? && (testRun || env.fileTtl.Some? || !up))
      && (pr.error.None? ==>
           pr.state.tally == Tally(st.tally.create + (if d == Some(Create) then 1 else 0),
                                   st.tally.upload + (if up then 1 else 0),
                                   st.tally.update + (if d == Some(Update) then 1 else 0),
                                   st.tally.skip + (if d == Some(Skip) then 1 else 0),
                                   st.tally.delete))
      && (pr.error.None? && (testRun || !up) ==> pr.state.objects == st.objects)
      && (pr.error.None? && !testRun && up ==>
           env.fileTtl.Some? &&
           pr.state.objects == st.objects[relpath := UploadedObject(env, FindAbspath(fileRoot, abspaths, relpath).value, relpath)])
  {
  }

  /** A found relpath that is not skipped is counted as an update or a create, then uploaded. */
  lemma UploadStepUploads(testRun: bool, fileRoot: string, env: UploadEnv, abspaths: seq<string>,
                          remote: map<string, int>, st: SyncState, relpath: string, abspath: string)
    requires FindAbspath(fileRoot, abspaths, relpath) == Some(abspath)
    requires relpath in remote ==> !(env.fs(abspath).mtime < remote[relpath])
    ensures UploadStep(testRun, fileRoot, env, abspaths, remote, st, relpath)
         == UploadFileEffect(testRun, env, Counted(st, relpath in remote), abspath, relpath)
  {
    assert Classify(remote, relpath, env.fs(abspath).mtime) == if relpath in remote then Update else Create;
  }

  /** The state after counting an update (`existing`) or a create. */
  function Counted(st: SyncState, existing: bool): (r: SyncState)
    ensures r.objects == st.objects
  {
    var t := st.tally;
    if existing then st.(tally := t.(update := t.update + 1)) else st.(tally := t.(create := t.create + 1))
  }

  /** How many relpaths get decision `d`. */
  function Count(fileRoot: string, env: UploadEnv, abspaths: seq<string>, remote: map<string, int>,
                 relpaths: seq<string>, d: Decision): nat
    decreases |relpaths|
  {
    if relpaths == [] then 0
    else Count(fileRoot, env, abspaths, remote, relpaths[..|relpaths| - 1], d)
         + (if Decide(fileRoot, env, abspaths, remote, Last(relpaths)) == Some(d) then 1 else 0)
  }

  /** The relpath is uploaded (created or updated) rather than skipped. */
  predicate Uploaded(fileRoot: string, env: UploadEnv, abspaths: seq<string>, remote: map<string, int>, relpath: string)
  {
    var d := Decide(fileRoot, env, abspaths, remote, relpath);
    d == Some(Update) || d == Some(Create)
  }

  /** Each relpath is classified exactly once: the three counts add up to the number of relpaths. */
  lemma {:induction false} DecisionsPartition(fileRoot: string, env: UploadEnv, abspaths: seq<string>,
                                              remote: map<string, int>, relpaths: seq<string>)
    requires forall r :: r in relpaths ==> Decide(fileRoot, env, abspaths, remote, r).Some?
    ensures Count(fileRoot, env, abspaths, remote, relpaths, Skip)
          + Count(fileRoot, env, abspaths, remote, relpaths, Update)
          + Count(fileRoot, env, abspaths, remote, relpaths, Create) == |relpaths|
    decreases |relpaths|
  {
    if relpaths != [] {
      var init := relpaths[..|relpaths| - 1];
      assert forall r :: r in init ==> r in relpaths;
      DecisionsPartition(fileRoot, env, abspaths, remote, init);
      assert Last(relpaths) in relpaths;
    }
  }

  /**
   * `upload_files` succeeds exactly when every relpath has a matching path
   * and, in a real run, FILE_TTL is configured or nothing needs uploading.
   */
  lemma {:induction false} UploadPassSucceeds(testRun: bool, fileRoot: string, env: UploadEnv, abspaths: seq<string>,
                                              remote: map<string, int>, st: SyncState, relpaths: seq<string>)
    ensures UploadPass(testRun, fileRoot, env, abspaths, remote, st, relpaths).error.None? <==>
      forall r :: r in relpaths ==>
        Decide(fileRoot, env, abspaths, remote, r).Some? &&
        (testRun || env.fileTtl.Some? || !Uploaded(fileRoot, env, abspaths, remote, r))
    decreases |relpaths|
  {
    if relpaths != [] {
      var init := relpaths[..|relpaths| - 1];
      var x := Last(relpaths);
      InitLast(relpaths);
      UploadPassSucceeds(testRun, fileRoot, env, abspaths, remote, st, init);
      var pr := UploadPass(testRun, fileRoot, env, abspaths, remote, st, init);
      if pr.error.None? {
        UploadStepEffect(testRun, fileRoot, env, abspaths, remote, pr.state, x);
      }
    }
  }

  /**
   * On success the counters grow by the number of each decision, and
   * `upload_count` by the number of creates and updates.
   */
  lemma {:induction false} UploadPassTally(testRun: bool, fileRoot: string, env: UploadEnv, abspaths: seq<string>,
                                           remote: map<string, int>, st: SyncState, relpaths: seq<string>)
    requires UploadPass(testRun, fileRoot, env, abspaths, remote, st, relpaths).error.None?
    ensures
      var skips := Count(fileRoot, env, abspaths, remote, relpaths, Skip);
      var updates := Count(fileRoot, env, abspaths, remote, relpaths, Update);
      var creates := Count(fileRoot, env, abspaths, remote, relpaths, Create);
      UploadPass(testRun, fileRoot, env, abspaths, remote, st, relpaths).state.tally
        == Tally(st.tally.create + creates, st.tally.upload + creates + updates,
                 st.tally.update + updates, st.tally.skip + skips, st.tally.delete)
    decreases |relpaths|
  {
    if relpaths != [] {
      var init := relpaths[..|relpaths| - 1];
      var pr := UploadPass(testRun, fileRoot, env, abspaths, remote, st, init);
      var x := Last(relpaths);
      assert pr.error.None?;
      assert UploadPass(testRun, fileRoot, env, abspaths, remote, st, relpaths)
          == UploadStep(testRun, fileRoot, env, abspaths, remote, pr.state, x);
      UploadPassTally(testRun, fileRoot, env, abspaths, remote, st, init);
      UploadStepEffect(testRun, fileRoot, env, abspaths, remote, pr.state, x);
      var d := Decide(fileRoot, env, abspaths, remote, x);
      assert Count(fileRoot, env, abspaths, remote, relpaths, Skip)
          == Count(fileRoot, env, abspaths, remote, init, Skip) + (if d == Some(Skip) then 1 else 0);
      assert Count(fileRoot, env, abspaths, remote, relpaths, Update)
          == Count(fileRoot, env, abspaths, remote, init, Update) + (if d == Some(Update) then 1 else 0);
      assert Count(fileRoot, env, abspaths, remote, relpaths, Create)
          == Count(fileRoot, env, abspaths, remote, init, Create) + (if d == Some(Create) then 1 else 0);
    }
  }

  /** What one successful real iteration leaves under one name. */
  lemma UploadStepObjectAt(fileRoot: string, env: UploadEnv, abspaths: seq<string>,
                           remote: map<string, int>, st: SyncState, x: string, n: string)
    requires UploadStep(false, fileRoot, env, abspaths, remote, st, x).error.None?
    ensures var objs := UploadStep(false, fileRoot, env, abspaths, remote, st, x).state.objects;
            var up := n == x && Uploaded(fileRoot, env, abspaths, remote, x);
      && (n in objs <==> n in st.objects || up)
      && (up ==> env.fileTtl.Some? && objs[n] == UploadedObject(env, FindAbspath(fileRoot, abspaths, n).value, n))
      && (!up && n in st.objects ==> objs[n] == st.objects[n])
  {
    UploadStepEffect(false, fileRoot, env, abspaths, remote, st, x);
  }

  /** What a successful real run leaves under one name. */
  lemma {:induction false} UploadPassObjectAt(fileRoot: string, env: UploadEnv, abspaths: seq<string>,
                                              remote: map<string, int>, st: SyncState, relpaths: seq<string>, n: string)
    requires UploadPass(false, fileRoot, env, abspaths, remote, st, relpaths).error.None?
    ensures var objs := UploadPass(false, fileRoot, env, abspaths, remote, st, relpaths).state.objects;
            var up := n in relpaths && Uploaded(fileRoot, env, abspaths, remote, n);
      && (n in objs <==> n in st.objects || up)
      && (up ==> env.fileTtl.Some? && objs[n] == UploadedObject(env, FindAbspath(fileRoot, abspaths, n).value, n))
      && (!up && n in st.objects ==> objs[n] == st.objects[n])
    decreases |relpaths|
  {
    if relpaths != [] {
      var init := relpaths[..|relpaths| - 1];
      var x := Last(relpaths);
      InitLast(relpaths);
      var pr := UploadPass(false, fileRoot, env, abspaths, remote, st, init);
      assert pr.error.None?;
      UploadPassObjectAt(fileRoot, env, abspaths, remote, st, init, n);
      UploadStepObjectAt(fileRoot, env, abspaths, remote, pr.state, x, n);
    }
  }

  /**
   * After a successful real run, the objects are the old ones with every
   * uploaded relpath replaced by its new object.
   */
  lemma UploadPassObjects(fileRoot: string, env: UploadEnv, abspaths: seq<string>,
                          remote: map<string, int>, st: SyncState, relpaths: seq<string>)
    requires UploadPass(false, fileRoot, env, abspaths, remote, st, relpaths).error.None?
    ensures var objs := UploadPass(false, fileRoot, env, abspaths, remote, st, relpaths).state.objects;
      && (forall n :: n in objs <==> n in st.objects || (n in relpaths && Uploaded(fileRoot, env, abspaths, remote, n)))
      && (forall n :: n in relpaths && Uploaded(fileRoot, env, abspaths, remote, n) ==>
            env.fileTtl.Some? &&
            objs[n] == UploadedObject(env, FindAbspath(fileRoot, abspaths, n).value, n))
      && (forall n :: n in st.objects && !(n in relpaths && Uploaded(fileRoot, env, abspaths, remote, n)) ==>
            objs[n] == st.objects[n])
  {
    forall n {
      UploadPassObjectAt(fileRoot, env, abspaths, remote, st, relpaths, n);
    }
  }

  /** A test run makes the same decisions and counts as a successful real run, and stores nothing. */
  lemma {:induction false} DryRunCountsLikeRealRun(fileRoot: string, env: UploadEnv, abspaths: seq<string>,
                                                   remote: map<string, int>, st: SyncState, relpaths: seq<string>)
    requires UploadPass(false, fileRoot, env, abspaths, remote, st, relpaths).error.None?
    ensures var realRun := UploadPass(false, fileRoot, env, abspaths, remote, st, relpaths);
            var dryRun := UploadPass(true, fileRoot, env, abspaths, remote, st, relpaths);
      dryRun == Progress(SyncState(realRun.state.tally, st.objects), None)
    decreases |relpaths|
  {
    if relpaths != [] {
      var init := relpaths[..|relpaths| - 1];
      var x := Last(relpaths);
      var realInit := UploadPass(false, fileRoot, env, abspaths, remote, st, init);
      var dryInit := UploadPass(true, fileRoot, env, abspaths, remote, st, init);
      assert realInit.error.None?;
      DryRunCountsLikeRealRun(fileRoot, env, abspaths, remote, st, init);
      assert UploadPass(false, fileRoot, env, abspaths, remote, st, relpaths)
          == UploadStep(false, fileRoot, env, abspaths, remote, realInit.state, x);
      assert UploadPass(true, fileRoot, env, abspaths, remote, st, relpaths)
          == UploadStep(true, fileRoot, env, abspaths, remote, dryInit.state, x);
      UploadStepDryRun(fileRoot, env, abspaths, remote, realInit.state, st.objects, x);
    }
  }

  /** One test-run iteration counts like a successful real one and stores nothing. */
  lemma UploadStepDryRun(fileRoot: string, env: UploadEnv, abspaths: seq<string>,
                         remote: map<string, int>, st: SyncState, objects: map<string, StoredObject>, x: string)
    requires UploadStep(false, fileRoot, env, abspaths, remote, st, x).error.None?
    ensures UploadStep(true, fileRoot, env, abspaths, remote, SyncState(st.tally, objects), x)
         == Progress(SyncState(UploadStep(false, fileRoot, env, abspaths, remote, st, x).state.tally, objects), None)
  {
    var dry := SyncState(st.tally, objects);
    match FindAbspath(fileRoot, abspaths, x)
    case Some(abspath) =>
      var t := st.tally;
      match Classify(remote, x, env.fs(abspath).mtime)
      case Skip =>
      case Update =>
        assert UploadFileEffect(true, env, dry.(tally := t.(update := t.update + 1)), abspath, x).state.tally
            == UploadFileEffect(false, env, st.(tally := t.(update := t.update + 1)), abspath, x).state.tally;
      case Create =>
        assert UploadFileEffect(true, env, dry.(tally := t.(create := t.create + 1)), abspath, x).state.tally
            == UploadFileEffect(false, env, st.(tally := t.(create := t.create + 1)), abspath, x).state.tally;
  }

  /** The pass over one more relpath is one more step, while no exception has been raised. */
  lemma UploadPassSnoc(testRun: bool, fileRoot: string, env: UploadEnv, abspaths: seq<string>,
                       remote: map<string, int>, st: SyncState, relpaths: seq<string>, i: nat)
    requires i < |relpaths|
    requires UploadPass(testRun, fileRoot, env, abspaths, remote, st, relpaths[..i]).error.None?
    ensures UploadPass(testRun, fileRoot, env, abspaths, remote, st, relpaths[..i + 1])
         == UploadStep(testRun, fileRoot, env, abspaths, remote,
                       UploadPass(testRun, fileRoot, env, abspaths, remote, st, relpaths[..i]).state, relpaths[i])
  {
    assert relpaths[..i + 1][..i] == relpaths[..i];
  }

  /** Once `upload_files` has raised, the remaining relpaths are never looked at. */
  lemma {:induction false} UploadPassStops(testRun: bool, fileRoot: string, env: UploadEnv, abspaths: seq<string>,
                                           remote: map<string, int>, st: SyncState, relpaths: seq<string>, k: nat)
    requires k <= |relpaths|
    requires UploadPass(testRun, fileRoot, env, abspaths, remote, st, relpaths[..k]).error.Some?
    ensures UploadPass(testRun, fileRoot, env, abspaths, remote, st, relpaths)
         == UploadPass(testRun, fileRoot, env, abspaths, remote, st, relpaths[..k])
    decreases |relpaths| - k
  {
    if k < |relpaths| {
      assert relpaths[..|relpaths| - 1][..k] == relpaths[..k];
      UploadPassStops(testRun, fileRoot, env, abspaths, remote, st, relpaths[..|relpaths| - 1], k);
    } else {
      assert relpaths[..k] == relpaths;
    }
  }

  /**
   * After a successful real run that compared against the container's own
   * times, every relpath is stored remotely with a time later than its local
   * mtime, provided the service clock is past every local mtime.
   */
  lemma NewerAfterUpload(fileRoot: string, env: UploadEnv, abspaths: seq<string>, st: SyncState, relpaths: seq<string>)
    requires UploadPass(false, fileRoot, env, abspaths, LastModified(st.objects), st, relpaths).error.None?
    requires forall p :: p in abspaths ==> env.fs(p).mtime < env.now
    ensures var objs := UploadPass(false, fileRoot, env, abspaths, LastModified(st.objects), st, relpaths).state.objects;
      forall r :: r in relpaths ==>
        FindAbspath(fileRoot, abspaths, r).Some? && r in objs &&
        env.fs(FindAbspath(fileRoot, abspaths, r).value).mtime < objs[r].lastModified
  {
    var remote := LastModified(st.objects);
    UploadPassSucceeds(false, fileRoot, env, abspaths, remote, st, relpaths);
    UploadPassObjects(fileRoot, env, abspaths, remote, st, relpaths);
  }

  /** When every relpath is already newer remotely, `upload_files` skips them all and stores nothing. */
  lemma {:induction false} AllNewerSkipsAll(testRun: bool, fileRoot: string, env: UploadEnv, abspaths: seq<string>,
                                            remote: map<string, int>, st: SyncState, relpaths: seq<string>)
    requires forall r :: r in relpaths ==>
      FindAbspath(fileRoot, abspaths, r).Some? && r in remote &&
      env.fs(FindAbspath(fileRoot, abspaths, r).value).mtime < remote[r]
    ensures UploadPass(testRun, fileRoot, env, abspaths, remote, st, relpaths)
         == Progress(st.(tally := st.tally.(skip := st.tally.skip + |relpaths|)), None)
    decreases |relpaths|
  {
    if relpaths != [] {
      var init := relpaths[..|relpaths| - 1];
      assert forall r :: r in init ==> r in relpaths;
      assert Last(relpaths) in relpaths;
      AllNewerSkipsAll(testRun, fileRoot, env, abspaths, remote, st, init);
    }
  }

  // ---------------------------------------------------------------------------
  // handle_noargs after set_options
  // ---------------------------------------------------------------------------

  function EmptyRootMessage(syncMedia: bool): string
  {
    "The " + (if syncMedia then "MEDIA" else "STATIC") + "_ROOT directory is empty or all files have been ignored."
  }

  /**
   * `upload_files`, `delete_extra_files` and `print_tally`'s
   * `update_count = upload_count - create_count`, stopping at the first
   * exception.
   */
  function Transfer(testRun: bool, fileRoot: string, env: UploadEnv, abspaths: seq<string>, relpaths: seq<string>,
                    cloudObjs: seq<string>, failing: set<string>, st: SyncState): Progress
  {
    var up := UploadPass(testRun, fileRoot, env, abspaths, LastModified(st.objects), st, relpaths);
    if up.error.Some? then up
    else
      var del := DeletePass(testRun, failing, up.state, relpaths, cloudObjs);
      if del.error.Some? then del
      else Progress(del.state.(tally := del.state.tally.(update := del.state.tally.upload - del.state.tally.create)), None)
  }

  /**
   * One whole sync pass for a configuration: wipe check, local matching,
   * the relpath and file-type checks, then the transfer against the
   * container's filtered listing.
   */
  ghost function SyncPass(c: Config, env: UploadEnv, glob: GlobMatcher, tree: seq<Entry>,
                          failing: set<string>, st: SyncState): Progress
    requires c.fileRoot != []
  {
    if c.wipe then Progress(st, Some(TypeError))
    else
      var abspaths := LocalPaths(glob, c.fileRoot, c.includes, c.excludes, tree);
      var relpaths := Relpaths(abspaths, c.fileRoot);
      if relpaths == [] then Progress(st, Some(CommandError(EmptyRootMessage(c.syncMedia))))
      else match FirstIrregular(abspaths, env.fs)
      case Some(p) => Progress(st, Some(CommandError("Unsupported filetype: " + p + ".")))
      case None =>
        var cloudObjs := MatchCloud(glob, c.includes, c.excludes, Listing(st.objects));
        Transfer(c.testRun, c.fileRoot, env, abspaths, relpaths, cloudObjs, failing, st)
  }

  /** A test run of the transfer counts like a successful real run and leaves the objects alone. */
  lemma DryRunTransferMatches(fileRoot: string, env: UploadEnv, abspaths: seq<string>, relpaths: seq<string>,
                              cloudObjs: seq<string>, failing: set<string>, st: SyncState)
    requires Distinct(cloudObjs)
    requires Transfer(false, fileRoot, env, abspaths, relpaths, cloudObjs, failing, st).error.None?
    ensures var realRun := Transfer(false, fileRoot, env, abspaths, relpaths, cloudObjs, failing, st);
            var dryRun := Transfer(true, fileRoot, env, abspaths, relpaths, cloudObjs, failing, st);
      dryRun == Progress(SyncState(realRun.state.tally, st.objects), None)
  {
    var remote := LastModified(st.objects);
    DryRunCountsLikeRealRun(fileRoot, env, abspaths, remote, st, relpaths);
    var up := UploadPass(false, fileRoot, env, abspaths, remote, st, relpaths);
    var upDry := UploadPass(true, fileRoot, env, abspaths, remote, st, relpaths);
    DeletePassEffect(false, failing, up.state, relpaths, cloudObjs);
    DeletePassEffect(true, failing, upDry.state, relpaths, cloudObjs);
  }

  /**
   * After a successful real transfer (with the service clock past every
   * local mtime) every relpath is stored with a later time than its file,
   * and every other object was there before and was not in the listing.
   */
  lemma TransferLeavesNewer(fileRoot: string, env: UploadEnv, abspaths: seq<string>, relpaths: seq<string>,
                            cloudObjs: seq<string>, failing: set<string>, st: SyncState)
    requires Distinct(cloudObjs)
    requires Transfer(false, fileRoot, env, abspaths, relpaths, cloudObjs, failing, st).error.None?
    requires forall p :: p in abspaths ==> env.fs(p).mtime < env.now
    ensures var objs := Transfer(false, fileRoot, env, abspaths, relpaths, cloudObjs, failing, st).state.objects;
      && (forall r :: r in relpaths ==>
            FindAbspath(fileRoot, abspaths, r).Some? && r in objs &&
            env.fs(FindAbspath(fileRoot, abspaths, r).value).mtime < objs[r].lastModified)
      && (forall o :: o in objs && o !in relpaths ==> o in st.objects && o !in cloudObjs)
  {
    var remote := LastModified(st.objects);
    var up := UploadPass(false, fileRoot, env, abspaths, remote, st, relpaths);
    UploadPassObjects(fileRoot, env, abspaths, remote, st, relpaths);
    NewerAfterUpload(fileRoot, env, abspaths, st, relpaths);
    DeletePassEffect(false, failing, up.state, relpaths, cloudObjs);
  }

  /**
   * When every relpath is already stored with a later time and the listing
   * holds nothing but relpaths, the transfer skips everything and deletes
   * nothing.
   */
  lemma TransferAllNewer(testRun: bool, fileRoot: string, env: UploadEnv, abspaths: seq<string>, relpaths: seq<string>,
                         cloudObjs: seq<string>, failing: set<string>, st: SyncState)
    requires forall r :: r in relpaths ==>
      FindAbspath(fileRoot, abspaths, r).Some? && r in st.objects &&
      env.fs(FindAbspath(fileRoot, abspaths, r).value).mtime < st.objects[r].lastModified
    requires forall o :: o in cloudObjs ==> o in relpaths
    ensures Transfer(testRun, fileRoot, env, abspaths, relpaths, cloudObjs, failing, st)
         == Progress(st.(tally := st.tally.(skip := st.tally.skip + |relpaths|,
                                            update := st.tally.upload - st.tally.create)), None)
  {
    var remote := LastModified(st.objects);
    AllNewerSkipsAll(testRun, fileRoot, env, abspaths, remote, st, relpaths);
    var up := UploadPass(testRun, fileRoot, env, abspaths, remote, st, relpaths);
    NothingExtraDeletesNothing(testRun, failing, up.state, relpaths, cloudObjs);
  }

  /** The checks before the transfer depend only on the configuration and the tree. */
  predicate ReachesTransfer(c: Config, env: UploadEnv, glob: GlobMatcher, tree: seq<Entry>)
    requires c.fileRoot != []
  {
    var abspaths := LocalPaths(glob, c.fileRoot, c.includes, c.excludes, tree);
    !c.wipe && Relpaths(abspaths, c.fileRoot) != [] && FirstIrregular(abspaths, env.fs).None?
  }

  /** A pass that gets past its checks is the transfer against the filtered listing; one that does not raises. */
  lemma SyncPassTransfers(c: Config, env: UploadEnv, glob: GlobMatcher, tree: seq<Entry>,
                          failing: set<string>, st: SyncState)
    requires c.fileRoot != []
    ensures !ReachesTransfer(c, env, glob, tree) ==>
      var pr := SyncPass(c, env, glob, tree, failing, st);
      pr.error.Some? && pr.state == st
    ensures ReachesTransfer(c, env, glob, tree) ==>
      var abspaths := LocalPaths(glob, c.fileRoot, c.includes, c.excludes, tree);
      SyncPass(c, env, glob, tree, failing, st)
        == Transfer(c.testRun, c.fileRoot, env, abspaths, Relpaths(abspaths, c.fileRoot),
                    MatchCloud(glob, c.includes, c.excludes, Listing(st.objects)), failing, st)
  {
  }

  /**
   * A test run of a pass reports the same tally as a successful real run and
   * leaves the container untouched.
   */
  lemma DryRunSyncMatchesRealSync(c: Config, env: UploadEnv, glob: GlobMatcher, tree: seq<Entry>,
                                  failing: set<string>, st: SyncState)
    requires c.fileRoot != [] && !c.testRun
    requires SyncPass(c, env, glob, tree, failing, st).error.None?
    ensures var realRun := SyncPass(c, env, glob, tree, failing, st);
            var dryRun := SyncPass(c.(testRun := true), env, glob, tree, failing, st);
      dryRun == Progress(SyncState(realRun.state.tally, st.objects), None)
  {
    var abspaths := LocalPaths(glob, c.fileRoot, c.includes, c.excludes, tree);
    SyncPassTransfers(c, env, glob, tree, failing, st);
    SyncPassTransfers(c.(testRun := true), env, glob, tree, failing, st);
    CloudListingDistinct(glob, c.includes, c.excludes, st.objects);
    DryRunTransferMatches(c.fileRoot, env, abspaths, Relpaths(abspaths, c.fileRoot),
                          MatchCloud(glob, c.includes, c.excludes, Listing(st.objects)), failing, st);
  }

  /**
   * After a successful real pass, every relpath is stored newer than its
   * file and the filtered listing names nothing but relpaths.
   */
  lemma FirstSyncLeavesNewer(c: Config, env: UploadEnv, glob: GlobMatcher, tree: seq<Entry>,
                             failing: set<string>, st: SyncState)
    requires c.fileRoot != [] && !c.testRun
    requires SyncPass(c, env, glob, tree, failing, st).error.None?
    requires forall p :: p in LocalPaths(glob, c.fileRoot, c.includes, c.excludes, tree) ==> env.fs(p).mtime < env.now
    ensures var abspaths := LocalPaths(glob, c.fileRoot, c.includes, c.excludes, tree);
            var relpaths := Relpaths(abspaths, c.fileRoot);
            var objs := SyncPass(c, env, glob, tree, failing, st).state.objects;
      && ReachesTransfer(c, env, glob, tree)
      && (forall r :: r in relpaths ==>
            FindAbspath(c.fileRoot, abspaths, r).Some? && r in objs &&
            env.fs(FindAbspath(c.fileRoot, abspaths, r).value).mtime < objs[r].lastModified)
      && (forall o :: o in MatchCloud(glob, c.includes, c.excludes, Listing(objs)) ==> o in relpaths)
  {
    var abspaths := LocalPaths(glob, c.fileRoot, c.includes, c.excludes, tree);
    var relpaths := Relpaths(abspaths, c.fileRoot);
    var cloud1 := MatchCloud(glob, c.includes, c.excludes, Listing(st.objects));
    SyncPassTransfers(c, env, glob, tree, failing, st);
    var first := Transfer(false, c.fileRoot, env, abspaths, relpaths, cloud1, failing, st);
    CloudListingDistinct(glob, c.includes, c.excludes, st.objects);
    TransferLeavesNewer(c.fileRoot, env, abspaths, relpaths, cloud1, failing, st);
    OnlyRelpathsListed(glob, c.includes, c.excludes, relpaths, st.objects, first.state.objects);
  }

  /**
   * Syncing twice changes nothing the second time: after a successful real
   * pass (with the service clock past every local mtime), a second pass over
   * the same tree skips every file, deletes nothing and leaves the container
   * as the first pass left it.
   */
  lemma SecondSyncChangesNothing(c: Config, env: UploadEnv, glob: GlobMatcher, tree: seq<Entry>,
                                 failing: set<string>, st: SyncState)
    requires c.fileRoot != [] && !c.testRun
    requires SyncPass(c, env, glob, tree, failing, st).error.None?
    requires forall p :: p in LocalPaths(glob, c.fileRoot, c.includes, c.excludes, tree) ==> env.fs(p).mtime < env.now
    ensures var first := SyncPass(c, env, glob, tree, failing, st);
            var second := SyncPass(c, env, glob, tree, failing, first.state.(tally := ZERO_TALLY));
      && second.error.None?
      && second.state.objects == first.state.objects
      && second.state.tally == Tally(0, 0, 0, |LocalPaths(glob, c.fileRoot, c.includes, c.excludes, tree)|, 0)
  {
    var abspaths := LocalPaths(glob, c.fileRoot, c.includes, c.excludes, tree);
    var relpaths := Relpaths(abspaths, c.fileRoot);
    var st2 := SyncPass(c, env, glob, tree, failing, st).state.(tally := ZERO_TALLY);
    FirstSyncLeavesNewer(c, env, glob, tree, failing, st);
    var cloud2 := MatchCloud(glob, c.includes, c.excludes, Listing(st2.objects));
    TransferAllNewer(false, c.fileRoot, env, abspaths, relpaths, cloud2, failing, st2);
    SyncPassTransfers(c, env, glob, tree, failing, st2);
  }

  // ---------------------------------------------------------------------------
  // The command object
  // ---------------------------------------------------------------------------

  /** `Command`: the options and counters are instance variables updated as the sync proceeds. */
  class Command {
    var wipe: bool
    var testRun: bool
    var quiet: bool
    var containerName: Option<string>
    var verbosity: int
    var syncMedia: bool
    var syncStatic: bool
    var fileRoot: string
    var fileUrl: string
    var includes: set<string>
    var excludes: set<string>
    var createCount: int
    var uploadCount: int
    var updateCount: int
    var skipCount: int
    var deleteCount: int
    /** `self.container`, the container the connection returned. */
    var container: Container

    constructor(container: Container)
      ensures this.container == container
      ensures Counters() == ZERO_TALLY
    {
      this.container := container;
      wipe, testRun, quiet := false, false, false;
      containerName := None;
      verbosity := 1;
      syncMedia, syncStatic := false, false;
      fileRoot, fileUrl := "", "";
      includes, excludes := {}, {};
      createCount, uploadCount, updateCount, skipCount, deleteCount := 0, 0, 0, 0, 0;
    }

    function Settings(): Config
      reads this`wipe, this`testRun, this`quiet, this`containerName, this`verbosity, this`syncMedia, this`syncStatic
      reads this`fileRoot, this`fileUrl, this`includes, this`excludes
    {
      Config(wipe, testRun, quiet, containerName, verbosity, syncMedia, syncStatic,
             fileRoot, fileUrl, includes, excludes)
    }

    function Counters(): Tally
      reads this`createCount, this`uploadCount, this`updateCount, this`skipCount, this`deleteCount
    {
      Tally(createCount, uploadCount, updateCount, skipCount, deleteCount)
    }

    function State(): SyncState
      reads this`createCount, this`uploadCount, this`updateCount, this`skipCount, this`deleteCount
      reads this`container, container`objects
    {
      SyncState(Counters(), container.objects)
    }

    /**
     * `set_options`: raises for a bad flag combination or a pattern setting
     * that is not a list; otherwise the fields hold the configuration and
     * the counters are zero.
     */
    method SetOptions(opts: Options, cfg: SyncSettings) returns (err: Option<Error>)
      modifies this`wipe, this`testRun, this`quiet, this`containerName, this`verbosity, this`syncMedia, this`syncStatic,
        this`fileRoot, this`fileUrl, this`includes, this`excludes,
        this`createCount, this`uploadCount, this`updateCount, this`skipCount, this`deleteCount
      ensures err == SetOptionsError(opts, cfg)
      ensures err.None? ==> Settings() == Configured(opts, cfg) && Counters() == ZERO_TALLY && fileRoot != []
    {
      SetCommandLineOptions(opts);
      err := ChooseContainer(cfg);
      if err.None? {
        err := SetFileSettings(cfg, opts.includes, opts.excludes);
      }
    }

    /**
     * The paths, the merged patterns and the zeroed counters, once a tree is
     * selected. The include merge comes first, so a bad EXCLUDE_LIST raises
     * with the includes already assigned.
     */
    method SetFileSettings(cfg: SyncSettings, cliIncludes: seq<string>, cliExcludes: seq<string>) returns (err: Option<Error>)
      requires syncMedia != syncStatic
      modifies this`fileRoot, this`fileUrl, this`includes, this`excludes
      modifies this`createCount, this`uploadCount, this`updateCount, this`skipCount, this`deleteCount
      ensures fileRoot == WithTrailingSlash(if syncMedia then cfg.mediaRoot else cfg.staticRoot) && fileRoot != []
      ensures fileUrl == WithoutLeadingSlash(if syncMedia then cfg.mediaUrl else cfg.staticUrl)
      ensures err.None? <==> ListSettings(cfg)
      ensures err.Some? ==> err == Some(TypeError)
      ensures cfg.includeList.VList? ==> includes == MergeSetting(cliIncludes, cfg.includeList).value
      ensures err.None? ==> excludes == MergeSetting(cliExcludes, cfg.excludeList).value && Counters() == ZERO_TALLY
    {
      SetPaths(cfg);
      var merged := MergeSetting(cliIncludes, cfg.includeList);
      if merged.Err? {
        return Some(merged.error);
      }
      includes := merged.value;
      merged := MergeSetting(cliExcludes, cfg.excludeList);
      if merged.Err? {
        return Some(merged.error);
      }
      excludes := merged.value;
      createCount, uploadCount, updateCount, skipCount, deleteCount := 0, 0, 0, 0, 0;
      err := None;
    }

    /** The root of the selected tree with a trailing "/", and its URL without a leading one. */
    method SetPaths(cfg: SyncSettings)
      modifies this`fileRoot, this`fileUrl
      ensures fileRoot == WithTrailingSlash(if syncMedia then cfg.mediaRoot else cfg.staticRoot) && fileRoot != []
      ensures fileUrl == WithoutLeadingSlash(if syncMedia then cfg.mediaUrl else cfg.staticUrl)
    {
      if syncMedia {
        fileRoot, fileUrl := cfg.mediaRoot, cfg.mediaUrl;
      } else {
        fileRoot, fileUrl := cfg.staticRoot, cfg.staticUrl;
      }
      if !EndsWith(fileRoot, "/") {
        fileRoot := fileRoot + "/";
      }
      if StartsWith(fileUrl, "/") {
        fileUrl := fileUrl[1..];
      }
    }

    /** The command-line part of `set_options`; `--quiet` is stored as `test_run`. */
    method SetCommandLineOptions(opts: Options)
      modifies this`wipe, this`testRun, this`quiet, this`containerName, this`verbosity, this`syncMedia, this`syncStatic
      ensures wipe == opts.wipe && testRun == opts.testRun && quiet == opts.testRun
      ensures containerName == opts.container && verbosity == (if opts.testRun then 2 else opts.verbosity)
      ensures syncMedia == opts.syncMedia && syncStatic == opts.syncStatic
    {
      wipe, testRun, quiet := opts.wipe, opts.testRun, opts.testRun;
      containerName := opts.container;
      verbosity := opts.verbosity;
      syncMedia, syncStatic := opts.syncMedia, opts.syncStatic;
      if testRun {
        verbosity := 2;
      }
    }

    /** The container name is checked and defaulted by the selected flag. */
    method ChooseContainer(cfg: SyncSettings) returns (err: Option<Error>)
      modifies this`containerName
      ensures err == OptionsError(old(containerName), syncMedia, syncStatic)
      ensures err.None? ==> containerName == ContainerChoice(old(containerName), syncMedia, cfg)
    {
      if syncMedia && syncStatic {
        return Some(CommandError(MUTUALLY_EXCLUSIVE));
      }
      if !Truthy(containerName) {
        if syncMedia {
          containerName := cfg.container;
        } else if syncStatic {
          containerName := cfg.staticContainer;
        } else {
          return Some(CommandError(SELECT_ONE));
        }
      }
      if !syncMedia && !syncStatic {
        return Some(AttributeError("file_root"));
      }
      err := None;
    }

    /** `upload_file`: stores the object unless this is a test run, and counts the upload. */
    method UploadFile(env: UploadEnv, abspath: string, name: string) returns (err: Option<Error>)
      modifies this`uploadCount, container`objects
      ensures Progress(State(), err) == UploadFileEffect(testRun, env, old(State()), abspath, name)
    {
      if !testRun {
        if env.fileTtl.None? {
          return Some(KeyError("FILE_TTL"));
        }
        container.Put(name, UploadedObject(env, abspath, name));
      }
      uploadCount := uploadCount + 1;
      err := None;
    }

    /** One iteration of `upload_files`: classify the relpath, count it, and upload it unless skipped. */
    method UploadOne(env: UploadEnv, abspaths: seq<string>, remote: map<string, int>, relpath: string)
      returns (err: Option<Error>)
      modifies this`createCount, this`uploadCount, this`updateCount, this`skipCount, container`objects
      ensures Progress(State(), err) == UploadStep(testRun, fileRoot, env, abspaths, remote, old(State()), relpath)
    {
      ghost var before := State();
      var found := FindAbspath(fileRoot, abspaths, relpath);
      if found.None? {
        return Some(IndexError);
      }
      var abspath := found.value;
      var localMtime := env.fs(abspath).mtime;
      ghost var d := Classify(remote, relpath, localMtime);
      ghost var t := before.tally;
      if relpath in remote && localMtime < remote[relpath] {
        skipCount := skipCount + 1;
        assert d == Skip;
        assert State() == before.(tally := t.(skip := t.skip + 1));
        return None;
      }
      if relpath in remote {
        updateCount := updateCount + 1;
      } else {
        createCount := createCount + 1;
      }
      assert State() == Counted(before, relpath in remote);
      UploadStepUploads(testRun, fileRoot, env, abspaths, remote, before, relpath, abspath);
      err := UploadFile(env, abspath, relpath);
    }

    /** The `i`-th iteration of `upload_files`, as a step of the pass from `base`. */
    method UploadNext(env: UploadEnv, abspaths: seq<string>, relpaths: seq<string>, remote: map<string, int>,
                      ghost base: SyncState, i: nat) returns (err: Option<Error>)
      requires i < |relpaths|
      requires Progress(State(), None) == UploadPass(testRun, fileRoot, env, abspaths, remote, base, relpaths[..i])
      modifies this`createCount, this`uploadCount, this`updateCount, this`skipCount, container`objects
      ensures Progress(State(), err) == UploadPass(testRun, fileRoot, env, abspaths, remote, base, relpaths[..i + 1])
    {
      UploadPassSnoc(testRun, fileRoot, env, abspaths, remote, base, relpaths, i);
      err := UploadOne(env, abspaths, remote, relpaths[i]);
    }

    /** `upload_files`: classify each relpath and upload the ones that are not skipped. */
    method UploadFiles(env: UploadEnv, abspaths: seq<string>, relpaths: seq<string>, remote: map<string, int>)
      returns (err: Option<Error>)
      modifies this`createCount, this`uploadCount, this`updateCount, this`skipCount, container`objects
      ensures Progress(State(), err) == UploadPass(testRun, fileRoot, env, abspaths, remote, old(State()), relpaths)
    {
      var i := 0;
      while i < |relpaths|
        invariant 0 <= i <= |relpaths|
        invariant Progress(State(), None) == UploadPass(testRun, fileRoot, env, abspaths, remote, old(State()), relpaths[..i])
      {
        err := UploadNext(env, abspaths, relpaths, remote, old(State()), i);
        if err.Some? {
          UploadPassStops(testRun, fileRoot, env, abspaths, remote, old(State()), relpaths, i + 1);
          return;
        }
        i := i + 1;
      }
      assert relpaths[..i] == relpaths;
      err := None;
    }

    /** `delete_extra_files`: delete and count each listed name that is not a local relpath. */
    method DeleteExtraFiles(relpaths: seq<string>, cloudObjs: seq<string>) returns (err: Option<Error>)
      modifies this`deleteCount, container`objects, container`deleteAttempts
      ensures Progress(State(), err) == DeletePass(testRun, container.failing, old(State()), relpaths, cloudObjs)
      ensures testRun ==> container.deleteAttempts == old(container.deleteAttempts)
    {
      var i := 0;
      while i < |cloudObjs|
        invariant 0 <= i <= |cloudObjs|
        invariant Progress(State(), None) == DeletePass(testRun, container.failing, old(State()), relpaths, cloudObjs[..i])
        invariant testRun ==> container.deleteAttempts == old(container.deleteAttempts)
      {
        var cloudObj := cloudObjs[i];
        assert cloudObjs[..i + 1][..i] == cloudObjs[..i];
        if cloudObj !in relpaths {
          if !testRun {
            err := container.DeleteObject(cloudObj);
            if err.Some? {
              DeletePassStops(testRun, container.failing, old(State()), relpaths, cloudObjs, i + 1);
              return;
            }
          }
          deleteCount := deleteCount + 1;
        }
        i := i + 1;
      }
      assert cloudObjs[..i] == cloudObjs;
      err := None;
    }

    /** `print_tally`: the reported update count is recomputed from the other counters. */
    method PrintTally()
      modifies this`updateCount
      ensures updateCount == uploadCount - createCount
    {
      updateCount := uploadCount - createCount;
    }

    /** The part of `handle_noargs` after the connection: the wipe, the checks and the transfer. */
    method Sync(env: UploadEnv, glob: GlobMatcher, tree: seq<Entry>) returns (err: Option<Error>)
      requires fileRoot != []
      modifies this`createCount, this`uploadCount, this`updateCount, this`skipCount, this`deleteCount
      modifies container`objects, container`deleteAttempts
      ensures Progress(State(), err) == SyncPass(old(Settings()), env, glob, tree, container.failing, old(State()))
    {
      if wipe {
        return Some(TypeError);
      }
      var abspaths := LocalPaths(glob, fileRoot, includes, excludes, tree);
      var relpaths := Relpaths(abspaths, fileRoot);
      if relpaths == [] {
        return Some(CommandError(EmptyRootMessage(syncMedia)));
      }
      var irregular := FirstIrregular(abspaths, env.fs);
      if irregular.Some? {
        return Some(CommandError("Unsupported filetype: " + irregular.value + "."));
      }
      var names := container.ListNames();
      var cloudObjs := MatchCloud(glob, includes, excludes, names);
      err := TransferFiles(env, abspaths, relpaths, cloudObjs);
    }

    /** The uploads, the deletions and the final tally of `handle_noargs`. */
    method TransferFiles(env: UploadEnv, abspaths: seq<string>, relpaths: seq<string>, cloudObjs: seq<string>)
      returns (err: Option<Error>)
      modifies this`createCount, this`uploadCount, this`updateCount, this`skipCount, this`deleteCount
      modifies container`objects, container`deleteAttempts
      ensures Progress(State(), err) == Transfer(testRun, fileRoot, env, abspaths, relpaths, cloudObjs, container.failing, old(State()))
    {
      var remote := LastModified(container.objects);
      err := UploadFiles(env, abspaths, relpaths, remote);
      if err.Some? {
        return;
      }
      err := DeleteExtraFiles(relpaths, cloudObjs);
      if err.Some? {
        return;
      }
      PrintTally();
    }

    /**
     * `handle_noargs` on a connected container: `set_options`, then one sync
     * pass from zeroed counters. The tally is printed in every configuration
     * (see TallyAlwaysPrinted).
     */
    method HandleNoArgs(opts: Options, cfg: SyncSettings, env: UploadEnv, glob: GlobMatcher, tree: seq<Entry>)
      returns (err: Option<Error>)
      modifies this`wipe, this`testRun, this`quiet, this`containerName, this`verbosity, this`syncMedia, this`syncStatic,
        this`fileRoot, this`fileUrl, this`includes, this`excludes,
        this`createCount, this`uploadCount, this`updateCount, this`skipCount, this`deleteCount
      modifies container`objects, container`deleteAttempts
      ensures SetOptionsError(opts, cfg).Some? ==> err == SetOptionsError(opts, cfg) && container.objects == old(container.objects)
      ensures SetOptionsError(opts, cfg).None? ==>
        Progress(State(), err) == SyncPass(Configured(opts, cfg), env, glob, tree, container.failing,
                                           SyncState(ZERO_TALLY, old(container.objects)))
    {
      err := SetOptions(opts, cfg);
      if err.Some? {
        return;
      }
      ghost var configured := Settings();
      ghost var start := State();
      assert configured == Configured(opts, cfg);
      assert start == SyncState(ZERO_TALLY, old(container.objects));
      err := Sync(env, glob, tree);
      assert Progress(State(), err) == SyncPass(configured, env, glob, tree, container.failing, start);
    }
  }
}
