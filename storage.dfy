/**
 * `cumulus.storage`: the Swiftclient-backed Django storage. The storage keeps
 * a cache of the container's object names (`cloud_objs_names`) that `exists`,
 * `_save`, `delete` and the directory listings work from; the remote
 * container is the `Backend.Container` class.
 */
module Storage {
  import opened Common
  import opened Ordering
  import opened Backend

  /** The names `cumulus.storage` defines at its top level besides its imports: its four classes. */
  const STORAGE_CLASSES := {"SwiftclientStorage", "SwiftclientStaticStorage", "SwiftclientStorageFile",
                            "ThreadSafeSwiftclientStorage"}

  /** The settings and CDN answer that `get_container_uri` reads. */
  datatype UriSettings = UriSettings(
    useSsl: bool,
    /** `CUMULUS["CONTAINER_SSL_URI"]`; None when the key is absent (it is not among the defaults). */
    containerSslUri: Option<Option<string>>,
    /** `CUMULUS["CONTAINER_URI"]` (default None). */
    containerUri: Option<string>,
    /** `CUMULUS["CNAMES"]`; the default None substitutes nothing, like an empty map. */
    cnames: map<string, string>)

  /** The URI chosen before CNAME substitution. */
  function ChosenUri(s: UriSettings, cdnPublicUri: Option<string>): Result<Option<string>>
  {
    if s.useSsl then
      (if s.containerSslUri.None? then Err(KeyError("CONTAINER_SSL_URI")) else Ok(s.containerSslUri.value))
    else if Truthy(s.containerUri) then Ok(s.containerUri)
    else if Truthy(cdnPublicUri) then Ok(cdnPublicUri)
    else Err(UnboundLocalError("container_public_uri"))
  }

  /** `CNAMES[uri]` when CNAMES holds the URI, else the URI itself. */
  function Cname(cnames: map<string, string>, uri: Option<string>): Option<string>
  {
    if uri.Some? && uri.value in cnames then Some(cnames[uri.value]) else uri
  }

  /** `get_container_uri` on a storage that has not cached its URI yet. */
  function ContainerUri(s: UriSettings, cdnPublicUri: Option<string>): (r: Result<Option<string>>)
    ensures s.useSsl && s.containerSslUri.None? ==> r == Err(KeyError("CONTAINER_SSL_URI"))
    ensures s.useSsl && s.containerSslUri.Some? ==> r == Ok(Cname(s.cnames, s.containerSslUri.value))
    ensures !s.useSsl && Truthy(s.containerUri) ==> r == Ok(Cname(s.cnames, s.containerUri))
    ensures !s.useSsl && !Truthy(s.containerUri) && Truthy(cdnPublicUri) ==> r == Ok(Cname(s.cnames, cdnPublicUri))
    ensures !s.useSsl && !Truthy(s.containerUri) && !Truthy(cdnPublicUri) ==> r == Err(UnboundLocalError("container_public_uri"))
  {
    match ChosenUri(s, cdnPublicUri)
    case Err(e) => Err(e)
    case Ok(u) => Ok(Cname(s.cnames, u))
  }

  /**
   * The CNAME step maps a chosen URI that CNAMES names to its alias and leaves
   * every other URI alone; with no CNAMES the configured choice is returned as is.
   */
  lemma ContainerUriCname(s: UriSettings, cdnPublicUri: Option<string>)
    requires ChosenUri(s, cdnPublicUri).Ok?
    ensures var u := ChosenUri(s, cdnPublicUri).value;
      && (u.Some? && u.value in s.cnames ==> ContainerUri(s, cdnPublicUri) == Ok(Some(s.cnames[u.value])))
      && (!(u.Some? && u.value in s.cnames) ==> ContainerUri(s, cdnPublicUri) == Ok(u))
      && (s.cnames == map[] ==> ContainerUri(s, cdnPublicUri) == Ok(u))
  {
  }

  /** `url(name)`: `"{0}/{1}".format(container_public_uri, name)`. */
  function Url(uri: Option<string>, name: string): (r: string)
    ensures StartsWith(r, OptionToString(uri) + "/")
    ensures r[|OptionToString(uri)| + 1..] == name
  {
    OptionToString(uri) + "/" + name
  }

  /** Python's `list.remove(x)`: drops the first occurrence. */
  function RemoveFirst<T(==)>(s: seq<T>, x: T): (r: seq<T>)
    ensures x !in s ==> r == s
    ensures x in s ==> |r| == |s| - 1 && multiset(r) == multiset(s) - multiset{x}
  {
    if s == [] then []
    else
      assert s == [s[0]] + s[1..];
      if s[0] == x then s[1..]
      else [s[0]] + RemoveFirst(s[1..], x)
  }

  /** In a list without duplicates, `remove(x)` leaves exactly the other names, still without duplicates. */
  lemma RemoveFirstDistinct(s: seq<string>, x: string)
    requires Distinct(s)
    ensures Distinct(RemoveFirst(s, x))
    ensures forall y :: y in RemoveFirst(s, x) <==> y in s && y != x
  {
    var r := RemoveFirst(s, x);
    if x in s {
      assert forall y :: y in r <==> multiset(r)[y] > 0;
      assert forall y :: y in s <==> multiset(s)[y] > 0;
      forall y ensures multiset(s)[y] <= 1 {
        DistinctCount(s, y);
      }
      forall i, j | 0 <= i < j < |r| ensures r[i] != r[j] {
        if r[i] == r[j] {
          TwiceCounted(r, i, j);
        }
      }
    }
  }

  lemma {:induction false} DistinctCount(s: seq<string>, y: string)
    requires Distinct(s)
    ensures multiset(s)[y] <= 1
    decreases |s|
  {
    if s != [] {
      assert s == [s[0]] + s[1..];
      assert Distinct(s[1..]) by {
        forall i, j | 0 <= i < j < |s[1..]| ensures s[1..][i] != s[1..][j] {
          assert s[1..][i] == s[i + 1] && s[1..][j] == s[j + 1];
        }
      }
      DistinctCount(s[1..], y);
      if s[0] == y {
        assert y !in s[1..] by {
          forall k | 0 <= k < |s[1..]| ensures s[1..][k] != y {
            assert s[1..][k] == s[k + 1];
          }
        }
      }
    }
  }

  lemma {:induction false} TwiceCounted(r: seq<string>, i: nat, j: nat)
    requires i < j < |r| && r[i] == r[j]
    ensures multiset(r)[r[i]] >= 2
  {
    assert r == r[..j] + [r[j]] + r[j + 1..];
    assert r[i] in r[..j];
  }

  /** `listdir`/`full_listdir` add a "/" to a non-empty path that lacks one. */
  function DirPrefix(path: string): (r: string)
    ensures r == [] <==> path == []
    ensures r != [] ==> EndsWith(r, "/")
    ensures StartsWith(r, path) && |r| <= |path| + 1
    ensures EndsWith(path, "/") ==> r == path
  {
    if path != [] && !EndsWith(path, "/") then path + "/" else path
  }

  lemma DirPrefixIdempotent(path: string)
    ensures DirPrefix(DirPrefix(path)) == DirPrefix(path)
  {
  }

  /** `listdir`'s files: the cached names under the prefix, prefix removed, in cache order. */
  function ListedFiles(names: seq<string>, p: string): seq<string>
    decreases |names|
  {
    if names == [] then []
    else
      var n := Last(names);
      ListedFiles(names[..|names| - 1], p) + (if StartsWith(n, p) then [n[|p|..]] else [])
  }

  /**
   * Every listed file is a cached name with the prefix removed, every cached
   * name under the prefix is listed, and the listing is no longer than the cache.
   */
  lemma {:induction false} ListedFilesMeans(names: seq<string>, p: string)
    ensures |ListedFiles(names, p)| <= |names|
    ensures forall f :: f in ListedFiles(names, p) ==> p + f in names
    ensures forall n :: n in names && StartsWith(n, p) ==> n[|p|..] in ListedFiles(names, p)
    decreases |names|
  {
    if names != [] {
      var init := names[..|names| - 1];
      ListedFilesMeans(init, p);
      assert names == init + [Last(names)];
      forall n | n in names && StartsWith(n, p)
        ensures n[|p|..] in ListedFiles(names, p)
      {
        if n != Last(names) {
          assert n in init;
        }
      }
      forall f | f in ListedFiles(names, p)
        ensures p + f in names
      {
        if f !in ListedFiles(init, p) {
          var n := Last(names);
          assert n == n[..|p|] + n[|p|..];
        }
      }
    }
  }

  /** `full_listdir`'s reading of a remainder: a directory and a file, or only a file. */
  datatype Entry = InDir(dir: string, file: string) | Plain(file: string)

  /** Python's `rem[1:-1]`: the remainder without its first and last characters. */
  function Inner(rem: string): string
  {
    if |rem| >= 2 then rem[1..|rem| - 1] else []
  }

  /** `slash = rem[1:-1].find("/") + 1`, then `rem[:slash]` and `rem[slash + 1:]` when slash is non-zero. */
  function SplitEntry(rem: string): Entry
  {
    match Find(Inner(rem), "/")
    case None => Plain(rem)
    case Some(k) => InDir(rem[..k + 1], rem[k + 2..])
  }

  /**
   * The split is at the first "/" strictly inside the remainder: the
   * directory is non-empty and holds no "/" after its first character, the
   * file is non-empty, and together with the slash they give back the
   * remainder. With no inner "/", the remainder is the file.
   */
  lemma SplitEntryMeans(rem: string)
    ensures var e := SplitEntry(rem);
      && (e.InDir? ==> rem == e.dir + "/" + e.file && e.dir != [] && e.file != []
                       && forall k :: 1 <= k < |e.dir| ==> e.dir[k] != '/')
      && (e.Plain? ==> e.file == rem && forall k :: 1 <= k < |rem| - 1 ==> rem[k] != '/')
  {
    var inner := Inner(rem);
    match Find(inner, "/")
    case None =>
      forall k | 1 <= k < |rem| - 1 ensures rem[k] != '/' {
        assert !OccursAt(inner, "/", k - 1);
        assert inner[k - 1..k] == [inner[k - 1]];
      }
    case Some(k) =>
      assert inner[k..k + 1] == "/";
      assert rem[k + 1] == inner[k];
      assert rem == rem[..k + 1] + "/" + rem[k + 2..];
      forall j | 1 <= j < k + 1 ensures rem[j] != '/' {
        assert !OccursAt(inner, "/", j - 1);
        assert inner[j - 1..j] == [inner[j - 1]];
      }
  }

  /** The file column of `full_listdir` for the given remainders. */
  function FileParts(rems: seq<string>): seq<string>
    decreases |rems|
  {
    if rems == [] then [] else FileParts(rems[..|rems| - 1]) + [SplitEntry(Last(rems)).file]
  }

  /** The directories of `full_listdir` for the given remainders, as a set. */
  function DirParts(rems: seq<string>): set<string>
    decreases |rems|
  {
    if rems == [] then {}
    else
      var e := SplitEntry(Last(rems));
      DirParts(rems[..|rems| - 1]) + (if e.InDir? then {e.dir} else {})
  }

  /** Listing one more cached name adds at most its remainder at the end. */
  lemma ListedFilesSnoc(names: seq<string>, i: nat, p: string)
    requires i < |names|
    ensures ListedFiles(names[..i + 1], p)
      == ListedFiles(names[..i], p) + (if StartsWith(names[i], p) then [names[i][|p|..]] else [])
  {
    assert names[..i + 1][..i] == names[..i];
  }

  /** One more remainder adds its file at the end and its directory, if any, to the set. */
  lemma PartsSnoc(rems: seq<string>, rem: string)
    ensures FileParts(rems + [rem]) == FileParts(rems) + [SplitEntry(rem).file]
    ensures DirParts(rems + [rem]) == DirParts(rems) + (if SplitEntry(rem).InDir? then {SplitEntry(rem).dir} else {})
  {
    assert (rems + [rem])[..|rems|] == rems;
  }

  /** The i-th file of `full_listdir` is the file part of the i-th remainder. */
  lemma {:induction false} FilePartsAt(rems: seq<string>)
    ensures |FileParts(rems)| == |rems|
    ensures forall i :: 0 <= i < |rems| ==> FileParts(rems)[i] == SplitEntry(rems[i]).file
    decreases |rems|
  {
    if rems != [] {
      var init := rems[..|rems| - 1];
      FilePartsAt(init);
      assert rems == init + [Last(rems)];
      PartsSnoc(init, Last(rems));
    }
  }

  /** The directories of `full_listdir` are the directory parts of its remainders. */
  lemma {:induction false} DirPartsAt(rems: seq<string>)
    ensures forall i :: 0 <= i < |rems| && SplitEntry(rems[i]).InDir? ==> SplitEntry(rems[i]).dir in DirParts(rems)
    ensures forall d :: d in DirParts(rems) ==> exists i :: 0 <= i < |rems| && SplitEntry(rems[i]) == InDir(d, SplitEntry(rems[i]).file)
    decreases |rems|
  {
    if rems != [] {
      var init := rems[..|rems| - 1];
      DirPartsAt(init);
      assert rems == init + [Last(rems)];
      PartsSnoc(init, Last(rems));
      forall i | 0 <= i < |init| ensures rems[i] == init[i] { }
    }
  }

  /**
   * `full_listdir` against `listdir`: it lists one file per name under the
   * prefix, in the same order, and each file with its directory (if any)
   * rebuilds the remainder that `listdir` lists.
   */
  lemma FullListDirRebuilds(names: seq<string>, p: string, i: nat)
    requires i < |ListedFiles(names, p)|
    ensures |FileParts(ListedFiles(names, p))| == |ListedFiles(names, p)|
    ensures var rem := ListedFiles(names, p)[i];
      var e := SplitEntry(rem);
      && FileParts(ListedFiles(names, p))[i] == e.file
      && (e.InDir? ==> e.dir in DirParts(ListedFiles(names, p)) && rem == e.dir + "/" + e.file)
      && (e.Plain? ==> rem == e.file)
  {
    FilePartsAt(ListedFiles(names, p));
    DirPartsAt(ListedFiles(names, p));
    SplitEntryMeans(ListedFiles(names, p)[i]);
  }

  /** `SwiftclientStorage`: the cached name list and public URI over one remote container. */
  class Storage {
    var containerName: string
    /** `cloud_objs_names`: the names the storage believes the container holds, in cache order. */
    var cloudObjsNames: seq<string>
    /** `container_public_uri`, computed once by `get_container_uri` in `__init__`. */
    var containerPublicUri: Option<string>
    var remote: Container

    /**
     * `__init__` once `get_container_uri` has succeeded: the cache is filled
     * from the container listing (the effect of the `full_listdir("img/")`
     * call there, which assigns `cloud_objs_names`).
     */
    constructor(remote: Container, containerName: string, uri: Option<string>)
      ensures this.remote == remote && this.containerName == containerName
      ensures containerPublicUri == uri
      ensures cloudObjsNames == Listing(remote.objects)
      ensures Synced()
    {
      var names := remote.ListNames();
      this.remote := remote;
      this.containerName := containerName;
      containerPublicUri := uri;
      cloudObjsNames := names;
    }

    /** The cache lists each name of the container exactly once. */
    ghost predicate Synced()
      reads this`cloudObjsNames, this`remote, remote`objects
    {
      Distinct(cloudObjsNames) && forall n :: n in cloudObjsNames <==> n in remote.objects
    }

    /** `exists` (through `_get_cloud_obj`): membership in the cache. */
    method Exists(name: string) returns (b: bool)
      ensures b <==> name in cloudObjsNames
      ensures Synced() ==> (b <==> name in remote.objects)
    {
      b := name in cloudObjsNames;
    }

    /** `url(name)`. */
    function UrlOf(name: string): (r: string)
      reads this`containerPublicUri
      ensures r == Url(containerPublicUri, name)
    {
      Url(containerPublicUri, name)
    }

    /**
     * `_save`: uploads only a name the cache does not hold, then caches it;
     * returns the name unchanged. The object gets the content type that
     * `ContentTypeOf` chooses and the size of the content's file when it has one.
     */
    method Save(name: string, content: Content, guess: string -> Option<string>, now: int) returns (r: string)
      modifies this`cloudObjsNames, remote`objects
      ensures r == name
      ensures name in old(cloudObjsNames) ==> cloudObjsNames == old(cloudObjsNames) && remote.objects == old(remote.objects)
      ensures name !in old(cloudObjsNames) ==>
        && cloudObjsNames == old(cloudObjsNames) + [name]
        && remote.objects == old(remote.objects)[name := Uploaded(content, name, guess, now)]
      ensures old(Synced()) ==> Synced()
    {
      if name !in cloudObjsNames {
        remote.Put(name, Uploaded(content, name, guess, now));
        cloudObjsNames := cloudObjsNames + [name];
      }
      r := name;
    }

    /**
     * `delete`: a 404 from the service is swallowed, any other failure is
     * re-raised; after a successful remote delete the name leaves the cache,
     * and `list.remove` raises ValueError if the cache did not hold it.
     */
    method Delete(name: string) returns (err: Option<Error>)
      modifies this`cloudObjsNames, remote`objects, remote`deleteAttempts
      ensures remote.deleteAttempts == old(remote.deleteAttempts) + [name]
      ensures remote.objects == Backend.Delete(old(remote.objects), remote.failing, name).objects
      ensures var e := Backend.Delete(old(remote.objects), remote.failing, name).error;
        && (e.None? && name in old(cloudObjsNames) ==> err.None? && cloudObjsNames == RemoveFirst(old(cloudObjsNames), name))
        && (e.None? && name !in old(cloudObjsNames) ==> err == Some(ValueError) && cloudObjsNames == old(cloudObjsNames))
        && (e.Some? && e.value.httpStatus == 404 ==> err.None? && cloudObjsNames == old(cloudObjsNames))
        && (e.Some? && e.value.httpStatus != 404 ==> err == e && cloudObjsNames == old(cloudObjsNames))
      ensures old(Synced()) ==> Synced() && err != Some(ValueError) && (err.None? ==> name !in remote.objects)
    {
      var e := remote.DeleteObject(name);
      if e.None? {
        if name in cloudObjsNames {
          if Distinct(cloudObjsNames) {
            RemoveFirstDistinct(cloudObjsNames, name);
          }
          cloudObjsNames := RemoveFirst(cloudObjsNames, name);
          err := None;
        } else {
          err := Some(ValueError);
        }
      } else if e.value.httpStatus == 404 {
        err := None;
      } else {
        err := e;
      }
    }

    /** `listdir`: no directories, and the cached names under the path with the path removed. */
    method ListDir(path: string) returns (dirs: seq<string>, files: seq<string>)
      ensures dirs == []
      ensures files == ListedFiles(cloudObjsNames, DirPrefix(path))
    {
      var p := DirPrefix(path);
      dirs := [];
      files := [];
      var names := cloudObjsNames;
      for i := 0 to |names|
        invariant files == ListedFiles(names[..i], p)
      {
        assert names[..i + 1][..i] == names[..i];
        if StartsWith(names[i], p) {
          files := files + [names[i][|p|..]];
        }
      }
      assert names[..|names|] == names;
    }

    /**
     * `full_listdir`: each remainder under the path is split at its first
     * inner "/"; the directories are collected in a set and returned sorted.
     */
    method FullListDir(path: string) returns (dirs: seq<string>, files: seq<string>)
      ensures files == FileParts(ListedFiles(cloudObjsNames, DirPrefix(path)))
      ensures StrictlySorted(dirs)
      ensures forall d :: d in dirs <==> d in DirParts(ListedFiles(cloudObjsNames, DirPrefix(path)))
    {
      var dirSet: set<string>;
      dirSet, files := SplitAll(cloudObjsNames, DirPrefix(path));
      dirs := SortSet(dirSet);
    }
  }

  /** `full_listdir`'s loop: split each remainder under the prefix, collecting directories in a set. */
  method SplitAll(names: seq<string>, p: string) returns (dirSet: set<string>, files: seq<string>)
    ensures files == FileParts(ListedFiles(names, p))
    ensures dirSet == DirParts(ListedFiles(names, p))
  {
    dirSet := {};
    files := [];
    for i := 0 to |names|
      invariant files == FileParts(ListedFiles(names[..i], p))
      invariant dirSet == DirParts(ListedFiles(names[..i], p))
    {
      ghost var rems := ListedFiles(names[..i], p);
      ListedFilesSnoc(names, i, p);
      if StartsWith(names[i], p) {
        var rem := names[i][|p|..];
        assert ListedFiles(names[..i + 1], p) == rems + [rem];
        PartsSnoc(rems, rem);
        var e := SplitEntry(rem);
        if e.InDir? {
          dirSet := dirSet + {e.dir};
          files := files + [e.file];
        } else {
          files := files + [e.file];
        }
      } else {
        assert ListedFiles(names[..i + 1], p) == rems;
      }
    }
    assert names[..|names|] == names;
  }

  /** `list(dirs)` followed by `dirs.sort()`. */
  method SortSet(s: set<string>) returns (r: seq<string>)
    ensures StrictlySorted(r)
    ensures forall d :: d in r <==> d in s
  {
    r := [];
    var rest := s;
    while rest != {}
      invariant rest <= s
      invariant StrictlySorted(r)
      invariant forall d :: d in r <==> d in s - rest
      decreases rest
    {
      var d :| d in rest;
      r := InsertSorted(r, d);
      rest := rest - {d};
    }
  }

  /** What `_save` reads from the uploaded Django file. */
  datatype Content = Content(
    data: seq<bv8>,
    /** `content.file.size`, when the inner file has that attribute. */
    fileSize: Option<int>,
    size: int,
    /** `content.file.content_type`, when the inner file has that attribute. */
    fileContentType: Option<Option<string>>,
    /** `content.content_type`, when the content has that attribute. */
    contentType: Option<Option<string>>)

  /** The content type `_save` sends: the inner file's, else the content's, else the guess from the name. */
  function ContentTypeOf(content: Content, name: string, guess: string -> Option<string>): (r: Option<string>)
    ensures content.fileContentType.Some? ==> r == content.fileContentType.value
    ensures content.fileContentType.None? && content.contentType.Some? ==> r == content.contentType.value
    ensures content.fileContentType.None? && content.contentType.None? ==> r == guess(name)
  {
    if content.fileContentType.Some? then content.fileContentType.value
    else if content.contentType.Some? then content.contentType.value
    else guess(name)
  }

  /** The object `_save`'s `put_object` stores. */
  function Uploaded(content: Content, name: string, guess: string -> Option<string>, now: int): (r: StoredObject)
    ensures r.data == content.data && r.contentType == ContentTypeOf(content, name, guess)
    ensures r.contentLength == (if content.fileSize.Some? then content.fileSize.value else content.size)
  {
    StoredObject(content.data, ContentTypeOf(content, name, guess),
                 if content.fileSize.Some? then content.fileSize.value else content.size,
                 map[], None, now)
  }

  /** `__init__`: computes the public URI first; if that raises, no storage is built. */
  method Connect(remote: Container, containerName: string, s: UriSettings, cdnPublicUri: Option<string>)
    returns (r: Result<Storage>)
    ensures r.Err? <==> ContainerUri(s, cdnPublicUri).Err?
    ensures r.Err? ==> r.error == ContainerUri(s, cdnPublicUri).error
    ensures r.Ok? ==> && fresh(r.value) && r.value.remote == remote && r.value.Synced()
                      && r.value.containerPublicUri == ContainerUri(s, cdnPublicUri).value
  {
    match ContainerUri(s, cdnPublicUri) {
      case Err(e) => r := Err(e);
      case Ok(uri) =>
        var st := new Storage(remote, containerName, uri);
        r := Ok(st);
    }
  }

  /** The answer of the file object's `read(size=n, offset=o)`: at most n bytes from o, or to the end when n is -1. */
  function ReadAt(content: seq<bv8>, n: int, offset: int): seq<bv8>
  {
    if offset < 0 || offset > |content| then []
    else if n < 0 then content[offset..]
    else if offset + n <= |content| then content[offset..offset + n]
    else content[offset..]
  }

  /** What one `read` returns and the cursor after it. */
  datatype ReadResult = ReadResult(data: Result<seq<bv8>>, pos: int)

  /**
   * `SwiftclientStorageFile.read(num_bytes)`. The size comes from `_size`;
   * when it was never set, `storage.size(name)` asks a bool for `.size` and
   * raises AttributeError. Past the end-of-file check this is the read the
   * method is written to make, over the object's bytes: the source's
   * `_get_file` raises AttributeError before any byte is read, because it
   * assigns `tell` on the tuple `get_object` returns.
   */
  function ReadSpec(content: seq<bv8>, size: Option<int>, pos: int, numBytes: Option<int>): ReadResult
  {
    if size.None? then ReadResult(Err(AttributeError("size")), pos)
    else if pos == size.value then ReadResult(Ok([]), pos)
    else
      var n := if numBytes.Some? && numBytes.value != 0 && pos + numBytes.value > size.value
               then Some(size.value - pos) else numBytes;
      var data := ReadAt(content, if n.Some? && n.value != 0 then n.value else -1, pos);
      ReadResult(Ok(data), pos + |data|)
  }

  /** At the end, `read` returns "" and the cursor stays. */
  lemma ReadAtEnd(content: seq<bv8>, size: int, numBytes: Option<int>)
    ensures ReadSpec(content, Some(size), size, numBytes) == ReadResult(Ok([]), size)
  {
  }

  /**
   * On a file whose size is its length, a positive count is clamped to the
   * bytes left: the data is the next bytes from the cursor, at most that
   * many, and the cursor moves past them without passing the end.
   */
  lemma ReadClamped(content: seq<bv8>, pos: int, n: int)
    requires 0 <= pos < |content| && n > 0
    ensures var r := ReadSpec(content, Some(|content|), pos, Some(n));
      && r.data.Ok?
      && r.data.value == content[pos..if pos + n <= |content| then pos + n else |content|]
      && 0 < |r.data.value| <= n
      && r.pos == pos + |r.data.value| <= |content|
  {
  }

  /** `read()` and `read(0)` both read from the cursor to the end. */
  lemma ReadRest(content: seq<bv8>, pos: int, numBytes: Option<int>)
    requires 0 <= pos <= |content|
    requires numBytes == None || numBytes == Some(0)
    ensures var r := ReadSpec(content, Some(|content|), pos, numBytes);
      r == ReadResult(Ok(content[pos..]), |content|)
  {
    if pos == |content| {
      assert content[pos..] == [];
    }
  }

  /** The bytes of successive `read(n)` calls from a cursor until "" comes back. */
  function ReadChunks(content: seq<bv8>, pos: int, n: int): seq<bv8>
    requires 0 <= pos <= |content| && n > 0
    decreases |content| - pos
  {
    if pos == |content| then []
    else
      ReadClamped(content, pos, n);
      var r := ReadSpec(content, Some(|content|), pos, Some(n));
      r.data.value + ReadChunks(content, r.pos, n)
  }

  /** Reading in chunks of any positive size yields exactly the rest of the object. */
  lemma {:induction false} ReadChunksRest(content: seq<bv8>, pos: int, n: int)
    requires 0 <= pos <= |content| && n > 0
    ensures ReadChunks(content, pos, n) == content[pos..]
    decreases |content| - pos
  {
    if pos < |content| {
      ReadClamped(content, pos, n);
      var r := ReadSpec(content, Some(|content|), pos, Some(n));
      ReadChunksRest(content, r.pos, n);
      assert content[pos..] == r.data.value + content[r.pos..];
    }
  }

  /** `SwiftclientStorageFile`: a cursor over a remote object. */
  class StorageFile {
    /** `_pos`. */
    var pos: int
    /** `_size`; None until the `size` property is assigned. */
    var size: Option<int>
    /** The object's bytes, as the file object's `read` serves them. */
    var content: seq<bv8>

    constructor(content: seq<bv8>)
      ensures pos == 0 && size == None && this.content == content
    {
      pos := 0;
      size := None;
      this.content := content;
    }

    /** The `size` property's setter. */
    method SetSize(n: int)
      modifies this`size
      ensures size == Some(n)
    {
      size := Some(n);
    }

    method Read(numBytes: Option<int>) returns (data: Result<seq<bv8>>)
      modifies this`pos
      ensures ReadResult(data, pos) == ReadSpec(content, size, old(pos), numBytes)
    {
      if size.None? {
        data := Err(AttributeError("size"));
        return;
      }
      if pos == size.value {
        data := Ok([]);
        return;
      }
      var n := numBytes;
      if n.Some? && n.value != 0 && pos + n.value > size.value {
        n := Some(size.value - pos);
      }
      var bytes := ReadAt(content, if n.Some? && n.value != 0 then n.value else -1, pos);
      pos := pos + |bytes|;
      data := Ok(bytes);
    }

    method Seek(p: int)
      modifies this`pos
      ensures pos == p
    {
      pos := p;
    }

    method Open()
      modifies this`pos
      ensures pos == 0
    {
      pos := 0;
    }

    method Close()
      modifies this`pos
      ensures pos == 0
    {
      pos := 0;
    }
  }
}
