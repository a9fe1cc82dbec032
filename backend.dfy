/**
 * The remote object store as the modelled code sees it through its client
 * libraries (swiftclient, pyrax, python-cloudfiles). Only the effect of each
 * call on the container's objects is modelled; the wire protocol is not.
 */
module Backend {
  import opened Common
  import opened Ordering

  /** An object as stored in a container. */
  datatype StoredObject = StoredObject(
    data: seq<bv8>,
    contentType: Option<string>,
    contentLength: int,
    headers: map<string, string>,
    ttl: Option<int>,
    lastModified: int)

  /** One answer to `list_objects(limit=..., marker=...)`. */
  datatype ListReply = IOError | Page(names: seq<string>)

  /** The answer of a scripted listing to the next request: an exhausted script answers an empty page. */
  function NextReply(replies: seq<ListReply>): ListReply
  {
    if replies == [] then Page([]) else replies[0]
  }

  /** The script after one request. */
  function RestReplies(replies: seq<ListReply>): (r: seq<ListReply>)
    ensures replies != [] ==> |r| == |replies| - 1
    ensures replies == [] ==> r == []
  {
    if replies == [] then [] else replies[1..]
  }

  /** The arguments of one `list_objects` request. */
  datatype ListCall = ListCall(limit: int, marker: Option<string>)

  /** The answer to `head_object`: the Last-Modified header or a ClientException. */
  datatype HeadResult = HeadOk(lastModified: Option<int>) | HeadFailed(msg: string, httpStatus: int)

  /** swiftclient's message for every failed HEAD of an object. */
  const HEAD_FAILED := "Object HEAD failed"
  const DELETE_FAILED := "Object DELETE failed"
  const CONTAINER_DELETE_FAILED := "Container DELETE failed"

  predicate Distinct<T(==)>(s: seq<T>)
  {
    forall i, j :: 0 <= i < j < |s| ==> s[i] != s[j]
  }

  /** Dropping the last element keeps the rest distinct, and the last element is not among them. */
  lemma DistinctInit<T>(s: seq<T>)
    requires Distinct(s) && s != []
    ensures Distinct(s[..|s| - 1]) && s[|s| - 1] !in s[..|s| - 1]
  {
  }

  /** The names of a container's objects in the order the service lists them: sorted by name. */
  ghost function Listing(objects: map<string, StoredObject>): (r: seq<string>)
    ensures StrictlySorted(r)
    ensures forall n :: n in r <==> n in objects
  {
    SortedSeq(objects.Keys)
  }

  lemma SortedIsDistinct(s: seq<string>)
    requires StrictlySorted(s)
    ensures Distinct(s)
  {
    forall i, j | 0 <= i < j < |s|
      ensures s[i] != s[j]
    {
      StrLtIrreflexive(s[i]);
    }
  }

  /** HEAD of an object: a configured server failure, the object's time, or 404. */
  function Head(objects: map<string, StoredObject>, headFailures: map<string, string>, name: string): (r: HeadResult)
    ensures name !in headFailures && name !in objects ==> r == HeadFailed(HEAD_FAILED, 404)
    ensures name !in headFailures && name in objects ==> r == HeadOk(Some(objects[name].lastModified))
  {
    if name in headFailures then HeadFailed(headFailures[name], 500)
    else if name in objects then HeadOk(Some(objects[name].lastModified))
    else HeadFailed(HEAD_FAILED, 404)
  }

  /** The objects after `delete_object(name)` and the exception it raises, if any. */
  datatype DeleteEffect = DeleteEffect(objects: map<string, StoredObject>, error: Option<Error>)

  function Delete(objects: map<string, StoredObject>, failing: set<string>, name: string): (r: DeleteEffect)
    ensures r.error.None? <==> name in objects && name !in failing
    ensures r.error.None? ==> r.objects == objects - {name}
    ensures r.error.Some? ==> r.objects == objects
  {
    if name in failing then DeleteEffect(objects, Some(ClientException(DELETE_FAILED, 500)))
    else if name !in objects then DeleteEffect(objects, Some(ClientException(DELETE_FAILED, 404)))
    else DeleteEffect(objects - {name}, None)
  }

  /** The remote container. */
  class Container {
    var objects: map<string, StoredObject>
    /** Objects whose HEAD fails with a server error, and its message. */
    var headFailures: map<string, string>
    /** Objects whose DELETE fails with a server error. */
    var failing: set<string>
    /** The answers the service gives to the next `list_objects` requests. */
    var listReplies: seq<ListReply>
    /** Every `list_objects` request made so far. */
    var listCalls: seq<ListCall>
    /** Every name passed to `delete_object` so far. */
    var deleteAttempts: seq<string>
    var isDeleted: bool

    constructor(objects: map<string, StoredObject>, headFailures: map<string, string>,
                failing: set<string>, listReplies: seq<ListReply>)
      ensures this.objects == objects && this.headFailures == headFailures
      ensures this.failing == failing && this.listReplies == listReplies
      ensures listCalls == [] && deleteAttempts == [] && !isDeleted
    {
      this.objects := objects;
      this.headFailures := headFailures;
      this.failing := failing;
      this.listReplies := listReplies;
      listCalls := [];
      deleteAttempts := [];
      isDeleted := false;
    }

    /** `put_object` / `create`: stores the object under the name, replacing any old one. */
    method Put(name: string, obj: StoredObject)
      modifies this`objects
      ensures objects == old(objects)[name := obj]
    {
      objects := objects[name := obj];
    }

    method HeadObject(name: string) returns (r: HeadResult)
      ensures r == Head(objects, headFailures, name)
    {
      r := Head(objects, headFailures, name);
    }

    /** `delete_object`: removes the object, or raises ClientException (404 when absent). */
    method DeleteObject(name: string) returns (err: Option<Error>)
      modifies this`objects, this`deleteAttempts
      ensures deleteAttempts == old(deleteAttempts) + [name]
      ensures objects == Delete(old(objects), failing, name).objects
      ensures err == Delete(old(objects), failing, name).error
    {
      deleteAttempts := deleteAttempts + [name];
      var effect := Delete(objects, failing, name);
      objects := effect.objects;
      err := effect.error;
    }

    /** `list_objects`: the next scripted answer; once the script is used up, an empty page. */
    method ListObjects(limit: int, marker: Option<string>) returns (r: ListReply)
      modifies this`listReplies, this`listCalls
      ensures listCalls == old(listCalls) + [ListCall(limit, marker)]
      ensures r == NextReply(old(listReplies)) && listReplies == RestReplies(old(listReplies))
    {
      listCalls := listCalls + [ListCall(limit, marker)];
      if listReplies == [] {
        r := Page([]);
      } else {
        r := listReplies[0];
        listReplies := listReplies[1..];
      }
    }

    /** `get_objects()` / the container listing: every object name once, in name order. */
    method ListNames() returns (names: seq<string>)
      ensures names == Listing(objects)
      ensures Distinct(names)
    {
      names := [];
      var rest := objects.Keys;
      while rest != {}
        invariant rest <= objects.Keys
        invariant StrictlySorted(names)
        invariant forall n :: n in names <==> n in objects.Keys - rest
        decreases rest
      {
        var n :| n in rest;
        names := InsertSorted(names, n);
        rest := rest - {n};
      }
      StrictlySortedUnique(names, Listing(objects));
      SortedIsDistinct(names);
    }

    /** `delete_container`: the service refuses (409) while objects remain. */
    method DeleteContainer() returns (err: Option<Error>)
      modifies this`isDeleted
      ensures err.None? <==> objects == map[]
      ensures err.Some? ==> err.value == ClientException(CONTAINER_DELETE_FAILED, 409)
      ensures isDeleted == (old(isDeleted) || objects == map[])
    {
      if objects == map[] {
        isDeleted := true;
        err := None;
      } else {
        err := Some(ClientException(CONTAINER_DELETE_FAILED, 409));
      }
    }
  }
}
