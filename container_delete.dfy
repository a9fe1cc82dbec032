/**
 * `container_delete`: empty a container by listing it page by page onto a
 * queue of batches, draining the queue with delete workers, and finally
 * deleting the container itself.
 */
module ContainerDelete {
  import opened Common
  import opened Backend

  const USAGE := "django-admin.py container_delete <container_name>"
  const ABORTED := "Aborted"
  /** The `limit` that `handle` leaves `fetch_more` at: its default. */
  const FETCH_LIMIT := 1000

  /** How `handle` ends: normally, with an exception, or never. */
  datatype Outcome = Completed | Raised(error: Error) | Hangs

  // ---------------------------------------------------------------------------
  // The retry loop of `fetch_more`
  // ---------------------------------------------------------------------------

  /** The page obtained (None when no request succeeded), the limit of each request made, and the unused replies. */
  datatype Fetched = Fetched(objs: Option<seq<string>>, limits: seq<int>, rest: seq<ListReply>)

  /** The retry loop: on IOError the limit is halved and the request retried while the limit stays above 5. */
  function FetchLoop(limit: int, replies: seq<ListReply>): Fetched
    decreases limit
  {
    if limit <= 5 then Fetched(None, [], replies)
    else match NextReply(replies)
      case Page(names) => Fetched(Some(names), [limit], RestReplies(replies))
      case IOError =>
        var r := FetchLoop(limit / 2, RestReplies(replies));
        Fetched(r.objs, [limit] + r.limits, r.rest)
  }

  /** How many requests the retry loop makes at most from a limit. */
  function Attempts(limit: int): nat
    decreases limit
  {
    if limit <= 5 then 0 else 1 + Attempts(limit / 2)
  }

  /** The limit after `k` halvings. */
  function Halved(limit: int, k: nat): int
    decreases k
  {
    if k == 0 then limit else Halved(limit / 2, k - 1)
  }

  /** The requests use the limit, then its halves, each above 5, and there are at most Attempts(limit) of them. */
  lemma {:induction false} FetchLoopLimits(limit: int, replies: seq<ListReply>)
    ensures var r := FetchLoop(limit, replies);
      && |r.limits| <= Attempts(limit)
      && (forall i :: 0 <= i < |r.limits| ==> r.limits[i] == Halved(limit, i) && r.limits[i] > 5)
    decreases limit
  {
    if limit > 5 && NextReply(replies).IOError? {
      FetchLoopLimits(limit / 2, RestReplies(replies));
      var r := FetchLoop(limit, replies);
      var t := FetchLoop(limit / 2, RestReplies(replies));
      assert r.limits == [limit] + t.limits;
      forall i | 0 < i < |r.limits|
        ensures r.limits[i] == Halved(limit, i)
      {
        assert r.limits[i] == t.limits[i - 1];
      }
    }
  }

  /** Each request the retry loop can make from `limit` (Attempts(limit) of them) answers IOError. */
  predicate AllFail(limit: int, replies: seq<ListReply>)
    decreases limit
  {
    limit <= 5 || (replies != [] && replies[0].IOError? && AllFail(limit / 2, replies[1..]))
  }

  /** The `i`-th reply of the script is an IOError. */
  predicate FailsAt(replies: seq<ListReply>, i: nat)
  {
    i < |replies| && replies[i].IOError?
  }

  /** AllFail asks exactly that the first Attempts(limit) replies are IOErrors. */
  lemma {:induction false} AllFailMeans(limit: int, replies: seq<ListReply>)
    ensures AllFail(limit, replies) <==> forall i: nat :: i < Attempts(limit) ==> FailsAt(replies, i)
    decreases limit
  {
    if limit > 5 {
      assert Attempts(limit) == 1 + Attempts(limit / 2);
      if replies != [] && replies[0].IOError? {
        var tail := replies[1..];
        AllFailMeans(limit / 2, tail);
        assert forall i: nat :: FailsAt(tail, i) <==> FailsAt(replies, i + 1);
        if forall i: nat :: i < Attempts(limit / 2) ==> FailsAt(tail, i) {
          forall i: nat | i < Attempts(limit)
            ensures FailsAt(replies, i)
          {
            if i > 0 {
              assert FailsAt(tail, i - 1);
            }
          }
        }
        if forall i: nat :: i < Attempts(limit) ==> FailsAt(replies, i) {
          forall i: nat | i < Attempts(limit / 2)
            ensures FailsAt(tail, i)
          {
            assert FailsAt(replies, i + 1);
          }
        }
      } else {
        assert !FailsAt(replies, 0);
      }
    }
  }

  /**
   * No page is obtained exactly when every request the loop can make answers
   * IOError; the listing is then marked done without an exception.
   */
  lemma {:induction false} FetchLoopFails(limit: int, replies: seq<ListReply>)
    ensures FetchLoop(limit, replies).objs.None? <==> AllFail(limit, replies)
    decreases limit
  {
    if limit > 5 && replies != [] && replies[0].IOError? {
      FetchLoopFails(limit / 2, replies[1..]);
    }
  }

  /** Every request takes one reply off the script, and an exhausted script answers an empty page. */
  lemma {:induction false} FetchLoopConsumes(limit: int, replies: seq<ListReply>)
    requires limit > 5
    ensures var r := FetchLoop(limit, replies);
      && (replies != [] ==> |r.rest| < |replies|)
      && (replies == [] ==> r.objs == Some([]) && r.rest == [])
    decreases limit
  {
    if NextReply(replies).IOError? && limit / 2 > 5 {
      FetchLoopConsumes(limit / 2, RestReplies(replies));
      FetchLoopRestShorter(limit / 2, RestReplies(replies));
    }
  }

  lemma {:induction false} FetchLoopRestShorter(limit: int, replies: seq<ListReply>)
    ensures |FetchLoop(limit, replies).rest| <= |replies|
    decreases limit
  {
    if limit > 5 && NextReply(replies).IOError? {
      FetchLoopRestShorter(limit / 2, RestReplies(replies));
    }
  }

  /** From the default limit the requests ask for 1000, 500, 250, 125, 62, 31, 15 and 7 names: eight at most. */
  lemma DefaultBackoff()
    ensures Attempts(FETCH_LIMIT) == 8
    ensures Halved(FETCH_LIMIT, 7) == 7 && Halved(FETCH_LIMIT, 8) == 3
  {
    assert Attempts(7) == 1 + Attempts(3) == 1;
    assert Attempts(15) == 2 && Attempts(31) == 3 && Attempts(62) == 4;
    assert Attempts(125) == 5 && Attempts(250) == 6 && Attempts(500) == 7;
    assert Halved(7, 0) == 7 && Halved(15, 1) == 7 && Halved(31, 2) == 7 && Halved(62, 3) == 7;
    assert Halved(125, 4) == 7 && Halved(250, 5) == 7 && Halved(500, 6) == 7;
    assert Halved(3, 0) == 3 && Halved(7, 1) == 3 && Halved(15, 2) == 3 && Halved(31, 3) == 3;
    assert Halved(62, 4) == 3 && Halved(125, 5) == 3 && Halved(250, 6) == 3 && Halved(500, 7) == 3;
  }

  /** The outcome of the rest of the retry loop after the requests with `limits`. */
  function Prepend(limits: seq<int>, f: Fetched): Fetched
  {
    Fetched(f.objs, limits + f.limits, f.rest)
  }

  /** One request of the retry loop: a page ends it, an IOError continues from half the limit. */
  lemma FetchLoopStep(limits: seq<int>, lim: int, replies: seq<ListReply>)
    requires lim > 5
    ensures NextReply(replies).IOError? ==>
      Prepend(limits, FetchLoop(lim, replies)) == Prepend(limits + [lim], FetchLoop(lim / 2, RestReplies(replies)))
    ensures NextReply(replies).Page? ==>
      Prepend(limits, FetchLoop(lim, replies)) == Fetched(Some(NextReply(replies).names), limits + [lim], RestReplies(replies))
  {
    if NextReply(replies).IOError? {
      var g := FetchLoop(lim / 2, RestReplies(replies));
      assert limits + ([lim] + g.limits) == limits + [lim] + g.limits;
    }
  }

  /** The requests of one `fetch_more`, all with the same marker. */
  function Calls(limits: seq<int>, marker: Option<string>): (r: seq<ListCall>)
    ensures |r| == |limits|
  {
    seq(|limits|, i requires 0 <= i < |limits| => ListCall(limits[i], marker))
  }

  lemma CallsSnoc(limits: seq<int>, lim: int, marker: Option<string>)
    ensures Calls(limits + [lim], marker) == Calls(limits, marker) + [ListCall(lim, marker)]
  {
    var a := Calls(limits + [lim], marker);
    var b := Calls(limits, marker) + [ListCall(lim, marker)];
    assert forall i :: 0 <= i < |a| ==> a[i] == b[i];
  }

  /** The batches `fetch_more` puts on the queue: consecutive slices of `n` names. */
  function Batches(objs: seq<string>, n: int): seq<seq<string>>
    requires n > 0
    decreases |objs|
  {
    if objs == [] then []
    else if |objs| <= n then [objs]
    else [objs[..n]] + Batches(objs[n..], n)
  }

  /**
   * The batches are non-empty, hold at most `n` names each (all but the last
   * exactly `n`), and concatenated in queue order they give the page back.
   */
  lemma {:induction false} BatchesPartition(objs: seq<string>, n: int)
    requires n > 0
    ensures var bs := Batches(objs, n);
      && Flatten(bs) == objs
      && (forall i :: 0 <= i < |bs| ==> 0 < |bs[i]| <= n)
      && (forall i :: 0 <= i < |bs| - 1 ==> |bs[i]| == n)
      && (objs != [] <==> bs != [])
    decreases |objs|
  {
    if |objs| > n {
      BatchesPartition(objs[n..], n);
      var bs := Batches(objs, n);
      var tail := Batches(objs[n..], n);
      assert bs == [objs[..n]] + tail;
      FlattenConcat([objs[..n]], tail);
      assert Flatten([objs[..n]]) == objs[..n] by {
        FlattenAppend([], objs[..n]);
      }
      assert objs == objs[..n] + objs[n..];
      forall i | 0 < i < |bs|
        ensures 0 < |bs[i]| <= n && (i < |bs| - 1 ==> |bs[i]| == n)
      {
        assert bs[i] == tail[i - 1];
      }
    } else if objs != [] {
      FlattenAppend([], objs);
    }
  }

  lemma BatchesFlatten(page: seq<string>, n: int)
    requires n > 0
    ensures Flatten(Batches(page, n)) == page
  {
    BatchesPartition(page, n);
  }

  /** Queuing a page in batches keeps the queued names and the listed names in step. */
  lemma QueuedPageAccounted(attempted: seq<string>, queue: seq<seq<string>>, listed: seq<string>,
                            page: seq<string>, n: int)
    requires n > 0 && attempted + Flatten(queue) == listed
    ensures attempted + Flatten(queue + Batches(page, n)) == listed + page
  {
    BatchesFlatten(page, n);
    FlattenConcat(queue, Batches(page, n));
    AppendAssoc(attempted, Flatten(queue), page);
  }

  lemma AppendAssoc<T>(a: seq<T>, b: seq<T>, c: seq<T>)
    ensures a + (b + c) == (a + b) + c
  {
  }

  /** The listing state `fetch_more` updates. */
  datatype Fetcher = Fetcher(marker: Option<string>, isFetchDone: bool, queue: seq<seq<string>>)

  function PageOf(objs: Option<seq<string>>): seq<string>
  {
    if objs.None? then [] else objs.value
  }

  /** With a non-positive batch size the slicing loop never empties a non-empty page. */
  predicate FetchHangs(objs: Option<seq<string>>, batchSize: int)
  {
    PageOf(objs) != [] && batchSize <= 0
  }

  /** The listing state after `fetch_more` obtained `objs`. */
  function AfterFetch(s: Fetcher, objs: Option<seq<string>>, batchSize: int): Fetcher
    requires !FetchHangs(objs, batchSize)
  {
    if PageOf(objs) == [] then s.(isFetchDone := true)
    else Fetcher(Some(Last(objs.value)), s.isFetchDone, s.queue + Batches(objs.value, batchSize))
  }

  /**
   * No page (or an empty one) marks the listing done and keeps the marker and
   * the queue; a page moves the marker to its last name and adds its names
   * to the queue, in order, in at least one new batch.
   */
  lemma AfterFetchEffect(s: Fetcher, objs: Option<seq<string>>, batchSize: int)
    requires !FetchHangs(objs, batchSize)
    ensures var t := AfterFetch(s, objs, batchSize);
      && (t.isFetchDone <==> s.isFetchDone || PageOf(objs) == [])
      && (PageOf(objs) == [] ==> t.marker == s.marker && t.queue == s.queue)
      && (PageOf(objs) != [] ==> t.marker == Some(objs.value[|objs.value| - 1]) && |t.queue| > |s.queue|)
      && Flatten(t.queue) == Flatten(s.queue) + PageOf(objs)
  {
    if PageOf(objs) != [] {
      BatchesPartition(objs.value, batchSize);
      FlattenConcat(s.queue, Batches(objs.value, batchSize));
    }
  }

  /**
   * The names successive `fetch_more` calls list from the script: the page
   * of each retry loop, in order, up to the first call that obtains no page
   * or an empty one.
   */
  ghost function PagesListed(replies: seq<ListReply>): seq<string>
    decreases |replies|
  {
    var f := FetchLoop(FETCH_LIMIT, replies);
    if PageOf(f.objs) == [] then []
    else
      FetchLoopConsumes(FETCH_LIMIT, replies);
      f.objs.value + PagesListed(f.rest)
  }

  /** A script of pages only, none of them empty, lists every page in order, as many as there are. */
  lemma {:induction false} PagesListedAllPages(replies: seq<ListReply>)
    requires forall i :: 0 <= i < |replies| ==> replies[i].Page? && replies[i].names != []
    ensures PagesListed(replies) == Flatten(seq(|replies|, i requires 0 <= i < |replies| => replies[i].names))
    decreases |replies|
  {
    var pages := seq(|replies|, i requires 0 <= i < |replies| => replies[i].names);
    if replies != [] {
      var tail := replies[1..];
      PagesListedAllPages(tail);
      var tailPages := seq(|tail|, i requires 0 <= i < |tail| => tail[i].names);
      assert pages[1..] == tailPages;
      assert FetchLoop(FETCH_LIMIT, replies) == Fetched(Some(replies[0].names), [FETCH_LIMIT], tail);
    }
  }

  /** An empty page ends the listing: whatever the script holds after it is never listed. */
  lemma PagesListedStopsAtEmpty(names: seq<string>, later: seq<ListReply>)
    ensures PagesListed([Page(names), Page([])] + later) == names
  {
    var replies := [Page(names), Page([])] + later;
    assert FetchLoop(FETCH_LIMIT, replies) == Fetched(Some(names), [FETCH_LIMIT], replies[1..]);
    assert FetchLoop(FETCH_LIMIT, replies[1..]) == Fetched(Some([]), [FETCH_LIMIT], replies[2..]);
  }

  // ---------------------------------------------------------------------------
  // The delete workers
  // ---------------------------------------------------------------------------

  /** The objects left after `delete_object` of each name in turn, failures ignored. */
  function DeleteEach(objects: map<string, StoredObject>, failing: set<string>, names: seq<string>): map<string, StoredObject>
  {
    if names == [] then objects
    else Delete(DeleteEach(objects, failing, names[..|names| - 1]), failing, Last(names)).objects
  }

  /** Exactly the named objects that do not fail are gone; the others keep their content. */
  lemma {:induction false} DeleteEachEffect(objects: map<string, StoredObject>, failing: set<string>, names: seq<string>)
    ensures var r := DeleteEach(objects, failing, names);
      && (forall n :: n in r <==> n in objects && (n !in names || n in failing))
      && (forall n :: n in r ==> r[n] == objects[n])
  {
    if names != [] {
      var init := names[..|names| - 1];
      DeleteEachEffect(objects, failing, init);
      assert forall n :: n in names <==> n in init || n == Last(names);
    }
  }

  /** Deleting one more name after a prefix. */
  lemma DeleteEachSnoc(objects: map<string, StoredObject>, failing: set<string>, names: seq<string>, i: nat)
    requires i < |names|
    ensures DeleteEach(objects, failing, names[..i + 1])
         == Delete(DeleteEach(objects, failing, names[..i]), failing, names[i]).objects
  {
    assert names[..i + 1][..i] == names[..i];
  }

  /**
   * The `delete` worker for one batch: every name gets a `delete_object`
   * call, and an exception on one name does not stop the others.
   */
  method DeleteBatch(container: Container, batch: seq<string>)
    modifies container`objects, container`deleteAttempts
    ensures container.deleteAttempts == old(container.deleteAttempts) + batch
    ensures container.objects == DeleteEach(old(container.objects), container.failing, batch)
  {
    var j := 0;
    while j < |batch|
      invariant 0 <= j <= |batch|
      invariant container.deleteAttempts == old(container.deleteAttempts) + batch[..j]
      invariant container.objects == DeleteEach(old(container.objects), container.failing, batch[..j])
    {
      DeleteEachSnoc(old(container.objects), container.failing, batch, j);
      var _ := container.DeleteObject(batch[j]);
      assert batch[..j + 1] == batch[..j] + [batch[j]];
      j := j + 1;
    }
    assert batch[..j] == batch;
  }

  /** Deleting a batch after the names already deleted. */
  lemma DeleteEachConcat(objects: map<string, StoredObject>, failing: set<string>, names: seq<string>, batch: seq<string>)
    ensures DeleteEach(DeleteEach(objects, failing, names), failing, batch) == DeleteEach(objects, failing, names + batch)
    decreases |batch|
  {
    if batch == [] {
      assert names + batch == names;
    } else {
      var init := batch[..|batch| - 1];
      DeleteEachConcat(objects, failing, names, init);
      assert (names + batch)[..|names + batch| - 1] == names + init;
      assert Last(names + batch) == Last(batch);
      assert DeleteEach(objects, failing, names + batch)
          == Delete(DeleteEach(objects, failing, names + init), failing, Last(batch)).objects;
      assert DeleteEach(DeleteEach(objects, failing, names), failing, batch)
          == Delete(DeleteEach(DeleteEach(objects, failing, names), failing, init), failing, Last(batch)).objects;
    }
  }

  /**
   * The workers taking `k` batches off the front of the queue (all of them
   * when fewer remain), in queue order; the rest of the queue is returned.
   */
  method Worker(container: Container, queue: seq<seq<string>>, k: nat) returns (rest: seq<seq<string>>)
    modifies container`objects, container`deleteAttempts
    ensures var n := if k <= |queue| then k else |queue|;
      && rest == queue[n..]
      && container.deleteAttempts == old(container.deleteAttempts) + Flatten(queue[..n])
      && container.objects == DeleteEach(old(container.objects), container.failing, Flatten(queue[..n]))
  {
    var n := if k <= |queue| then k else |queue|;
    var i := 0;
    while i < n
      invariant 0 <= i <= n
      invariant container.deleteAttempts == old(container.deleteAttempts) + Flatten(queue[..i])
      invariant container.objects == DeleteEach(old(container.objects), container.failing, Flatten(queue[..i]))
    {
      ghost var done := Flatten(queue[..i]);
      ghost var attempts := container.deleteAttempts;
      DeleteBatch(container, queue[i]);
      assert queue[..i + 1] == queue[..i] + [queue[i]];
      FlattenAppend(queue[..i], queue[i]);
      assert Flatten(queue[..i + 1]) == done + queue[i];
      assert container.deleteAttempts == attempts + queue[i];
      assert attempts + queue[i] == old(container.deleteAttempts) + (done + queue[i]);
      DeleteEachConcat(old(container.objects), container.failing, done, queue[i]);
      i := i + 1;
    }
    rest := queue[n..];
  }

  // ---------------------------------------------------------------------------
  // The command
  // ---------------------------------------------------------------------------

  class Command {
    var marker: Option<string>
    var isFetchDone: bool
    var batchSize: int
    /** The multiprocessing queue of batches shared with the workers. */
    var queue: seq<seq<string>>
    /** How many `delete` worker processes are still running. */
    var liveWorkers: int
    /** Every name put on the queue so far, in order. */
    ghost var listed: seq<string>
    /** Every name the workers have taken off the queue and tried to delete, in order. */
    ghost var attempted: seq<string>
    /** The container `handle` obtained from the connection. */
    var container: Container

    /** `__init__`: no marker, listing not done, batch size 0. */
    constructor(container: Container)
      ensures this.container == container
      ensures marker == None && !isFetchDone && batchSize == 0
      ensures queue == [] && liveWorkers == 0 && listed == [] && attempted == []
    {
      this.container := container;
      marker := None;
      isFetchDone := false;
      batchSize := 0;
      queue := [];
      liveWorkers := 0;
      listed := [];
      attempted := [];
    }

    function State(): Fetcher
      reads this`marker, this`isFetchDone, this`queue
    {
      Fetcher(marker, isFetchDone, queue)
    }

    /**
     * Every name put on the queue has been tried or is still queued, the
     * container's delete log is `base` followed by the names tried, and the
     * objects are those of `objects0` after deleting them.
     */
    ghost predicate Accounted(base: seq<string>, objects0: map<string, StoredObject>)
      reads this`queue, this`listed, this`attempted, this`container
      reads container`deleteAttempts, container`objects, container`failing
    {
      && container.deleteAttempts == base + attempted
      && attempted + Flatten(queue) == listed
      && container.objects == DeleteEach(objects0, container.failing, attempted)
    }

    /**
     * The names queued so far, followed by what the rest of the script still
     * lists (nothing once the listing is done), are what the script `orig`
     * lists.
     */
    ghost predicate ListedSoFar(orig: seq<ListReply>)
      reads this`listed, this`isFetchDone, this`container, container`listReplies
    {
      listed + (if isFetchDone then [] else PagesListed(container.listReplies)) == PagesListed(orig)
    }

    /** `fetch_more`: obtain the next page (retrying on IOError) and queue it in batches. */
    method FetchMore(limit: int, ghost base: seq<string>, ghost objects0: map<string, StoredObject>)
      returns (hangs: bool)
      requires Accounted(base, objects0)
      modifies this`marker, this`isFetchDone, this`queue, this`listed, container`listReplies, container`listCalls
      ensures Accounted(base, objects0)
      ensures var f := FetchLoop(limit, old(container.listReplies));
        && container.listReplies == f.rest
        && container.listCalls == old(container.listCalls) + Calls(f.limits, old(marker))
        && hangs == FetchHangs(f.objs, batchSize)
        && (!hangs ==> State() == AfterFetch(old(State()), f.objs, batchSize) && listed == old(listed) + PageOf(f.objs))
      ensures hangs ==> queue == old(queue) && listed == old(listed)
    {
      var objs := ListWithBackoff(limit);
      if objs.None? || objs.value == [] {
        isFetchDone := true;
        return false;
      }
      marker := Some(objs.value[|objs.value| - 1]);
      if batchSize <= 0 {
        return true;
      }
      ghost var queue0 := queue;
      ghost var listed0 := listed;
      Enqueue(objs.value);
      listed := listed + objs.value;
      hangs := false;
      QueuedPageAccounted(attempted, queue0, listed0, objs.value, batchSize);
    }

    /** A `fetch_more` from the default limit that does not hang keeps the listing in step with the script. */
    method FetchNext(ghost base: seq<string>, ghost objects0: map<string, StoredObject>, ghost orig: seq<ListReply>)
      returns (hangs: bool)
      requires !isFetchDone && Accounted(base, objects0) && ListedSoFar(orig)
      modifies this`marker, this`isFetchDone, this`queue, this`listed, container`listReplies, container`listCalls
      ensures Accounted(base, objects0)
      ensures !hangs ==> ListedSoFar(orig)
      ensures hangs ==> batchSize <= 0 && queue == old(queue)
      ensures !hangs && !isFetchDone ==> |queue| > |old(queue)| && |container.listReplies| < |old(container.listReplies)|
      ensures |container.listReplies| <= |old(container.listReplies)| && |queue| >= |old(queue)|
    {
      ghost var replies := container.listReplies;
      ghost var f := FetchLoop(FETCH_LIMIT, replies);
      ghost var s0 := State();
      hangs := FetchMore(FETCH_LIMIT, base, objects0);
      FetchLoopRestShorter(FETCH_LIMIT, replies);
      if !hangs {
        FetchLoopConsumes(FETCH_LIMIT, replies);
        AfterFetchEffect(s0, f.objs, batchSize);
        if PageOf(f.objs) != [] {
          AppendAssoc(old(listed), f.objs.value, PagesListed(f.rest));
        }
      }
    }

    /** One `list_objects` request of the retry loop, against what is left of the loop. */
    method Request(lim: int, ghost calls0: seq<ListCall>, ghost limits: seq<int>, ghost whole: Fetched)
      returns (reply: ListReply)
      requires lim > 5
      requires container.listCalls == calls0 + Calls(limits, marker)
      requires whole == Prepend(limits, FetchLoop(lim, container.listReplies))
      modifies container`listReplies, container`listCalls
      ensures container.listCalls == calls0 + Calls(limits + [lim], marker)
      ensures reply.Page? ==> whole == Fetched(Some(reply.names), limits + [lim], container.listReplies)
      ensures reply.IOError? ==> whole == Prepend(limits + [lim], FetchLoop(lim / 2, container.listReplies))
    {
      ghost var replies := container.listReplies;
      reply := container.ListObjects(lim, marker);
      CallsSnoc(limits, lim, marker);
      assert calls0 + Calls(limits, marker) + [ListCall(lim, marker)]
          == calls0 + (Calls(limits, marker) + [ListCall(lim, marker)]);
      FetchLoopStep(limits, lim, replies);
    }

    /** The retry loop of `fetch_more`: the page obtained, if any request succeeded. */
    method ListWithBackoff(limit: int) returns (objs: Option<seq<string>>)
      modifies container`listReplies, container`listCalls
      ensures var f := FetchLoop(limit, old(container.listReplies));
        && objs == f.objs && container.listReplies == f.rest
        && container.listCalls == old(container.listCalls) + Calls(f.limits, marker)
    {
      objs := None;
      var isFetched := false;
      var lim := limit;
      ghost var limits: seq<int> := [];
      ghost var whole := FetchLoop(limit, container.listReplies);
      assert Prepend([], whole) == whole;
      assert old(container.listCalls) + Calls([], marker) == old(container.listCalls);
      while !isFetched && lim > 5
        invariant container.listCalls == old(container.listCalls) + Calls(limits, marker)
        invariant !isFetched ==> objs.None? && whole == Prepend(limits, FetchLoop(lim, container.listReplies))
        invariant isFetched ==> whole == Fetched(objs, limits, container.listReplies)
        decreases !isFetched, lim
      {
        var reply := Request(lim, old(container.listCalls), limits, whole);
        limits := limits + [lim];
        match reply {
          case Page(names) =>
            objs := Some(names);
            isFetched := true;
          case IOError =>
            lim := lim / 2;
        }
      }
      assert limits + [] == limits;
    }

    /** The batching loop of `fetch_more`: slices of `batch_size` names put on the queue in order. */
    method Enqueue(objs: seq<string>)
      requires batchSize > 0
      modifies this`queue
      ensures queue == old(queue) + Batches(objs, batchSize)
    {
      var rest := objs;
      while rest != []
        invariant old(queue) + Batches(objs, batchSize) == queue + Batches(rest, batchSize)
        decreases |rest|
      {
        var take := if |rest| <= batchSize then |rest| else batchSize;
        var batch := rest[..take];
        if |rest| <= batchSize {
          assert batch == rest && rest[take..] == [];
        }
        assert Batches(rest, batchSize) == [batch] + Batches(rest[take..], batchSize);
        assert queue + ([batch] + Batches(rest[take..], batchSize)) == queue + [batch] + Batches(rest[take..], batchSize);
        rest := rest[take..];
        queue := queue + [batch];
      }
    }

    /** The first loop of `handle`: fetch until the listing is done or 2·num_workers batches are queued. */
    method Prefill(numWorkers: int, ghost base: seq<string>, ghost objects0: map<string, StoredObject>,
                   ghost orig: seq<ListReply>) returns (hangs: bool)
      requires Accounted(base, objects0) && ListedSoFar(orig)
      modifies this`marker, this`isFetchDone, this`queue, this`listed, container`listReplies, container`listCalls
      ensures Accounted(base, objects0)
      ensures !hangs ==> ListedSoFar(orig) && (isFetchDone || |queue| >= 2 * numWorkers)
      ensures hangs ==> batchSize <= 0
      ensures old(isFetchDone) || |old(queue)| >= 2 * numWorkers ==> !hangs && State() == old(State())
    {
      while !isFetchDone && |queue| < numWorkers * 2
        invariant Accounted(base, objects0) && ListedSoFar(orig)
        invariant old(isFetchDone) || |old(queue)| >= 2 * numWorkers ==> State() == old(State())
        decreases !isFetchDone, numWorkers * 2 - |queue|
      {
        hangs := FetchNext(base, objects0, orig);
        if hangs {
          return;
        }
      }
      hangs := false;
    }

    /**
     * The workers take `k` batches off the queue (all of them when fewer
     * remain). Workers that find the queue empty return, so a round that
     * leaves it empty ends them all.
     */
    method Work(k: nat, ghost base: seq<string>, ghost objects0: map<string, StoredObject>)
      requires Accounted(base, objects0)
      modifies this`queue, this`attempted, this`liveWorkers, container`objects, container`deleteAttempts
      ensures Accounted(base, objects0)
      ensures queue == old(queue)[if k <= |old(queue)| then k else |old(queue)|..]
      ensures liveWorkers == if queue == [] then 0 else old(liveWorkers)
    {
      var n := if k <= |queue| then k else |queue|;
      ghost var q := queue;
      ghost var done := attempted;
      queue := Worker(container, queue, k);
      attempted := attempted + Flatten(q[..n]);
      assert q == q[..n] + q[n..];
      FlattenConcat(q[..n], q[n..]);
      AppendAssoc(done, Flatten(q[..n]), Flatten(q[n..]));
      AppendAssoc(base, done, Flatten(q[..n]));
      DeleteEachConcat(objects0, container.failing, done, Flatten(q[..n]));
      if queue == [] {
        liveWorkers := 0;
      }
    }

    /**
     * The second loop of `handle`, with the workers started. The workers take
     * `pace[0]` batches before the first check that the queue is empty, and
     * `pace[r]` during the r-th one-second pause, after which `fetch_more`
     * runs if the listing is not done; once `pace` is used up they empty the
     * queue at every pause. Once the workers have returned, nothing drains
     * the queue, and the loop never ends unless the queue is empty.
     */
    method DrainQueue(pace: seq<nat>, ghost base: seq<string>, ghost objects0: map<string, StoredObject>,
                      ghost orig: seq<ListReply>) returns (hangs: bool)
      requires Accounted(base, objects0) && ListedSoFar(orig) && liveWorkers >= 0
      modifies this`marker, this`isFetchDone, this`queue, this`listed, this`attempted, this`liveWorkers
      modifies container`objects, container`deleteAttempts, container`listReplies, container`listCalls
      ensures Accounted(base, objects0)
      ensures !hangs ==> ListedSoFar(orig) && queue == [] && liveWorkers == 0
      ensures hangs ==> batchSize <= 0 || (queue != [] && liveWorkers == 0)
      ensures old(liveWorkers) == 0 ==> hangs == (old(queue) != []) && queue == old(queue)
    {
      if liveWorkers > 0 {
        Work(if |pace| > 0 then pace[0] else |queue|, base, objects0);
      }
      var round := 1;
      while queue != []
        invariant Accounted(base, objects0) && ListedSoFar(orig)
        invariant queue == [] ==> liveWorkers == 0
        invariant old(liveWorkers) == 0 ==> liveWorkers == 0 && queue == old(queue)
        decreases (if round <= |pace| then |pace| - round else 0), |container.listReplies|,
          (if isFetchDone then 0 else 1), |queue|
      {
        if liveWorkers == 0 {
          return true;
        }
        Work(if round < |pace| then pace[round] else |queue|, base, objects0);
        round := round + 1;
        if !isFetchDone {
          hangs := FetchNext(base, objects0, orig);
          if hangs {
            return;
          }
        }
      }
      hangs := false;
    }

    /**
     * Listing onto a fresh queue, starting the workers and draining the
     * queue: when this ends, every name listed has had one delete attempt.
     */
    method ListAndDrain(numWorkers: int, pace: seq<nat>) returns (hangs: bool)
      modifies this`marker, this`isFetchDone, this`queue, this`listed, this`attempted, this`liveWorkers
      modifies container`objects, container`deleteAttempts, container`listReplies, container`listCalls
      ensures hangs ==> batchSize <= 0 || (queue != [] && liveWorkers == 0)
      ensures !hangs ==>
        && queue == [] && liveWorkers == 0
        && container.deleteAttempts == old(container.deleteAttempts) + listed
        && container.objects == DeleteEach(old(container.objects), container.failing, listed)
        && (old(isFetchDone) ==> listed == [])
        && (!old(isFetchDone) ==>
              listed + (if isFetchDone then [] else PagesListed(container.listReplies)) == PagesListed(old(container.listReplies)))
    {
      queue := [];
      listed := [];
      attempted := [];
      ghost var base := container.deleteAttempts;
      ghost var objects0 := container.objects;
      ghost var orig := if isFetchDone then [] else container.listReplies;
      assert base + [] == base;
      assert PagesListed([]) == [] by {
        assert FetchLoop(FETCH_LIMIT, []) == Fetched(Some([]), [FETCH_LIMIT], []);
      }
      hangs := Prefill(numWorkers, base, objects0, orig);
      if hangs {
        return;
      }
      liveWorkers := if numWorkers > 0 then numWorkers else 0;
      hangs := DrainQueue(pace, base, objects0, orig);
      if !hangs {
        assert attempted == listed;
      }
    }

    /** The part of `handle` after the confirmation: empty the container, then `delete_container`. */
    method DeleteContents(numWorkers: int, pace: seq<nat>) returns (r: Outcome)
      modifies this`marker, this`isFetchDone, this`queue, this`listed, this`attempted, this`liveWorkers
      modifies container`objects, container`deleteAttempts, container`listReplies, container`listCalls, container`isDeleted
      ensures r.Hangs? ==> batchSize <= 0 || (queue != [] && liveWorkers == 0)
      ensures !r.Hangs? ==>
        && queue == [] && liveWorkers == 0
        && container.deleteAttempts == old(container.deleteAttempts) + listed
        && container.objects == DeleteEach(old(container.objects), container.failing, listed)
        && (old(isFetchDone) ==> listed == [])
        && (!old(isFetchDone) ==>
              listed + (if isFetchDone then [] else PagesListed(container.listReplies)) == PagesListed(old(container.listReplies)))
        && (r.Completed? <==> container.objects == map[])
        && (r.Raised? ==> r.error == ClientException(CONTAINER_DELETE_FAILED, 409))
      ensures r.Completed? ==> container.isDeleted
    {
      var hangs := ListAndDrain(numWorkers, pace);
      if hangs {
        return Hangs;
      }
      var err := container.DeleteContainer();
      r := if err.None? then Completed else Raised(err.value);
    }

    /** `handle`: the argument check, the confirmation, and then the deletion of the contents and the container. */
    method Handle(args: seq<string>, isYes: bool, answer: string, numWorkers: int, batchSize: int, pace: seq<nat>)
      returns (r: Outcome)
      modifies this`marker, this`isFetchDone, this`batchSize, this`queue, this`listed, this`attempted, this`liveWorkers
      modifies container`objects, container`deleteAttempts, container`listReplies, container`listCalls, container`isDeleted
      ensures |args| != 1 ==> r == Raised(CommandError("Usage: " + USAGE))
      ensures |args| == 1 && !isYes && answer != "y" ==> r == Raised(CommandError(ABORTED))
      ensures |args| != 1 || (!isYes && answer != "y") ==>
        && container.listCalls == old(container.listCalls) && container.deleteAttempts == old(container.deleteAttempts)
        && container.objects == old(container.objects) && container.isDeleted == old(container.isDeleted)
        && container.listReplies == old(container.listReplies)
        && marker == old(marker) && isFetchDone == old(isFetchDone) && queue == old(queue)
        && listed == old(listed) && attempted == old(attempted) && liveWorkers == old(liveWorkers)
        && this.batchSize == (if |args| == 1 then batchSize else old(this.batchSize))
      ensures r.Raised? && r.error.CommandError? ==> |args| != 1 || (!isYes && answer != "y")
      ensures r.Hangs? ==> batchSize <= 0 || (queue != [] && liveWorkers == 0)
      ensures |args| == 1 && (isYes || answer == "y") && !r.Hangs? ==>
        && queue == [] && liveWorkers == 0
        && container.deleteAttempts == old(container.deleteAttempts) + listed
        && container.objects == DeleteEach(old(container.objects), container.failing, listed)
        && (old(isFetchDone) ==> listed == [])
        && (!old(isFetchDone) ==>
              listed + (if isFetchDone then [] else PagesListed(container.listReplies)) == PagesListed(old(container.listReplies)))
        && (r.Completed? <==> container.objects == map[])
        && (r.Raised? ==> r.error == ClientException(CONTAINER_DELETE_FAILED, 409))
      ensures r.Completed? ==> container.isDeleted
    {
      if |args| != 1 {
        return Raised(CommandError("Usage: " + USAGE));
      }
      this.batchSize := batchSize;
      if !isYes && answer != "y" {
        return Raised(CommandError(ABORTED));
      }
      r := DeleteContents(numWorkers, pace);
    }
  }
}
