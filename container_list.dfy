/**
 * `container_list`: print every object name of a container by requesting
 * pages after a marker until an empty page, backing off on IOError.
 */
module ContainerList {
  import opened Common
  import opened Backend

  /** The most the service returns in one request. */
  const MAX_LIMIT := 1000
  /** The least page size tolerated before trying the maximum again. */
  const MIN_LIMIT := 200

  /** The fields of a `ContainerLister`, with the names printed so far. */
  datatype ListerState = ListerState(limit: int, marker: Option<string>, isDone: bool, output: seq<string>)

  /** One `list_more` given the service's answer. */
  function AfterListMore(s: ListerState, reply: ListReply): ListerState
  {
    match reply
    case IOError => s.(limit := s.limit / 2)
    case Page(objs) =>
      var t := if objs != [] then s.(marker := Some(objs[|objs| - 1]), output := s.output + objs) else s.(isDone := true);
      if t.limit <= MIN_LIMIT then t.(limit := MAX_LIMIT) else t
  }

  /**
   * An IOError halves the limit and touches nothing else. A non-empty page
   * moves the marker to its last name and prints its names in order; an
   * empty page sets is_done. After any page the limit is above MIN_LIMIT,
   * and a limit within [0, MAX_LIMIT] stays there.
   */
  lemma ListMoreEffect(s: ListerState, reply: ListReply)
    ensures var t := AfterListMore(s, reply);
      && (0 <= s.limit <= MAX_LIMIT ==> 0 <= t.limit <= MAX_LIMIT)
      && (reply.IOError? ==> t == s.(limit := s.limit / 2))
      && (reply.Page? ==> MIN_LIMIT < t.limit && (s.limit > MIN_LIMIT ==> t.limit == s.limit))
      && (reply.Page? && reply.names != [] ==>
            t.marker == Some(Last(reply.names)) && t.output == s.output + reply.names && t.isDone == s.isDone)
      && (reply.Page? && reply.names == [] ==> t.isDone && t.marker == s.marker && t.output == s.output)
  {
  }

  /** The end state of `run` and the replies left unused. */
  datatype RunResult = RunResult(state: ListerState, rest: seq<ListReply>)

  /** `run`: `list_more` until is_done, against a scripted service. */
  function RunSpec(s: ListerState, replies: seq<ListReply>): RunResult
    decreases |replies|, !s.isDone
  {
    if s.isDone then RunResult(s, replies)
    else RunSpec(AfterListMore(s, NextReply(replies)), RestReplies(replies))
  }

  /** The names the service lists: the pages before the first empty one, IOErrors skipped. */
  function Listed(replies: seq<ListReply>): seq<string>
    decreases |replies|
  {
    if replies == [] then []
    else match replies[0]
      case IOError => Listed(replies[1..])
      case Page(objs) => if objs == [] then [] else objs + Listed(replies[1..])
  }

  /**
   * A run from a state that is not done prints exactly the listed names, in
   * order, ends done with the marker at the last listed name (or where it
   * was), and leaves the limit within (MIN_LIMIT, MAX_LIMIT].
   */
  lemma {:induction false} RunLists(s: ListerState, replies: seq<ListReply>)
    requires !s.isDone && 0 <= s.limit <= MAX_LIMIT
    ensures var r := RunSpec(s, replies).state;
      && r.isDone
      && r.output == s.output + Listed(replies)
      && r.marker == (if Listed(replies) == [] then s.marker else Some(Last(Listed(replies))))
      && MIN_LIMIT < r.limit <= MAX_LIMIT
    decreases |replies|
  {
    var t := AfterListMore(s, NextReply(replies));
    ListMoreEffect(s, NextReply(replies));
    if replies != [] && !t.isDone {
      RunLists(t, replies[1..]);
      var r := RunSpec(t, replies[1..]).state;
      match replies[0]
      case IOError =>
      case Page(objs) =>
        assert s.output + objs + Listed(replies[1..]) == s.output + (objs + Listed(replies[1..]));
        if Listed(replies[1..]) != [] {
          assert Last(objs + Listed(replies[1..])) == Last(Listed(replies[1..]));
        }
    }
  }

  /** A lister whose limit starts within [0, MAX_LIMIT] never asks for more than MAX_LIMIT names. */
  lemma {:induction false} RunLimitBounded(s: ListerState, replies: seq<ListReply>)
    requires 0 <= s.limit <= MAX_LIMIT
    ensures 0 <= RunSpec(s, replies).state.limit <= MAX_LIMIT
    decreases |replies|, !s.isDone
  {
    if !s.isDone {
      ListMoreEffect(s, NextReply(replies));
      RunLimitBounded(AfterListMore(s, NextReply(replies)), RestReplies(replies));
    }
  }

  /** `ContainerLister`: the listing state lives in fields that `list_more` updates. */
  class ContainerLister {
    var limit: int
    var marker: Option<string>
    var isDone: bool
    /** The names printed to standard output so far. */
    var output: seq<string>
    var container: Container

    /** `__init__`: start at MAX_LIMIT with no marker. */
    constructor(container: Container)
      ensures this.container == container
      ensures limit == MAX_LIMIT && marker == None && !isDone && output == []
    {
      this.container := container;
      limit := MAX_LIMIT;
      marker := None;
      isDone := false;
      output := [];
    }

    function State(): ListerState
      reads this`limit, this`marker, this`isDone, this`output
    {
      ListerState(limit, marker, isDone, output)
    }

    /** `list_more`: one request with the current limit and marker. */
    method ListMore()
      modifies this`limit, this`marker, this`isDone, this`output, container`listReplies, container`listCalls
      ensures State() == AfterListMore(old(State()), NextReply(old(container.listReplies)))
      ensures container.listReplies == RestReplies(old(container.listReplies))
      ensures container.listCalls == old(container.listCalls) + [ListCall(old(limit), old(marker))]
    {
      var reply := container.ListObjects(limit, marker);
      match reply {
        case IOError =>
          limit := limit / 2;
        case Page(objs) =>
          if objs != [] {
            marker := Some(objs[|objs| - 1]);
            output := output + objs;
          } else {
            isDone := true;
          }
          if limit <= MIN_LIMIT {
            limit := MAX_LIMIT;
          }
      }
    }

    /** `run`: `list_more` until is_done. */
    method Run()
      modifies this`limit, this`marker, this`isDone, this`output, container`listReplies, container`listCalls
      ensures var r := RunSpec(old(State()), old(container.listReplies));
        State() == r.state && container.listReplies == r.rest
    {
      while !isDone
        invariant RunSpec(State(), container.listReplies) == RunSpec(old(State()), old(container.listReplies))
        decreases |container.listReplies|, !isDone
      {
        ListMore();
      }
    }
  }
}
