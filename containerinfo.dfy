/**
 * `containerinfo`, the python-cloudfiles version of the container report:
 * the named containers (or all of them), one row each, with the same column
 * selection as `container_info`.
 */
module ContainerInfoCloudfiles {
  import opened Common
  import opened ContainerInfo

  /** The fields of one cloudfiles container the command reads. */
  datatype PublicContainer = PublicContainer(name: string, objectCount: int, sizeUsed: int,
                                             isPublic: bool, publicUri: string)

  const NOT_PUBLIC := "NOT PUBLIC"
  const MISSING_PREFIX := "Container does not exist: "

  /** `info[o]`: a private container shows "NOT PUBLIC" as its uri. */
  function PublicCell(c: PublicContainer, col: Column): (r: string)
    ensures col == UriCol ==> r == (if c.isPublic then c.publicUri else NOT_PUBLIC)
  {
    match col
    case NameCol => c.name
    case CountCol => IntToString(c.objectCount)
    case SizeCol => IntToString(c.sizeUsed)
    case UriCol => if c.isPublic then c.publicUri else NOT_PUBLIC
  }

  function PublicRow(c: PublicContainer, f: Flags): string
  {
    var cols := SelectedColumns(f);
    Join(seq(|cols|, i requires 0 <= i < |cols| => PublicCell(c, cols[i])), ", ")
  }

  /**
   * The printed lines for the containers: one row each, and the line
   * "No containers found." only when there is no row.
   */
  function Lines(cs: seq<PublicContainer>, f: Flags): (r: seq<string>)
    ensures cs == [] ==> r == [NOT_FOUND]
    ensures cs != [] ==> |r| == |cs| && forall i :: 0 <= i < |cs| ==> r[i] == PublicRow(cs[i], f)
  {
    if cs == [] then [NOT_FOUND]
    else seq(|cs|, i requires 0 <= i < |cs| => PublicRow(cs[i], f))
  }

  /**
   * The fetch loop over the arguments: the containers in argument order, or
   * CommandError naming the first argument the account does not have.
   */
  method FetchNamed(args: seq<string>, account: map<string, PublicContainer>)
    returns (r: Result<seq<PublicContainer>>)
    ensures r.Ok? <==> forall a :: a in args ==> a in account
    ensures r.Ok? ==> |r.value| == |args| && forall i :: 0 <= i < |args| ==> r.value[i] == account[args[i]]
    ensures r.Err? ==> exists k :: 0 <= k < |args| && args[k] !in account
                        && (forall j :: 0 <= j < k ==> args[j] in account)
                        && r.error == CommandError(MISSING_PREFIX + args[k])
  {
    var containers: seq<PublicContainer> := [];
    for i := 0 to |args|
      invariant |containers| == i
      invariant forall j :: 0 <= j < i ==> args[j] in account && containers[j] == account[args[j]]
    {
      if args[i] !in account {
        return Err(CommandError(MISSING_PREFIX + args[i]));
      }
      containers := containers + [account[args[i]]];
    }
    r := Ok(containers);
  }

  /** `handle`: `all` is what `get_all_containers` returns. */
  method Handle(args: seq<string>, f: Flags, account: map<string, PublicContainer>, all: seq<PublicContainer>)
    returns (r: Result<seq<string>>)
    ensures args == [] ==> r == Ok(Lines(all, f))
    ensures args != [] ==> (r.Ok? <==> forall a :: a in args ==> a in account)
    ensures args != [] && r.Ok? ==>
      r.value == Lines(seq(|args|, i requires 0 <= i < |args| && args[i] in account => account[args[i]]), f)
    ensures args != [] && r.Err? ==> exists k :: 0 <= k < |args| && args[k] !in account
                                       && (forall j :: 0 <= j < k ==> args[j] in account)
                                       && r.error == CommandError(MISSING_PREFIX + args[k])
  {
    var containers: seq<PublicContainer>;
    if args != [] {
      var fetched := FetchNamed(args, account);
      if fetched.Err? {
        return Err(fetched.error);
      }
      containers := fetched.value;
      assert containers == seq(|args|, i requires 0 <= i < |args| && args[i] in account => account[args[i]]);
    } else {
      containers := all;
    }
    r := Ok(Lines(containers, f));
  }
}
