/**
 * `container_info`: the names of the account's containers, optionally
 * restricted to those named on the command line, printed as a header of the
 * selected columns and one row per container.
 */
module ContainerInfo {
  import opened Common

  /** The four columns, in the order the commands print them. */
  datatype Column = NameCol | CountCol | SizeCol | UriCol

  const ALL_COLUMNS := [NameCol, CountCol, SizeCol, UriCol]

  /** The `-n`, `-c`, `-s` and `-u` options. */
  datatype Flags = Flags(name: bool, count: bool, size: bool, uri: bool)

  predicate Flagged(f: Flags, c: Column)
  {
    match c
    case NameCol => f.name
    case CountCol => f.count
    case SizeCol => f.size
    case UriCol => f.uri
  }

  function ColumnName(c: Column): string
  {
    match c
    case NameCol => "name"
    case CountCol => "count"
    case SizeCol => "size"
    case UriCol => "uri"
  }

  function Rank(c: Column): nat
  {
    match c
    case NameCol => 0
    case CountCol => 1
    case SizeCol => 2
    case UriCol => 3
  }

  /** Columns in print order, each at most once. */
  predicate Ascending(cols: seq<Column>)
  {
    forall k, l :: 0 <= k < l < |cols| ==> Rank(cols[k]) < Rank(cols[l])
  }

  /** `[o for o in opts if options.get(o)]` over the given columns. */
  function Pick(cols: seq<Column>, f: Flags): (r: seq<Column>)
    ensures forall c :: c in r <==> c in cols && Flagged(f, c)
    ensures |r| <= |cols|
    ensures Ascending(cols) ==> Ascending(r)
  {
    if cols == [] then []
    else
      var rest := Pick(cols[1..], f);
      if Flagged(f, cols[0]) then
        assert Ascending(cols) ==> Ascending([cols[0]] + rest) by {
          if Ascending(cols) {
            forall l | 0 <= l < |rest| ensures Rank(cols[0]) < Rank(rest[l]) {
              assert rest[l] in rest;
              var j :| 0 <= j < |cols[1..]| && cols[1..][j] == rest[l];
              assert cols[j + 1] == rest[l];
            }
          }
        }
        [cols[0]] + rest
      else rest
  }

  /**
   * The columns printed: the flagged ones in the fixed order name, count,
   * size, uri; all four when none is flagged.
   */
  function SelectedColumns(f: Flags): (r: seq<Column>)
    ensures r != []
    ensures (exists c :: Flagged(f, c)) ==> forall c :: c in r <==> Flagged(f, c)
    ensures (forall c :: !Flagged(f, c)) ==> r == ALL_COLUMNS
    ensures Ascending(r)
  {
    var picked := Pick(ALL_COLUMNS, f);
    assert forall c :: c in ALL_COLUMNS by {
      forall c ensures c in ALL_COLUMNS {
        assert c == ALL_COLUMNS[Rank(c)];
      }
    }
    assert picked != [] ==> Flagged(f, picked[0]);
    if picked == [] then ALL_COLUMNS else picked
  }

  /** The fields of one container the command reads. */
  datatype ContainerStats = ContainerStats(name: string, objectCount: int, totalBytes: int,
                                           cdnEnabled: bool, cdnUri: Option<string>)

  /** `get_account_details()`. */
  datatype AccountDetails = AccountDetails(containerCount: int, objectCount: int, bytesUsed: int)

  const NOT_FOUND := "No containers found."
  const SUMMARY_HEADER := "container_count | object_count | bytes_used"

  function SummaryLine(d: AccountDetails): string
  {
    IntToString(d.containerCount) + ", " + IntToString(d.objectCount) + ", " + IntToString(d.bytesUsed) + "\n"
  }

  /** `info[o]`: the uri is the CDN URI only while the CDN is enabled. */
  function Cell(s: ContainerStats, c: Column): (r: string)
    ensures c == UriCol ==> r == (if s.cdnEnabled then OptionToString(s.cdnUri) else "None")
  {
    match c
    case NameCol => s.name
    case CountCol => IntToString(s.objectCount)
    case SizeCol => IntToString(s.totalBytes)
    case UriCol => OptionToString(if s.cdnEnabled then s.cdnUri else None)
  }

  function Header(f: Flags): string
  {
    var cols := SelectedColumns(f);
    Join(seq(|cols|, i requires 0 <= i < |cols| => ColumnName(cols[i])), " | ")
  }

  function Row(s: ContainerStats, f: Flags): string
  {
    var cols := SelectedColumns(f);
    Join(seq(|cols|, i requires 0 <= i < |cols| => Cell(s, cols[i])), ", ")
  }

  /** The container names kept when arguments are given: those named, in listing order. */
  function Kept(names: seq<string>, args: seq<string>): seq<string>
    decreases |names|
  {
    if names == [] then []
    else Kept(names[..|names| - 1], args) + (if Last(names) in args then [Last(names)] else [])
  }

  /** A name is kept exactly when it is listed and named; nothing is added. */
  lemma {:induction false} KeptMeans(names: seq<string>, args: seq<string>)
    ensures forall n :: n in Kept(names, args) <==> n in names && n in args
    ensures |Kept(names, args)| <= |names|
    decreases |names|
  {
    if names != [] {
      var init := names[..|names| - 1];
      InitLast(names);
      KeptMeans(init, args);
    }
  }

  /** The order of the arguments does not matter: only which names they contain. */
  lemma {:induction false} KeptIgnoresArgsOrder(names: seq<string>, a1: seq<string>, a2: seq<string>)
    requires forall x :: x in a1 <==> x in a2
    ensures Kept(names, a1) == Kept(names, a2)
    decreases |names|
  {
    if names != [] {
      KeptIgnoresArgsOrder(names[..|names| - 1], a1, a2);
    }
  }

  /** Naming every listed container keeps the listing as it is. */
  lemma {:induction false} KeptAll(names: seq<string>, args: seq<string>)
    requires forall n :: n in names ==> n in args
    ensures Kept(names, args) == names
    decreases |names|
  {
    if names != [] {
      var init := names[..|names| - 1];
      InitLast(names);
      KeptAll(init, args);
    }
  }

  /** One row per container name, in the given order. */
  function Rows(kept: seq<string>, f: Flags, lookup: string -> ContainerStats): (r: seq<string>)
    ensures |r| == |kept|
  {
    seq(|kept|, i requires 0 <= i < |kept| => Row(lookup(kept[i]), f))
  }

  /** What precedes the rows: the account summary (only without arguments), then the header. */
  function Preamble(args: seq<string>, f: Flags, d: AccountDetails): seq<string>
  {
    (if args == [] then [SUMMARY_HEADER, SummaryLine(d)] else []) + [Header(f)]
  }

  /** The containers reported: all of them without arguments, else those named. */
  function Remaining(names: seq<string>, args: seq<string>): seq<string>
  {
    if args == [] then names else Kept(names, args)
  }

  /** The index of the first row: after the summary (only without arguments) and the header. */
  function RowsStart(args: seq<string>): nat
  {
    if args == [] then 3 else 1
  }

  /** The lines `handle` prints. */
  function Output(names: seq<string>, args: seq<string>, f: Flags, d: AccountDetails,
                   lookup: string -> ContainerStats): seq<string>
  {
    var kept := Remaining(names, args);
    if kept == [] then [NOT_FOUND] else Preamble(args, f, d) + Rows(kept, f, lookup)
  }

  /**
   * Nothing but "No containers found." is printed exactly when no container
   * remains; otherwise the account summary comes first only without
   * arguments, then the header, then one row per remaining container in
   * listing order.
   */
  lemma OutputShape(names: seq<string>, args: seq<string>, f: Flags, d: AccountDetails,
                    lookup: string -> ContainerStats)
    ensures var out := Output(names, args, f, d, lookup);
      && (out == [NOT_FOUND] <==> Remaining(names, args) == [])
      && (Remaining(names, args) != [] ==>
            && |out| == RowsStart(args) + |Remaining(names, args)|
            && (args == [] ==> out[0] == SUMMARY_HEADER && out[1] == SummaryLine(d))
            && out[RowsStart(args) - 1] == Header(f)
            && forall i :: 0 <= i < |Remaining(names, args)| ==>
                 out[RowsStart(args) + i] == Row(lookup(Remaining(names, args)[i]), f))
  {
    var kept := Remaining(names, args);
    var start := RowsStart(args);
    if kept != [] {
      var pre := Preamble(args, f, d);
      var rows := Rows(kept, f, lookup);
      assert Output(names, args, f, d, lookup) == pre + rows;
      assert |pre| == start;
      assert (pre + rows)[start - 1] == pre[start - 1] == Header(f);
      forall i | 0 <= i < |kept| ensures (pre + rows)[start + i] == Row(lookup(kept[i]), f) {
        AppendIndex(pre, rows, start + i);
      }
    }
  }

  /** The `matches` loop. */
  method FilterNames(names: seq<string>, args: seq<string>) returns (matches: seq<string>)
    ensures matches == Kept(names, args)
  {
    matches := [];
    for i := 0 to |names|
      invariant matches == Kept(names[..i], args)
    {
      assert names[..i + 1][..i] == names[..i];
      if names[i] in args {
        matches := matches + [names[i]];
      }
    }
    assert names[..|names|] == names;
  }

  /** The row loop of `handle`: one line per container, in order. */
  method PrintRows(containerNames: seq<string>, f: Flags, lookup: string -> ContainerStats)
    returns (rows: seq<string>)
    ensures rows == Rows(containerNames, f, lookup)
  {
    rows := [];
    for i := 0 to |containerNames|
      invariant |rows| == i
      invariant forall j :: 0 <= j < i ==> rows[j] == Row(lookup(containerNames[j]), f)
    {
      rows := rows + [Row(lookup(containerNames[i]), f)];
    }
  }

  /** `handle`: `lookup` stands for `get_container` on the connection. */
  method Handle(names: seq<string>, args: seq<string>, f: Flags, d: AccountDetails,
                lookup: string -> ContainerStats) returns (out: seq<string>)
    ensures out == Output(names, args, f, d, lookup)
  {
    var containerNames := names;
    if args != [] {
      containerNames := FilterNames(names, args);
    }
    if containerNames == [] {
      return [NOT_FOUND];
    }
    out := [];
    if args == [] {
      out := [SUMMARY_HEADER, SummaryLine(d)];
    }
    out := out + [Header(f)];
    var rows := PrintRows(containerNames, f, lookup);
    out := out + rows;
  }
}
