/** Values, errors and Python string operations shared by the whole model. */
module Common {

  datatype Option<+T> = None | Some(value: T)

  /** The Python exceptions that the modelled code raises or lets escape. */
  datatype Error =
    | CommandError(message: string)
    | KeyError(key: string)
    | IndexError
    | TypeError
    | ValueError
    | AttributeError(attribute: string)
    | ClientException(msg: string, httpStatus: int)
    | UnboundLocalError(variable: string)
    | ImportError(name: string)

  datatype Result<+T> = Ok(value: T) | Err(error: Error)

  /** `from module import name`, where the module defines the names `defined`. */
  function ImportName(defined: set<string>, name: string): (r: Result<string>)
    ensures r.Ok? <==> name in defined
    ensures r.Ok? ==> r.value == name
    ensures r.Err? ==> r.error == ImportError(name)
  {
    if name in defined then Ok(name) else Err(ImportError(name))
  }

  /** Python truthiness of an optional string: `None` and `""` are false. */
  predicate Truthy(s: Option<string>)
  {
    s.Some? && s.value != ""
  }

  predicate StartsWith(s: string, prefix: string)
  {
    |prefix| <= |s| && s[..|prefix|] == prefix
  }

  predicate EndsWith(s: string, suffix: string)
  {
    |suffix| <= |s| && s[|s| - |suffix|..] == suffix
  }

  /** Python's `s[n:]` for n >= 0: empty when n is past the end. */
  function Drop(s: string, n: nat): (r: string)
    ensures n <= |s| ==> s == s[..n] + r
    ensures n >= |s| ==> r == []
  {
    if n <= |s| then s[n..] else []
  }

  predicate OccursAt(s: string, sub: string, k: nat)
  {
    k + |sub| <= |s| && s[k..k + |sub|] == sub
  }

  /** Python's `s.find(sub)` searching from index `from`; None stands for -1. */
  function FindFrom(s: string, sub: string, from: nat): (r: Option<nat>)
    requires from <= |s|
    ensures r.Some? ==> from <= r.value && OccursAt(s, sub, r.value)
    ensures r.Some? ==> forall k :: from <= k < r.value ==> !OccursAt(s, sub, k)
    ensures r.None? ==> forall k :: from <= k <= |s| ==> !OccursAt(s, sub, k)
    decreases |s| - from
  {
    if OccursAt(s, sub, from) then Some(from)
    else if from == |s| then None
    else FindFrom(s, sub, from + 1)
  }

  /** Python's `s.find(sub)`: the first occurrence of `sub` in `s`. */
  function Find(s: string, sub: string): (r: Option<nat>)
    ensures r.Some? ==> OccursAt(s, sub, r.value)
    ensures r.Some? ==> forall k :: 0 <= k < r.value ==> !OccursAt(s, sub, k)
    ensures r.None? ==> forall k :: 0 <= k <= |s| ==> !OccursAt(s, sub, k)
  {
    FindFrom(s, sub, 0)
  }

  /**
   * Python's `s.split(sep)[1]` for a string that starts with `sep`: the text
   * after the first occurrence of `sep`, up to the next occurrence (if any).
   */
  function SplitSecond(s: string, sep: string): (r: string)
    requires sep != [] && StartsWith(s, sep)
    ensures StartsWith(s[|sep|..], r)
    ensures Find(s[|sep|..], sep).None? ==> r == s[|sep|..]
  {
    var rest := s[|sep|..];
    match Find(rest, sep)
    case None => rest
    case Some(j) => rest[..j]
  }

  /** Python's `"sep".join(items)`. */
  function Join(items: seq<string>, sep: string): (r: string)
    ensures items == [] ==> r == []
    ensures |items| == 1 ==> r == items[0]
  {
    if items == [] then []
    else if |items| == 1 then items[0]
    else items[0] + sep + Join(items[1..], sep)
  }

  function Digit(d: nat): (c: char)
    requires d < 10
  {
    "0123456789"[d]
  }

  /** Decimal rendering of a natural number, as `"%i"` or `str` produce it. */
  function NatToString(n: nat): (r: string)
    ensures |r| >= 1
    ensures forall k :: 0 <= k < |r| ==> '0' <= r[k] <= '9'
    decreases n
  {
    if n < 10 then [Digit(n)] else NatToString(n / 10) + [Digit(n % 10)]
  }

  /** Decimal rendering of an integer, with a leading `-` when negative. */
  function IntToString(i: int): (r: string)
    ensures |r| >= 1
    ensures i >= 0 ==> r == NatToString(i)
    ensures i < 0 ==> r == "-" + NatToString(-i)
  {
    if i < 0 then "-" + NatToString(-i) else NatToString(i)
  }

  /** Python's `str()` of a value that is a string or `None`. */
  function OptionToString(s: Option<string>): string
  {
    match s
    case None => "None"
    case Some(v) => v
  }

  function Last<T>(s: seq<T>): T
    requires s != []
  {
    s[|s| - 1]
  }

  /** An index past the first part of a concatenation reads the second part. */
  lemma AppendIndex<T>(a: seq<T>, b: seq<T>, k: int)
    requires |a| <= k < |a| + |b|
    ensures (a + b)[k] == b[k - |a|]
  {
  }

  /** A non-empty sequence is its prefix followed by its last element. */
  lemma InitLast<T>(s: seq<T>)
    requires s != []
    ensures s == s[..|s| - 1] + [Last(s)]
    ensures forall x :: x in s <==> x in s[..|s| - 1] || x == Last(s)
  {
    assert s == s[..|s| - 1] + [Last(s)];
  }

  /** The concatenation of a sequence of sequences. */
  function Flatten<T>(ss: seq<seq<T>>): (r: seq<T>)
    decreases |ss|
  {
    if ss == [] then [] else ss[0] + Flatten(ss[1..])
  }

  lemma {:induction false} FlattenAppend<T>(ss: seq<seq<T>>, s: seq<T>)
    ensures Flatten(ss + [s]) == Flatten(ss) + s
    decreases |ss|
  {
    if ss == [] {
      assert ss + [s] == [s];
    } else {
      assert (ss + [s])[1..] == ss[1..] + [s];
      FlattenAppend(ss[1..], s);
    }
  }

  lemma {:induction false} FlattenConcat<T>(ss: seq<seq<T>>, tt: seq<seq<T>>)
    ensures Flatten(ss + tt) == Flatten(ss) + Flatten(tt)
    decreases |ss|
  {
    if ss == [] {
      assert ss + tt == tt;
    } else {
      assert (ss + tt)[1..] == ss[1..] + tt;
      FlattenConcat(ss[1..], tt);
    }
  }
}
