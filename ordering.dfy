/**
 * Python's ordering of strings (lexicographic by code point, a proper prefix
 * first) and sorted sequences of distinct strings, as produced by
 * `sorted(set(...))` and by the object store's name-ordered listings.
 */
module Ordering {

  /** `a < b` on Python strings. */
  predicate StrLt(a: string, b: string)
    decreases |a|
  {
    if a == [] then b != []
    else if b == [] then false
    else a[0] < b[0] || (a[0] == b[0] && StrLt(a[1..], b[1..]))
  }

  lemma {:induction false} StrLtIrreflexive(a: string)
    ensures !StrLt(a, a)
    decreases |a|
  {
    if a != [] {
      StrLtIrreflexive(a[1..]);
    }
  }

  lemma {:induction false} StrLtTotal(a: string, b: string)
    ensures a == b || StrLt(a, b) || StrLt(b, a)
    decreases |a|
  {
    if a != [] && b != [] && a[0] == b[0] {
      StrLtTotal(a[1..], b[1..]);
      if a[1..] == b[1..] {
        assert a == [a[0]] + a[1..] && b == [b[0]] + b[1..];
      }
    }
  }

  lemma {:induction false} StrLtAsymmetric(a: string, b: string)
    ensures !(StrLt(a, b) && StrLt(b, a))
    decreases |a|
  {
    if a != [] && b != [] && a[0] == b[0] {
      StrLtAsymmetric(a[1..], b[1..]);
    }
  }

  lemma {:induction false} StrLtTransitive(a: string, b: string, c: string)
    requires StrLt(a, b) && StrLt(b, c)
    ensures StrLt(a, c)
    decreases |a|
  {
    if a != [] && a[0] == b[0] && b[0] == c[0] {
      StrLtTransitive(a[1..], b[1..], c[1..]);
    }
  }

  /** Strictly increasing: sorted and without duplicates. */
  predicate StrictlySorted(s: seq<string>)
  {
    forall i, j :: 0 <= i < j < |s| ==> StrLt(s[i], s[j])
  }

  lemma StrictlySortedTail(s: seq<string>)
    requires StrictlySorted(s) && s != []
    ensures StrictlySorted(s[1..])
    ensures forall x :: x in s[1..] ==> StrLt(s[0], x)
  {
    forall x | x in s[1..]
      ensures StrLt(s[0], x)
    {
      var k :| 0 <= k < |s[1..]| && s[1..][k] == x;
      assert s[k + 1] == x;
    }
  }

  /** The sorted sequence with `x` added, unless it is already there. */
  function InsertSorted(s: seq<string>, x: string): (r: seq<string>)
    requires StrictlySorted(s)
    ensures StrictlySorted(r)
    ensures forall y :: y in r <==> y in s || y == x
    ensures |r| <= |s| + 1
    decreases |s|
  {
    if s == [] then [x]
    else if StrLt(x, s[0]) then
      StrictlySortedTail(s);
      InsertFrontSorted(x, s);
      [x] + s
    else if x == s[0] then s
    else
      StrictlySortedTail(s);
      StrLtTotal(x, s[0]);
      var rest := InsertSorted(s[1..], x);
      ConsSorted(s[0], rest);
      [s[0]] + rest
  }

  lemma InsertFrontSorted(x: string, s: seq<string>)
    requires StrictlySorted(s) && s != [] && StrLt(x, s[0])
    ensures StrictlySorted([x] + s)
  {
    forall i, j | 0 <= i < j < |[x] + s|
      ensures StrLt(([x] + s)[i], ([x] + s)[j])
    {
      if i == 0 && j > 1 {
        StrLtTransitive(x, s[0], s[j - 1]);
      }
    }
  }

  lemma ConsSorted(x: string, s: seq<string>)
    requires StrictlySorted(s) && forall y :: y in s ==> StrLt(x, y)
    ensures StrictlySorted([x] + s)
  {
    forall i, j | 0 <= i < j < |[x] + s|
      ensures StrLt(([x] + s)[i], ([x] + s)[j])
    {
      if i == 0 {
        assert ([x] + s)[j] == s[j - 1];
      }
    }
  }

  /** Two strictly sorted sequences with the same elements are the same sequence. */
  lemma {:induction false} StrictlySortedUnique(a: seq<string>, b: seq<string>)
    requires StrictlySorted(a) && StrictlySorted(b)
    requires forall x :: x in a <==> x in b
    ensures a == b
    decreases |a|
  {
    if a != [] {
      assert b != [] by {
        assert a[0] in b;
      }
      StrictlySortedTail(a);
      StrictlySortedTail(b);
      if a[0] != b[0] {
        assert a[0] in b[1..] by {
          assert a[0] in b;
        }
        assert b[0] in a[1..] by {
          assert b[0] in a;
        }
        StrLtAsymmetric(a[0], b[0]);
        assert false;
      }
      forall x
        ensures x in a[1..] <==> x in b[1..]
      {
        if x in a[1..] {
          StrLtIrreflexive(x);
          assert x in b && x != b[0];
          assert b == [b[0]] + b[1..];
        }
        if x in b[1..] {
          StrLtIrreflexive(x);
          assert x in a && x != a[0];
          assert a == [a[0]] + a[1..];
        }
      }
      StrictlySortedUnique(a[1..], b[1..]);
      assert a == [a[0]] + a[1..] && b == [b[0]] + b[1..];
    } else {
      assert |b| == 0 by {
        if b != [] {
          MemberOfNonEmpty(b);
          assert false;
        }
      }
    }
  }

  lemma MemberOfNonEmpty(b: seq<string>)
    requires b != []
    ensures b[0] in b
  {
  }

  lemma {:induction false} SortedSeqExists(s: set<string>)
    ensures exists r :: StrictlySorted(r) && (forall x :: x in r <==> x in s)
    decreases |s|
  {
    if s == {} {
      assert StrictlySorted([]) && forall x :: x in [] <==> x in s;
    } else {
      var x :| x in s;
      SortedSeqExists(s - {x});
      var r :| StrictlySorted(r) && (forall y :: y in r <==> y in s - {x});
      var r' := InsertSorted(r, x);
      assert StrictlySorted(r') && forall y :: y in r' <==> y in s;
    }
  }

  /** The elements of a finite set of strings in increasing order. */
  ghost function SortedSeq(s: set<string>): (r: seq<string>)
    ensures StrictlySorted(r)
    ensures forall x :: x in r <==> x in s
  {
    SortedSeqExists(s);
    var r :| StrictlySorted(r) && (forall x :: x in r <==> x in s);
    r
  }
}
