/**
 * sort.Strings as Table.Build uses it: an insertion sort under Go's byte-wise string
 * order, and the facts that make its result on a set of names unique.
 */
module Sorting {
  import opened Text

  /** Non-decreasing under Go's string order. */
  predicate Sorted(s: seq<string>)
  {
    forall i, j :: 0 <= i < j < |s| ==> !LexLess(s[j], s[i])
  }

  /** "Not less than" is transitive. */
  lemma NotLessTransitive(a: string, b: string, c: string)
    requires !LexLess(b, a) && !LexLess(c, b)
    ensures !LexLess(c, a)
  {
    LexLessTotal(a, b);
    if LexLess(a, b) && LexLess(c, a) {
      LexLessTransitive(c, a, b);
    }
  }

  /**
   * Putting x after the elements less than it and before the rest keeps a sorted
   * sequence sorted.
   */
  lemma InsertKeepsSorted(r: seq<string>, i: int, x: string)
    requires Sorted(r) && 0 <= i <= |r|
    requires forall k :: 0 <= k < i ==> LexLess(r[k], x)
    requires i < |r| ==> !LexLess(r[i], x)
    ensures Sorted(r[..i] + [x] + r[i..])
  {
    var t := r[..i] + [x] + r[i..];
    assert forall k :: 0 <= k < i ==> t[k] == r[k];
    assert t[i] == x;
    assert forall k :: i < k < |t| ==> t[k] == r[k - 1];
    forall a, b | 0 <= a < b < |t|
      ensures !LexLess(t[b], t[a])
    {
      if a < i && b == i {
        LexLessAsymmetric(r[a], x);
      } else if a == i && b - 1 > i {
        NotLessTransitive(x, r[i], r[b - 1]);
      }
    }
  }

  /** Inserts x before the first element that is not less than it. */
  method Insert(r: seq<string>, x: string) returns (t: seq<string>)
    requires Sorted(r)
    ensures Sorted(t) && multiset(t) == multiset(r) + multiset{x}
  {
    var i := 0;
    while i < |r| && LexLess(r[i], x)
      invariant 0 <= i <= |r|
      invariant forall k :: 0 <= k < i ==> LexLess(r[k], x)
    {
      i := i + 1;
    }
    InsertKeepsSorted(r, i, x);
    t := r[..i] + [x] + r[i..];
    assert r == r[..i] + r[i..];
  }

  method SortStrings(s: seq<string>) returns (r: seq<string>)
    ensures Sorted(r) && multiset(r) == multiset(s)
  {
    r := [];
    var i := 0;
    while i < |s|
      invariant i <= |s| && Sorted(r) && multiset(r) == multiset(s[..i])
    {
      r := Insert(r, s[i]);
      assert s[..i + 1] == s[..i] + [s[i]];
      i := i + 1;
    }
    assert s[..|s|] == s;
  }

  /** A value at two positions of a sequence occurs at least twice in its multiset. */
  lemma RepeatedTwice(r: seq<string>, i: int, j: int)
    requires 0 <= i < j < |r|
    ensures r[i] == r[j] ==> multiset(r)[r[i]] >= 2
  {
    assert r == r[..j] + r[j..];
    assert r[i] in r[..j];
    assert r[j] in r[j..];
  }

  /** Sorting the names of a set gives a strictly increasing list of exactly those names. */
  lemma SortedSetIsStrict(r: seq<string>, names: set<string>)
    requires Sorted(r) && multiset(r) == multiset(names)
    ensures StrictlySorted(r)
    ensures forall x :: x in r <==> x in names
  {
    forall i, j | 0 <= i < j < |r|
      ensures LexLess(r[i], r[j])
    {
      RepeatedTwice(r, i, j);
      LexLessTotal(r[i], r[j]);
    }
    forall x
      ensures x in r <==> x in names
    {
      assert x in r <==> x in multiset(r);
    }
  }

  /** Two strictly increasing lists with the same elements are the same list. */
  lemma {:induction false} StrictlySortedUnique(a: seq<string>, b: seq<string>)
    requires StrictlySorted(a) && StrictlySorted(b)
    requires forall x :: x in a <==> x in b
    ensures a == b
  {
    assert a != [] ==> a[0] in b;
    assert b != [] ==> b[0] in a;
    if a != [] && b != [] {
      var k :| 0 <= k < |a| && a[k] == b[0];
      var m :| 0 <= m < |b| && b[m] == a[0];
      if k > 0 {
        LexLessAsymmetric(a[0], a[k]);
      }
      LexLessIrreflexive(a[0]);
      assert a[0] == b[0];
      forall x
        ensures x in a[1..] <==> x in b[1..]
      {
        if x in a[1..] {
          var i :| 1 <= i < |a| && a[i] == x;
          assert LexLess(a[0], x) && x in b;
          var j :| 0 <= j < |b| && b[j] == x;
          assert b[1..][j - 1] == x;
        }
        if x in b[1..] {
          var j :| 1 <= j < |b| && b[j] == x;
          assert LexLess(b[0], x) && x in a;
          var i :| 0 <= i < |a| && a[i] == x;
          assert a[1..][i - 1] == x;
        }
      }
      StrictlySortedUnique(a[1..], b[1..]);
      assert a == [a[0]] + a[1..] && b == [b[0]] + b[1..];
    }
  }
}
