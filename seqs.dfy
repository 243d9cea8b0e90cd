/** Sequence helpers shared by the store and the views: the `Array.prototype.filter`
    rewrite used by every "remove by key" reducer, and the order facts about it. */
module Seqs {

  /** `r` is obtained from `s` by deleting some elements, keeping the order of the rest. */
  ghost predicate IsSubsequence<T>(r: seq<T>, s: seq<T>)
    decreases |s|
  {
    r == [] ||
    (s != [] && ((r[0] == s[0] && IsSubsequence(r[1..], s[1..])) || IsSubsequence(r, s[1..])))
  }

  /** No value occurs twice. */
  predicate NoDuplicates<T(==)>(s: seq<T>)
  {
    forall i, j :: 0 <= i < j < |s| ==> s[i] != s[j]
  }

  /** `s.filter(keep)`: the elements for which `keep` holds, in their original order. */
  function Filter<T(==,!new)>(s: seq<T>, keep: T -> bool): (r: seq<T>)
    ensures forall x :: x in r <==> x in s && keep(x)
  {
    if s == [] then []
    else
      var rest := Filter(s[1..], keep);
      assert s == [s[0]] + s[1..];
      if keep(s[0]) then [s[0]] + rest else rest
  }

  /** The filtered sequence keeps every occurrence of a kept value, none of the
      others, and the original order. */
  lemma {:induction false} FilterKeepsOrder<T(!new)>(s: seq<T>, keep: T -> bool)
    ensures forall x :: multiset(Filter(s, keep))[x] == if keep(x) then multiset(s)[x] else 0
    ensures IsSubsequence(Filter(s, keep), s)
    decreases |s|
  {
    if s != [] {
      FilterKeepsOrder(s[1..], keep);
      assert s == [s[0]] + s[1..];
    }
  }

  /** `s.filter(y => y !== x)`: every occurrence of `x` removed. */
  function RemoveAll<T(==,!new)>(s: seq<T>, x: T): (r: seq<T>)
  {
    Filter(s, y => y != x)
  }

  lemma {:induction false} FilterAppend<T(!new)>(a: seq<T>, b: seq<T>, keep: T -> bool)
    ensures Filter(a + b, keep) == Filter(a, keep) + Filter(b, keep)
    decreases |a|
  {
    if a == [] {
      assert a + b == b;
    } else {
      assert (a + b)[1..] == a[1..] + b;
      FilterAppend(a[1..], b, keep);
    }
  }

  /** Two tests that agree on every element of `s` filter it the same way. */
  lemma {:induction false} FilterCongruent<T(!new)>(s: seq<T>, keep: T -> bool, keep': T -> bool)
    requires forall x :: x in s ==> keep(x) == keep'(x)
    ensures Filter(s, keep) == Filter(s, keep')
    decreases |s|
  {
    if s != [] {
      FilterCongruent(s[1..], keep, keep');
    }
  }

  /** Filtering a sequence whose elements all pass gives the sequence back. */
  lemma {:induction false} FilterKeepsAll<T(!new)>(s: seq<T>, keep: T -> bool)
    requires forall x :: x in s ==> keep(x)
    ensures Filter(s, keep) == s
    decreases |s|
  {
    if s != [] {
      FilterKeepsAll(s[1..], keep);
    }
  }

  /** A filtered sequence without duplicates stays without duplicates. */
  lemma {:induction false} FilterNoDuplicates<T(!new)>(s: seq<T>, keep: T -> bool)
    requires NoDuplicates(s)
    ensures NoDuplicates(Filter(s, keep))
    decreases |s|
  {
    if s != [] {
      var rest := Filter(s[1..], keep);
      FilterNoDuplicates(s[1..], keep);
      if keep(s[0]) {
        assert s[0] !in s[1..] by {
          forall k | 0 <= k < |s[1..]| ensures s[1..][k] != s[0] {
            assert s[1..][k] == s[k + 1];
          }
        }
        var r := [s[0]] + rest;
        forall i, j | 0 <= i < j < |r| ensures r[i] != r[j] {
          if i == 0 {
            assert r[j] == rest[j - 1] && r[j] in rest;
          } else {
            assert r[i] == rest[i - 1] && r[j] == rest[j - 1];
          }
        }
      }
    }
  }

  /** Removal deletes exactly the given value and keeps a sequence free of duplicates. */
  lemma RemoveAllRemoves<T(!new)>(s: seq<T>, x: T)
    ensures x !in RemoveAll(s, x)
    ensures forall y :: y != x ==> (y in RemoveAll(s, x) <==> y in s)
    ensures NoDuplicates(s) ==> NoDuplicates(RemoveAll(s, x))
  {
    if NoDuplicates(s) {
      FilterNoDuplicates(s, y => y != x);
    }
  }

  /** Removal keeps every other value as often as it occurred, in its order. */
  lemma RemoveAllKeepsOrder<T(!new)>(s: seq<T>, x: T)
    ensures forall y :: y != x ==> multiset(RemoveAll(s, x))[y] == multiset(s)[y]
    ensures IsSubsequence(RemoveAll(s, x), s)
  {
    FilterKeepsOrder(s, y => y != x);
  }

  /** Removing an element that is not there changes nothing. */
  lemma RemoveAllAbsent<T(!new)>(s: seq<T>, x: T)
    requires x !in s
    ensures RemoveAll(s, x) == s
  {
    FilterKeepsAll(s, y => y != x);
  }

  /** Appending an absent element and then removing it restores the sequence. */
  lemma AppendThenRemove<T(!new)>(s: seq<T>, x: T)
    requires x !in s
    ensures RemoveAll(s + [x], x) == s
  {
    FilterAppend(s, [x], y => y != x);
    RemoveAllAbsent(s, x);
  }
}
