/**
 * `Array.prototype.filter` and Python's filtering comprehension, which the
 * cart, catalog and camera code all use, with what they guarantee.
 */
module Seqs {

  /** The elements of `s` that `keep` accepts, in their original order. */
  function Filter<T(==, !new)>(s: seq<T>, keep: T -> bool): (r: seq<T>)
    ensures |r| <= |s|
    ensures forall x :: x in r <==> x in s && keep(x)
    ensures forall i :: 0 <= i < |r| ==> keep(r[i])
  {
    if s == [] then []
    else if keep(s[0]) then [s[0]] + Filter(s[1..], keep)
    else Filter(s[1..], keep)
  }

  /** `a` can be obtained from `b` by deleting elements: the order of what stays is kept. */
  predicate SubsequenceOf<T(==)>(a: seq<T>, b: seq<T>)
    decreases |b|
  {
    if a == [] then true
    else if b == [] then false
    else (a[0] == b[0] && SubsequenceOf(a[1..], b[1..])) || SubsequenceOf(a, b[1..])
  }

  lemma {:induction false} FilterIsSubsequence<T(!new)>(s: seq<T>, keep: T -> bool)
    ensures SubsequenceOf(Filter(s, keep), s)
    decreases |s|
  {
    if s != [] {
      FilterIsSubsequence(s[1..], keep);
      if keep(s[0]) {
        assert Filter(s, keep)[1..] == Filter(s[1..], keep);
      }
    }
  }

  /** Filtering keeps everything exactly when every element is accepted. */
  lemma {:induction false} FilterKeepsAll<T(!new)>(s: seq<T>, keep: T -> bool)
    requires forall i :: 0 <= i < |s| ==> keep(s[i])
    ensures Filter(s, keep) == s
    decreases |s|
  {
    if s != [] {
      FilterKeepsAll(s[1..], keep);
      assert [s[0]] + s[1..] == s;
    }
  }

  /** Two filters in a row are one filter by both tests. */
  lemma {:induction false} FilterTwice<T(!new)>(s: seq<T>, first: T -> bool, second: T -> bool, both: T -> bool)
    requires forall x :: both(x) == (first(x) && second(x))
    ensures Filter(Filter(s, first), second) == Filter(s, both)
    decreases |s|
  {
    if s != [] {
      FilterTwice(s[1..], first, second, both);
    }
  }

  /** Filtering a longer sequence: the last element is kept or dropped on its own. */
  lemma {:induction false} FilterAppendOne<T(!new)>(s: seq<T>, x: T, keep: T -> bool)
    ensures Filter(s + [x], keep) == Filter(s, keep) + (if keep(x) then [x] else [])
    decreases |s|
  {
    if s == [] {
      assert s + [x] == [x];
    } else {
      assert (s + [x])[1..] == s[1..] + [x];
      FilterAppendOne(s[1..], x, keep);
    }
  }

  /** What holds of every element still holds after filtering. */
  lemma FilterKeepsEach<T(!new)>(s: seq<T>, keep: T -> bool, p: T -> bool)
    requires forall i :: 0 <= i < |s| ==> p(s[i])
    ensures forall i :: 0 <= i < |Filter(s, keep)| ==> p(Filter(s, keep)[i])
  {
    var r := Filter(s, keep);
    forall i | 0 <= i < |r|
      ensures p(r[i])
    {
      assert r[i] in s;
    }
  }

  /** What holds of every pair of elements in order still holds after filtering. */
  lemma {:induction false} FilterKeepsPairwise<T(!new)>(s: seq<T>, keep: T -> bool, apart: (T, T) -> bool)
    requires forall i, j :: 0 <= i < j < |s| ==> apart(s[i], s[j])
    ensures forall i, j :: 0 <= i < j < |Filter(s, keep)| ==> apart(Filter(s, keep)[i], Filter(s, keep)[j])
    decreases |s|
  {
    if s != [] {
      var rest := Filter(s[1..], keep);
      FilterKeepsPairwise(s[1..], keep, apart);
      if keep(s[0]) {
        forall j | 0 <= j < |rest|
          ensures apart(s[0], rest[j])
        {
          assert rest[j] in s[1..];
          var m :| 0 <= m < |s[1..]| && s[1..][m] == rest[j];
          assert s[m + 1] == rest[j];
        }
      }
    }
  }
}
