/** Sequence filtering as done by JavaScript's `Array.prototype.filter`, which both
    screens use to narrow a list of posts, together with the notion of a
    subsequence that states "order is kept and nothing is invented". */
module Seqs {

  /** `a` can be obtained from `b` by deleting elements: every element of `b`
      is either kept (and then it is the next element of `a`) or dropped. */
  predicate IsSubsequence<T(==)>(a: seq<T>, b: seq<T>)
    decreases |b|
  {
    if |b| == 0 then |a| == 0
    else (|a| > 0 && a[0] == b[0] && IsSubsequence(a[1..], b[1..]))
         || IsSubsequence(a, b[1..])
  }

  /** The elements of `s` for which `keep` holds, in their original order. */
  function Filter<T(==,!new)>(s: seq<T>, keep: T -> bool): (r: seq<T>)
    ensures |r| <= |s|
    ensures forall x :: x in r <==> x in s && keep(x)
    ensures IsSubsequence(r, s)
  {
    if |s| == 0 then []
    else
      var rest := Filter(s[1..], keep);
      if keep(s[0]) then
        assert ([s[0]] + rest)[1..] == rest;
        [s[0]] + rest
      else
        rest
  }

  /** Each kept element occurs in the result exactly as often as in `s`;
      dropped elements do not occur at all. */
  lemma {:induction false} FilterMultiset<T(!new)>(s: seq<T>, keep: T -> bool)
    ensures forall x :: multiset(Filter(s, keep))[x] == if keep(x) then multiset(s)[x] else 0
    decreases |s|
  {
    if |s| > 0 {
      FilterMultiset(s[1..], keep);
      assert s == [s[0]] + s[1..];
      if keep(s[0]) {
        assert Filter(s, keep) == [s[0]] + Filter(s[1..], keep);
      }
    }
  }

  /** Every element of `s` is kept: filtering returns `s` itself. */
  lemma {:induction false} FilterKeepsAll<T(!new)>(s: seq<T>, keep: T -> bool)
    requires forall x :: x in s ==> keep(x)
    ensures Filter(s, keep) == s
    decreases |s|
  {
    if |s| > 0 {
      assert forall x :: x in s[1..] ==> x in s;
      FilterKeepsAll(s[1..], keep);
      assert keep(s[0]);
      assert s == [s[0]] + s[1..];
    }
  }

  /** Filtering twice with the same test gives the same list as filtering once. */
  lemma FilterIdempotent<T(!new)>(s: seq<T>, keep: T -> bool)
    ensures Filter(Filter(s, keep), keep) == Filter(s, keep)
  {
    FilterKeepsAll(Filter(s, keep), keep);
  }

  /** A subsequence never holds an element more often than the sequence it
      was taken from. */
  lemma {:induction false} SubsequenceMultiset<T>(a: seq<T>, b: seq<T>)
    requires IsSubsequence(a, b)
    ensures multiset(a) <= multiset(b)
    decreases |b|
  {
    if |b| > 0 {
      assert b == [b[0]] + b[1..];
      if |a| > 0 && a[0] == b[0] && IsSubsequence(a[1..], b[1..]) {
        SubsequenceMultiset(a[1..], b[1..]);
        assert a == [a[0]] + a[1..];
      } else {
        SubsequenceMultiset(a, b[1..]);
      }
    }
  }

  /** `Filter` is characterised without reference to how it is computed: the
      only subsequence of `s` whose elements all pass `keep` and that holds
      every passing element as often as `s` does is `Filter(s, keep)`. */
  lemma {:induction false} FilterUnique<T(!new)>(s: seq<T>, keep: T -> bool, a: seq<T>)
    requires IsSubsequence(a, s)
    requires forall x :: x in a ==> keep(x)
    requires forall x :: keep(x) ==> multiset(a)[x] == multiset(s)[x]
    ensures a == Filter(s, keep)
    decreases |s|
  {
    if |s| == 0 {
    } else {
      var h, t := s[0], s[1..];
      assert s == [h] + t;
      if keep(h) {
        if |a| > 0 && a[0] == h && IsSubsequence(a[1..], t) {
          assert a == [h] + a[1..];
          forall x | keep(x)
            ensures multiset(a[1..])[x] == multiset(t)[x]
          {
            assert multiset(a)[x] == multiset(a[1..])[x] + (if x == h then 1 else 0);
            assert multiset(s)[x] == multiset(t)[x] + (if x == h then 1 else 0);
          }
          FilterUnique(t, keep, a[1..]);
        } else {
          assert IsSubsequence(a, t);
          SubsequenceMultiset(a, t);
          assert false;
        }
      } else {
        if |a| > 0 && a[0] == h {
          assert false;
        }
        assert IsSubsequence(a, t);
        forall x | keep(x)
          ensures multiset(a)[x] == multiset(t)[x]
        {
          assert x != h;
          assert multiset(s)[x] == multiset(t)[x] + (if x == h then 1 else 0);
        }
        FilterUnique(t, keep, a);
      }
    }
  }

  /** Every sequence is a subsequence of itself (nothing deleted). */
  lemma {:induction false} SubsequenceReflexive<T>(s: seq<T>)
    ensures IsSubsequence(s, s)
    decreases |s|
  {
    if |s| > 0 {
      SubsequenceReflexive(s[1..]);
    }
  }

  /** Two tests that agree on every element of `s` filter it alike. */
  lemma {:induction false} FilterCongruent<T(!new)>(s: seq<T>, keep: T -> bool, keep': T -> bool)
    requires forall x :: x in s ==> keep(x) == keep'(x)
    ensures Filter(s, keep) == Filter(s, keep')
    decreases |s|
  {
    if |s| > 0 {
      assert forall x :: x in s[1..] ==> x in s;
      FilterCongruent(s[1..], keep, keep');
    }
  }
}
