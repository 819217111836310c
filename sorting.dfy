/**
 * Sorting as the plugin uses it: PHP's `usort` with an integer-key comparator and `sort` on
 * strings. Both are library calls whose algorithm is not the plugin's, so the model uses one
 * insertion sort and claims only what `usort` guarantees: the result is a permutation of the
 * input, ordered by the comparator.
 */
module Sorting {

  /** `leq` is total and transitive, which is what a `usort` comparator must be. */
  ghost predicate TotalPreorder<T(!new)>(leq: (T, T) -> bool) {
    && (forall a, b :: leq(a, b) || leq(b, a))
    && (forall a, b, c :: leq(a, b) && leq(b, c) ==> leq(a, c))
  }

  predicate SortedBy<T>(s: seq<T>, leq: (T, T) -> bool) {
    forall i, j :: 0 <= i < j < |s| ==> leq(s[i], s[j])
  }

  /** Puts `x` into the sorted sequence `s`. */
  function Insert<T(!new)>(x: T, s: seq<T>, leq: (T, T) -> bool): (r: seq<T>)
    requires TotalPreorder(leq) && SortedBy(s, leq)
    ensures multiset(r) == multiset(s) + multiset{x}
    ensures SortedBy(r, leq)
  {
    if s == [] then [x]
    else if leq(x, s[0]) then [x] + s
    else
      var t := Insert(x, s[1..], leq);
      assert s == [s[0]] + s[1..];
      assert forall y :: y in t ==> leq(s[0], y) by {
        forall y | y in t
          ensures leq(s[0], y)
        {
          assert y in multiset(t);
          if y != x {
            assert y in multiset(s[1..]);
            var k :| 0 <= k < |s[1..]| && s[1..][k] == y;
            assert s[k + 1] == y;
          }
        }
      }
      assert forall j :: 0 < j < |t| + 1 ==> ([s[0]] + t)[j] == t[j - 1];
      [s[0]] + t
  }

  /** The sorted permutation of `s`. */
  function SortBy<T(!new)>(s: seq<T>, leq: (T, T) -> bool): (r: seq<T>)
    requires TotalPreorder(leq)
    ensures multiset(r) == multiset(s)
    ensures SortedBy(r, leq)
  {
    if s == [] then []
    else
      assert s == [s[0]] + s[1..];
      Insert(s[0], SortBy(s[1..], leq), leq)
  }

  /** The head of a sorted permutation of `s` is at most every element of `s`. */
  lemma SortedHeadIsLeast<T(!new)>(r: seq<T>, s: seq<T>, leq: (T, T) -> bool)
    requires TotalPreorder(leq)
    requires multiset(r) == multiset(s) && SortedBy(r, leq) && r != []
    ensures r[0] in s
    ensures forall y :: y in s ==> leq(r[0], y)
  {
    assert r[0] in multiset(r);
    forall y | y in s
      ensures leq(r[0], y)
    {
      assert y in multiset(s);
      assert y in r;
      var j :| 0 <= j < |r| && r[j] == y;
      if j == 0 {
        assert leq(y, y) || leq(y, y);
      }
    }
  }

  /** Byte-wise string order, as PHP's `sort` compares non-numeric strings. */
  predicate LexLeq(a: string, b: string) {
    a == [] || (b != [] && (a[0] < b[0] || (a[0] == b[0] && LexLeq(a[1..], b[1..]))))
  }

  lemma {:induction false} LexLeqTotal(a: string, b: string)
    ensures LexLeq(a, b) || LexLeq(b, a)
  {
    if a != [] && b != [] && a[0] == b[0] {
      LexLeqTotal(a[1..], b[1..]);
    }
  }

  lemma {:induction false} LexLeqTransitive(a: string, b: string, c: string)
    requires LexLeq(a, b) && LexLeq(b, c)
    ensures LexLeq(a, c)
  {
    if a != [] && b != [] && c != [] && a[0] == b[0] && b[0] == c[0] {
      LexLeqTransitive(a[1..], b[1..], c[1..]);
    }
  }

  lemma LexLeqIsTotalPreorder()
    ensures TotalPreorder(LexLeq)
  {
    forall a, b
      ensures LexLeq(a, b) || LexLeq(b, a)
    {
      LexLeqTotal(a, b);
    }
    forall a, b, c | LexLeq(a, b) && LexLeq(b, c)
      ensures LexLeq(a, c)
    {
      LexLeqTransitive(a, b, c);
    }
  }
}
