/**
  Querysets modelled as sequences: filtering, a stable sort by a total preorder,
  counting, summing and taking a head. Every view of the service is built from these.
 */
module Seqs {

  /** The elements of `s` that satisfy `p`, in their original order (`queryset.filter`). */
  function Filter<T>(p: T -> bool, s: seq<T>): (r: seq<T>)
    ensures |r| <= |s|
    ensures forall x :: x in r ==> x in s && p(x)
  {
    if s == [] then []
    else if p(s[0]) then [s[0]] + Filter(p, s[1..])
    else Filter(p, s[1..])
  }

  /** An optional narrowing step: `if given: queryset = queryset.filter(...)`. */
  function Narrow<T>(given: bool, p: T -> bool, s: seq<T>): seq<T>
  {
    if given then Filter(p, s) else s
  }

  /** An optional narrowing of a filtered sequence is one filter by the combined condition. */
  lemma NarrowFilter<T>(given: bool, p: T -> bool, q: T -> bool, r: T -> bool, s: seq<T>)
    requires forall x :: r(x) == (q(x) && (given ==> p(x)))
    ensures Narrow(given, p, Filter(q, s)) == Filter(r, s)
  {
    if given {
      FilterFilter(q, p, r, s);
    } else {
      FilterAgree(q, r, s);
    }
  }

  /** `f` applied to each element (a list comprehension over a queryset). */
  function Map<T, U>(f: T -> U, s: seq<T>): (r: seq<U>)
    ensures |r| == |s|
    ensures forall i :: 0 <= i < |s| ==> r[i] == f(s[i])
  {
    seq(|s|, i requires 0 <= i < |s| => f(s[i]))
  }

  /** Sum of a non-negative field over a sequence (`sum(x.f for x in qs)`). */
  function Sum<T>(f: T -> nat, s: seq<T>): nat
  {
    if s == [] then 0 else f(s[0]) + Sum(f, s[1..])
  }

  /** The first `n` elements, or all of them when there are fewer (`qs[:n]`). */
  function Take<T>(s: seq<T>, n: nat): (r: seq<T>)
    ensures |r| <= n && |r| <= |s|
    ensures |s| <= n ==> r == s
    ensures forall i :: 0 <= i < |r| ==> r[i] == s[i]
  {
    if |s| <= n then s else s[..n]
  }

  lemma {:induction false} FilterMembers<T>(p: T -> bool, s: seq<T>, x: T)
    ensures x in Filter(p, s) <==> x in s && p(x)
  {
    if s != [] {
      FilterMembers(p, s[1..], x);
      assert s == [s[0]] + s[1..];
    }
  }

  lemma {:induction false} FilterMultiset<T>(p: T -> bool, s: seq<T>, x: T)
    ensures multiset(Filter(p, s))[x] == if p(x) then multiset(s)[x] else 0
  {
    if s != [] {
      FilterMultiset(p, s[1..], x);
      assert s == [s[0]] + s[1..];
    }
  }

  /** Filtering with `p` and then `q` equals filtering once with their conjunction. */
  lemma {:induction false} FilterFilter<T>(p: T -> bool, q: T -> bool, r: T -> bool, s: seq<T>)
    requires forall x :: r(x) == (p(x) && q(x))
    ensures Filter(q, Filter(p, s)) == Filter(r, s)
  {
    if s != [] {
      FilterFilter(p, q, r, s[1..]);
      FilterAppend(q, if p(s[0]) then [s[0]] else [], Filter(p, s[1..]));
    }
  }

  /** A filter every element passes changes nothing. */
  lemma {:induction false} FilterAll<T>(p: T -> bool, s: seq<T>)
    requires forall i :: 0 <= i < |s| ==> p(s[i])
    ensures Filter(p, s) == s
  {
    if s != [] {
      FilterAll(p, s[1..]);
    }
  }

  /** Two predicates that agree on the elements filter the same way. */
  lemma {:induction false} FilterAgree<T>(p: T -> bool, q: T -> bool, s: seq<T>)
    requires forall i :: 0 <= i < |s| ==> p(s[i]) == q(s[i])
    ensures Filter(p, s) == Filter(q, s)
  {
    if s != [] {
      FilterAgree(p, q, s[1..]);
    }
  }

  lemma {:induction false} FilterAppend<T>(p: T -> bool, a: seq<T>, b: seq<T>)
    ensures Filter(p, a + b) == Filter(p, a) + Filter(p, b)
  {
    if a == [] {
      assert a + b == b;
    } else {
      assert (a + b)[1..] == a[1..] + b;
      FilterAppend(p, a[1..], b);
    }
  }

  /**
    When at most one of three predicates holds of each element, the three counts add up
    to at most the length; when one always holds, exactly to the length.
   */
  lemma {:induction false} CountThree<T>(p: T -> bool, q: T -> bool, r: T -> bool, s: seq<T>)
    requires forall i :: 0 <= i < |s| ==> !(p(s[i]) && q(s[i])) && !(p(s[i]) && r(s[i])) && !(q(s[i]) && r(s[i]))
    ensures |Filter(p, s)| + |Filter(q, s)| + |Filter(r, s)| <= |s|
    ensures (forall i :: 0 <= i < |s| ==> p(s[i]) || q(s[i]) || r(s[i])) ==>
              |Filter(p, s)| + |Filter(q, s)| + |Filter(r, s)| == |s|
  {
    if s != [] {
      CountThree(p, q, r, s[1..]);
    }
  }

  /** How often `k` occurs among the values of `f` is how many elements `f` maps to `k`. */
  lemma {:induction false} MapOccurrences<T, U>(f: T -> U, p: T -> bool, k: U, s: seq<T>)
    requires forall x :: p(x) == (f(x) == k)
    ensures multiset(Map(f, s))[k] == |Filter(p, s)|
  {
    if s != [] {
      MapOccurrences(f, p, k, s[1..]);
      assert Map(f, s) == [f(s[0])] + Map(f, s[1..]);
    }
  }

  lemma {:induction false} SumAppend<T>(f: T -> nat, a: seq<T>, b: seq<T>)
    ensures Sum(f, a + b) == Sum(f, a) + Sum(f, b)
  {
    if a == [] {
      assert a + b == b;
    } else {
      assert (a + b)[1..] == a[1..] + b;
      SumAppend(f, a[1..], b);
    }
  }

  // ---------------------------------------------------------------------------
  // Ordering (`order_by`)
  // ---------------------------------------------------------------------------

  /** `le` is total and transitive: a sort key, possibly with ties. */
  ghost predicate TotalPreorder<T(!new)>(le: (T, T) -> bool)
  {
    && (forall a, b :: le(a, b) || le(b, a))
    && (forall a, b, c :: le(a, b) && le(b, c) ==> le(a, c))
  }

  ghost predicate Sorted<T>(le: (T, T) -> bool, s: seq<T>)
  {
    forall i, j :: 0 <= i < j < |s| ==> le(s[i], s[j])
  }

  /** Places `x` before the first element it may precede, so ties keep their order. */
  function Insert<T>(le: (T, T) -> bool, x: T, s: seq<T>): (r: seq<T>)
    ensures |r| == |s| + 1
    ensures multiset(r) == multiset(s) + multiset{x}
  {
    if s == [] then [x]
    else if le(x, s[0]) then [x] + s
    else
      assert s == [s[0]] + s[1..];
      [s[0]] + Insert(le, x, s[1..])
  }

  /** Stable insertion sort: among elements `le` ties, storage order is kept. */
  function Sort<T>(le: (T, T) -> bool, s: seq<T>): (r: seq<T>)
    ensures |r| == |s|
    ensures multiset(r) == multiset(s)
  {
    if s == [] then []
    else
      assert s == [s[0]] + s[1..];
      Insert(le, s[0], Sort(le, s[1..]))
  }

  lemma {:induction false} InsertSorted<T(!new)>(le: (T, T) -> bool, x: T, s: seq<T>)
    requires TotalPreorder(le) && Sorted(le, s)
    ensures Sorted(le, Insert(le, x, s))
  {
    if s != [] && !le(x, s[0]) {
      InsertSorted(le, x, s[1..]);
      var t := Insert(le, x, s[1..]);
      forall k | 0 <= k < |t| ensures le(s[0], t[k]) {
        assert t[k] in multiset(s[1..]) + multiset{x};
        if t[k] != x {
          assert t[k] in s[1..];
        }
      }
    }
  }

  /** The sorted sequence is ordered by `le` and is a permutation of the input. */
  lemma {:induction false} SortSorted<T(!new)>(le: (T, T) -> bool, s: seq<T>)
    requires TotalPreorder(le)
    ensures Sorted(le, Sort(le, s)) && multiset(Sort(le, s)) == multiset(s)
  {
    if s != [] {
      SortSorted(le, s[1..]);
      InsertSorted(le, s[0], Sort(le, s[1..]));
    }
  }

  lemma {:induction false} FilterInsert<T(!new)>(le: (T, T) -> bool, p: T -> bool, x: T, s: seq<T>)
    requires TotalPreorder(le) && Sorted(le, s)
    ensures Filter(p, Insert(le, x, s)) == if p(x) then Insert(le, x, Filter(p, s)) else Filter(p, s)
  {
    if s == [] {
    } else if le(x, s[0]) {
      assert ([x] + s)[1..] == s;
      var fs := Filter(p, s);
      if p(x) && fs != [] {
        assert fs[0] in fs;
        FilterMembers(p, s, fs[0]);
        var k :| 0 <= k < |s| && s[k] == fs[0];
        assert k == 0 || le(s[0], s[k]);
      }
    } else {
      FilterInsert(le, p, x, s[1..]);
      var rest := Insert(le, x, s[1..]);
      assert ([s[0]] + rest)[1..] == rest;
      if p(s[0]) {
        var f := Filter(p, s[1..]);
        assert Filter(p, s) == [s[0]] + f;
        assert ([s[0]] + f)[1..] == f;
      }
    }
  }

  /**
    Sorting commutes with filtering: narrowing a sorted listing gives the sorted narrowed
    listing, so a filter never changes the relative order of what it keeps.
   */
  lemma {:induction false} FilterSort<T(!new)>(le: (T, T) -> bool, p: T -> bool, s: seq<T>)
    requires TotalPreorder(le)
    ensures Filter(p, Sort(le, s)) == Sort(le, Filter(p, s))
  {
    if s != [] {
      FilterSort(le, p, s[1..]);
      SortSorted(le, s[1..]);
      FilterInsert(le, p, s[0], Sort(le, s[1..]));
      if p(s[0]) {
        var f := Filter(p, s[1..]);
        assert Filter(p, s) == [s[0]] + f;
        assert ([s[0]] + f)[1..] == f;
      }
    }
  }

  lemma {:induction false} SumInsert<T>(le: (T, T) -> bool, f: T -> nat, x: T, s: seq<T>)
    ensures Sum(f, Insert(le, x, s)) == f(x) + Sum(f, s)
  {
    if s != [] && !le(x, s[0]) {
      SumInsert(le, f, x, s[1..]);
    }
  }

  /** Ordering never changes a sum. */
  lemma {:induction false} SumSort<T>(le: (T, T) -> bool, f: T -> nat, s: seq<T>)
    ensures Sum(f, Sort(le, s)) == Sum(f, s)
  {
    if s != [] {
      SumSort(le, f, s[1..]);
      SumInsert(le, f, s[0], Sort(le, s[1..]));
    }
  }
}
