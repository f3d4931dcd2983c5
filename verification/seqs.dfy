/** The array methods the views and hooks are written with: `filter`,
    `find`, `map` and the summing `reduce`, over sequences. */
module Seqs {

  import opened Wrappers

  /** `a` is `b` with some elements left out, in `b`'s order. */
  ghost predicate IsSubsequence<T>(a: seq<T>, b: seq<T>)
    decreases |b|
  {
    a == [] || (b != [] && ((a[0] == b[0] && IsSubsequence(a[1..], b[1..])) || IsSubsequence(a, b[1..])))
  }

  /** `s.filter(p)`. */
  function Filter<T>(s: seq<T>, p: T -> bool): (r: seq<T>)
    ensures |r| <= |s|
    ensures forall i :: 0 <= i < |r| ==> r[i] in s && p(r[i])
    ensures forall i :: 0 <= i < |s| && p(s[i]) ==> s[i] in r
    ensures IsSubsequence(r, s)
  {
    if s == [] then []
    else if p(s[0]) then
      var rest := Filter(s[1..], p);
      assert ([s[0]] + rest)[1..] == rest;
      [s[0]] + rest
    else Filter(s[1..], p)
  }

  /** `s.filter(p).length`. */
  function Count<T>(s: seq<T>, p: T -> bool): (n: nat)
    ensures n <= |s|
  {
    |Filter(s, p)|
  }

  /** Sequences with the same multiset have the same members. */
  lemma SameMembers<T>(a: seq<T>, b: seq<T>)
    requires multiset(a) == multiset(b)
    ensures forall x :: x in a <==> x in b
  {
    forall x
      ensures x in a <==> x in b
    {
      assert x in a <==> x in multiset(a);
      assert x in b <==> x in multiset(b);
    }
  }

  /** A rearrangement of a filter holds only passing elements of the input,
      each passing element, and nothing more often than the input does. */
  lemma PermutedFilter<T>(s: seq<T>, p: T -> bool, r: seq<T>)
    requires multiset(r) == multiset(Filter(s, p))
    ensures multiset(r) <= multiset(s)
    ensures forall i :: 0 <= i < |r| ==> p(r[i])
    ensures forall i :: 0 <= i < |s| && p(s[i]) ==> s[i] in r
  {
    var kept := Filter(s, p);
    FilterKeepsCopies(s, p);
    SameMembers(kept, r);
    forall i | 0 <= i < |r|
      ensures p(r[i])
    {
      assert r[i] in kept;
      var j :| 0 <= j < |kept| && kept[j] == r[i];
    }
  }

  /** A filter keeps every passing element exactly as often as the input
      holds it, and nothing more often than the input does. */
  lemma {:induction false} FilterKeepsCopies<T>(s: seq<T>, p: T -> bool)
    ensures multiset(Filter(s, p)) <= multiset(s)
    ensures forall i :: 0 <= i < |s| && p(s[i]) ==> multiset(Filter(s, p))[s[i]] == multiset(s)[s[i]]
  {
    if s != [] {
      var rest := Filter(s[1..], p);
      FilterKeepsCopies(s[1..], p);
      FilterHead(s, p);
      MultisetOfCons(s);
      if p(s[0]) {
        MultisetOfCons(Filter(s, p));
        assert Filter(s, p)[1..] == rest;
      }
      forall i | 0 <= i < |s| && p(s[i])
        ensures multiset(Filter(s, p))[s[i]] == multiset(s)[s[i]]
      {
        if i > 0 {
          assert s[i] == s[1..][i - 1];
        }
      }
    }
  }

  lemma MultisetOfCons<T>(s: seq<T>)
    requires s != []
    ensures multiset(s) == multiset{s[0]} + multiset(s[1..])
  {
    assert s == [s[0]] + s[1..];
  }

  /** One step of a filter: the head, when it passes, then the filtered tail. */
  lemma FilterHead<T>(s: seq<T>, p: T -> bool)
    requires s != []
    ensures Filter(s, p) == if p(s[0]) then [s[0]] + Filter(s[1..], p) else Filter(s[1..], p)
  {
  }

  lemma {:induction false} FilterKeepsAll<T>(s: seq<T>, p: T -> bool)
    requires forall x :: x in s ==> p(x)
    ensures Filter(s, p) == s
  {
    if s != [] {
      FilterKeepsAll(s[1..], p);
      assert s == [s[0]] + s[1..];
    }
  }

  lemma {:induction false} FilterDistributes<T>(a: seq<T>, b: seq<T>, p: T -> bool)
    ensures Filter(a + b, p) == Filter(a, p) + Filter(b, p)
  {
    if a != [] {
      assert (a + b)[0] == a[0];
      assert (a + b)[1..] == a[1..] + b;
      FilterDistributes(a[1..], b, p);
      if p(a[0]) {
        assert Filter(a, p) == [a[0]] + Filter(a[1..], p);
        assert Filter(a + b, p) == [a[0]] + Filter(a[1..] + b, p);
      } else {
        assert Filter(a, p) == Filter(a[1..], p);
        assert Filter(a + b, p) == Filter(a[1..] + b, p);
      }
    } else {
      assert a + b == b;
    }
  }

  /** A one-element sequence passes a filter whole or not at all. */
  lemma FilterSingleton<T>(x: T, p: T -> bool)
    ensures |Filter([x], p)| == if p(x) then 1 else 0
  {
    assert [x][1..] == [];
  }

  /** Appending one element adds one to a filter's count when it passes. */
  lemma FilterSnocCount<T>(s: seq<T>, p: T -> bool)
    requires |s| > 0
    ensures |Filter(s, p)| == |Filter(s[..|s| - 1], p)| + if p(s[|s| - 1]) then 1 else 0
  {
    assert s == s[..|s| - 1] + [s[|s| - 1]];
    FilterDistributes(s[..|s| - 1], [s[|s| - 1]], p);
    FilterSingleton(s[|s| - 1], p);
  }

  /** Two complementary filters split a sequence: their counts add up to its length. */
  lemma {:induction false} FilterComplementCount<T>(s: seq<T>, p: T -> bool, q: T -> bool)
    requires forall x :: x in s ==> q(x) == !p(x)
    ensures |Filter(s, p)| + |Filter(s, q)| == |s|
  {
    if s != [] {
      FilterComplementCount(s[1..], p, q);
    }
  }

  /** Three filters of which every element passes exactly one split a
      sequence: their counts add up to its length. */
  lemma {:induction false} FilterPartition3<T>(s: seq<T>, p: T -> bool, q: T -> bool, r: T -> bool)
    requires forall x :: x in s ==> (p(x) && !q(x) && !r(x)) || (!p(x) && q(x) && !r(x)) || (!p(x) && !q(x) && r(x))
    ensures |Filter(s, p)| + |Filter(s, q)| + |Filter(s, r)| == |s|
  {
    if s != [] {
      assert s[0] in s;
      FilterPartition3(s[1..], p, q, r);
    }
  }

  /** The same for four filters. */
  lemma {:induction false} FilterPartition4<T>(s: seq<T>, p: T -> bool, q: T -> bool, r: T -> bool, w: T -> bool)
    requires forall x :: x in s ==>
      (if p(x) then 1 else 0) + (if q(x) then 1 else 0) + (if r(x) then 1 else 0) + (if w(x) then 1 else 0) == 1
    ensures |Filter(s, p)| + |Filter(s, q)| + |Filter(s, r)| + |Filter(s, w)| == |s|
  {
    if s != [] {
      assert s[0] in s;
      FilterPartition4(s[1..], p, q, r, w);
    }
  }

  /** Splitting the elements that pass `p` by a second test `r`: the two
      halves together count as many as pass `p`. */
  lemma {:induction false} FilterSplit<T>(s: seq<T>, p: T -> bool, r: T -> bool, a: T -> bool, b: T -> bool)
    requires forall x :: x in s ==> (a(x) <==> p(x) && r(x)) && (b(x) <==> p(x) && !r(x))
    ensures |Filter(s, a)| + |Filter(s, b)| == |Filter(s, p)|
  {
    if s != [] {
      assert s[0] in s;
      FilterSplit(s[1..], p, r, a, b);
    }
  }

  /** Filtering by two tests that agree on every element gives the same result. */
  lemma {:induction false} FilterEquivalent<T>(s: seq<T>, p: T -> bool, q: T -> bool)
    requires forall x :: x in s ==> (p(x) <==> q(x))
    ensures Filter(s, p) == Filter(s, q)
  {
    if s != [] {
      assert s[0] in s;
      FilterEquivalent(s[1..], p, q);
    }
  }

  /** Two filters that no element passes both of count at most the whole. */
  lemma {:induction false} FilterDisjointCount<T>(s: seq<T>, p: T -> bool, q: T -> bool)
    requires forall x :: x in s ==> !(p(x) && q(x))
    ensures |Filter(s, p)| + |Filter(s, q)| <= |s|
  {
    if s != [] {
      FilterDisjointCount(s[1..], p, q);
    }
  }

  /** The filter of a sequence keeps no more than a filter by a weaker predicate. */
  lemma {:induction false} FilterCountMonotone<T>(s: seq<T>, p: T -> bool, q: T -> bool)
    requires forall x :: x in s ==> p(x) ==> q(x)
    ensures |Filter(s, p)| <= |Filter(s, q)|
  {
    if s != [] {
      FilterCountMonotone(s[1..], p, q);
    }
  }

  /** No element occurs twice. */
  predicate NoDuplicates<T(==)>(s: seq<T>) {
    forall i, j :: 0 <= i < j < |s| ==> s[i] != s[j]
  }

  /** Filtering a duplicate-free sequence leaves it duplicate-free. */
  lemma {:induction false} FilterNoDuplicates<T>(s: seq<T>, p: T -> bool)
    requires NoDuplicates(s)
    ensures NoDuplicates(Filter(s, p))
  {
    if s != [] {
      assert NoDuplicates(s[1..]);
      FilterNoDuplicates(s[1..], p);
      if p(s[0]) {
        var rest := Filter(s[1..], p);
        assert s[0] !in s[1..];
        assert s[0] !in rest;
        assert Filter(s, p) == [s[0]] + rest;
      }
    }
  }

  /** `s.findIndex(p)`, as an option. */
  function FindIndex<T>(s: seq<T>, p: T -> bool): (r: Option<nat>)
    ensures r.Some? ==> r.value < |s| && p(s[r.value]) && forall j :: 0 <= j < r.value ==> !p(s[j])
    ensures r.None? ==> forall j :: 0 <= j < |s| ==> !p(s[j])
  {
    if s == [] then None
    else if p(s[0]) then Some(0)
    else match FindIndex(s[1..], p)
      case None => None
      case Some(i) => Some(i + 1)
  }

  /** `s.find(p)`: the first element passing `p`, or nothing. */
  function Find<T>(s: seq<T>, p: T -> bool): (r: Option<T>)
    ensures r.Some? ==> r.value in s && p(r.value)
    ensures r.Some? ==> exists i :: 0 <= i < |s| && s[i] == r.value && forall j :: 0 <= j < i ==> !p(s[j])
    ensures r.None? <==> forall i :: 0 <= i < |s| ==> !p(s[i])
  {
    match FindIndex(s, p)
    case None => None
    case Some(i) => Some(s[i])
  }

  /** `s.map(x => p(x) ? v : x)`: every element passing `p` replaced by `v`. */
  function ReplaceWhere<T>(s: seq<T>, p: T -> bool, v: T): (r: seq<T>)
    ensures |r| == |s|
    ensures forall i :: 0 <= i < |s| ==> r[i] == (if p(s[i]) then v else s[i])
  {
    seq(|s|, i requires 0 <= i < |s| => if p(s[i]) then v else s[i])
  }

  /** `s.map(f)`. */
  function Map<T, U>(s: seq<T>, f: T -> U): (r: seq<U>)
    ensures |r| == |s|
    ensures forall i :: 0 <= i < |s| ==> r[i] == f(s[i])
  {
    seq(|s|, i requires 0 <= i < |s| => f(s[i]))
  }

  /** Mapping a sequence with one more element in front puts its image in front. */
  lemma MapCons<T, U>(x: T, s: seq<T>, f: T -> U)
    ensures Map([x] + s, f) == [f(x)] + Map(s, f)
  {
    var l, r := Map([x] + s, f), [f(x)] + Map(s, f);
    forall i | 0 <= i < |l|
      ensures l[i] == r[i]
    {
      if i > 0 {
        assert ([x] + s)[i] == s[i - 1];
      }
    }
  }

  /** Mapping a prefix one element longer appends that element's image. */
  lemma MapSnoc<T, U>(s: seq<T>, f: T -> U, i: nat)
    requires i < |s|
    ensures Map(s[..i + 1], f) == Map(s[..i], f) + [f(s[i])]
  {
  }

  /** `s.reduce((sum, x) => sum + f(x), 0)` over reals, folded from the left. */
  function Sum<T>(s: seq<T>, f: T -> real): real
  {
    if s == [] then 0.0 else Sum(s[..|s| - 1], f) + f(s[|s| - 1])
  }

  /** The same fold over integers. */
  function SumInt<T>(s: seq<T>, f: T -> int): int
  {
    if s == [] then 0 else SumInt(s[..|s| - 1], f) + f(s[|s| - 1])
  }

  /** A sum of terms that all lie in [lo, hi] lies in [n * lo, n * hi]. */
  lemma SumBounds<T>(s: seq<T>, f: T -> real, lo: real, hi: real)
    requires forall x :: x in s ==> lo <= f(x) <= hi
    ensures |s| as real * lo <= Sum(s, f) <= |s| as real * hi
  {
    SumLowerBound(s, f, lo);
    SumUpperBound(s, f, hi);
  }

  lemma {:induction false} SumLowerBound<T>(s: seq<T>, f: T -> real, lo: real)
    requires forall x :: x in s ==> lo <= f(x)
    ensures |s| as real * lo <= Sum(s, f)
  {
    if s != [] {
      var init := s[..|s| - 1];
      assert forall x :: x in init ==> x in s;
      SumLowerBound(init, f, lo);
      assert lo <= f(s[|s| - 1]) by {
        assert s[|s| - 1] in s;
      }
      StepBound(|init| as real, |s| as real, lo);
    }
  }

  lemma {:induction false} SumUpperBound<T>(s: seq<T>, f: T -> real, hi: real)
    requires forall x :: x in s ==> f(x) <= hi
    ensures Sum(s, f) <= |s| as real * hi
  {
    if s != [] {
      var init := s[..|s| - 1];
      assert forall x :: x in init ==> x in s;
      SumUpperBound(init, f, hi);
      assert f(s[|s| - 1]) <= hi by {
        assert s[|s| - 1] in s;
      }
      StepBound(|init| as real, |s| as real, hi);
    }
  }

  lemma StepBound(n: real, m: real, x: real)
    requires m == n + 1.0
    ensures m * x == n * x + x
  {
  }

  /** A sum of non-negative integer terms is non-negative. */
  lemma {:induction false} SumIntNonNegative<T>(s: seq<T>, f: T -> int)
    requires forall x :: x in s ==> f(x) >= 0
    ensures SumInt(s, f) >= 0
  {
    if s != [] {
      var init := s[..|s| - 1];
      assert forall x :: x in init ==> x in s;
      SumIntNonNegative(init, f);
      assert s[|s| - 1] in s;
    }
  }
}
