/** `Array.prototype.sort` with a comparator. The language has required the
    sort to be stable since ES2019, and a stable sort's output is determined
    by its input and comparator alone, so the insertion sort `SortBy` states
    exactly what the built-in returns: a permutation of the input
    (`SortBy`'s contract), in order (`SortBySorted`), with ties in input
    order (`SortByStable`). `le(a, b)` stands for `compare(a, b) <= 0`. */
module StableSort {

  import Seqs

  ghost predicate TotalPreorder<T(!new)>(le: (T, T) -> bool) {
    && (forall a, b :: le(a, b) || le(b, a))
    && (forall a, b, c :: le(a, b) && le(b, c) ==> le(a, c))
  }

  ghost predicate Sorted<T>(s: seq<T>, le: (T, T) -> bool) {
    forall i, j :: 0 <= i < j < |s| ==> le(s[i], s[j])
  }

  /** The tail of a sorted sequence is sorted. */
  lemma SortedTail<T>(s: seq<T>, le: (T, T) -> bool)
    requires s != [] && Sorted(s, le)
    ensures Sorted(s[1..], le)
  {
    forall i, j | 0 <= i < j < |s| - 1
      ensures le(s[1..][i], s[1..][j])
    {
      assert s[1..][i] == s[i + 1] && s[1..][j] == s[j + 1];
    }
  }

  /** Places `x` in front of the first element it may precede. */
  function Insert<T>(x: T, s: seq<T>, le: (T, T) -> bool): (r: seq<T>)
    ensures |r| == |s| + 1
  {
    if s == [] then [x]
    else if le(x, s[0]) then [x] + s
    else [s[0]] + Insert(x, s[1..], le)
  }

  /** Inserting adds `x` and loses nothing. */
  lemma {:induction false} InsertMultiset<T>(x: T, s: seq<T>, le: (T, T) -> bool)
    ensures multiset(Insert(x, s, le)) == multiset(s) + multiset{x}
  {
    if s != [] {
      assert s == [s[0]] + s[1..];
      if !le(x, s[0]) {
        InsertMultiset(x, s[1..], le);
      }
    }
  }

  /** `s.slice().sort(compare)`: a stable sort, elements that compare equal
      keep their input order. */
  function SortBy<T>(s: seq<T>, le: (T, T) -> bool): (r: seq<T>)
    ensures |r| == |s|
    ensures multiset(r) == multiset(s)
  {
    if s == [] then []
    else
      assert s == [s[0]] + s[1..];
      InsertMultiset(s[0], SortBy(s[1..], le), le);
      Insert(s[0], SortBy(s[1..], le), le)
  }

  lemma {:induction false} InsertSorted<T(!new)>(x: T, s: seq<T>, le: (T, T) -> bool)
    requires TotalPreorder(le) && Sorted(s, le)
    ensures Sorted(Insert(x, s, le), le)
  {
    if s != [] && !le(x, s[0]) {
      var rest := Insert(x, s[1..], le);
      InsertSorted(x, s[1..], le);
      InsertMultiset(x, s[1..], le);
      assert forall y :: y in multiset(rest) ==> y == x || y in multiset(s[1..]);
      forall j | 0 <= j < |rest|
        ensures le(s[0], rest[j])
      {
        assert rest[j] in multiset(rest);
        if rest[j] != x {
          assert rest[j] in s[1..];
        }
      }
    }
  }

  /** With a consistent comparator the result is in order. */
  lemma {:induction false} SortBySorted<T(!new)>(s: seq<T>, le: (T, T) -> bool)
    requires TotalPreorder(le)
    ensures Sorted(SortBy(s, le), le)
  {
    if s != [] {
      SortBySorted(s[1..], le);
      InsertSorted(s[0], SortBy(s[1..], le), le);
    }
  }

  /** Sorting what is already in order changes nothing. */
  lemma {:induction false} SortByOfSorted<T>(s: seq<T>, le: (T, T) -> bool)
    requires Sorted(s, le)
    ensures SortBy(s, le) == s
  {
    if s != [] {
      assert Sorted(s[1..], le);
      SortByOfSorted(s[1..], le);
      assert s == [s[0]] + s[1..];
    }
  }

  /** Sorting twice is sorting once. */
  lemma SortByIdempotent<T(!new)>(s: seq<T>, le: (T, T) -> bool)
    requires TotalPreorder(le)
    ensures SortBy(SortBy(s, le), le) == SortBy(s, le)
  {
    SortBySorted(s, le);
    SortByOfSorted(SortBy(s, le), le);
  }

  /** The elements that compare equal to `x` both ways: its ties. */
  function Ties<T>(x: T, le: (T, T) -> bool): T -> bool {
    (y: T) => le(x, y) && le(y, x)
  }

  /** `Insert` never carries `a` past an element `a` ties with, so among the
      ties of any `x` it lands first. */
  lemma {:induction false} InsertTies<T(!new)>(x: T, a: T, t: seq<T>, le: (T, T) -> bool)
    requires TotalPreorder(le)
    ensures Seqs.Filter(Insert(a, t, le), Ties(x, le))
         == (if Ties(x, le)(a) then [a] else []) + Seqs.Filter(t, Ties(x, le))
  {
    var p := Ties(x, le);
    if t == [] {
      Seqs.FilterHead([a], p);
      assert [a][1..] == [];
    } else if le(a, t[0]) {
      Seqs.FilterHead([a] + t, p);
      assert ([a] + t)[1..] == t;
    } else {
      var rest := Insert(a, t[1..], le);
      InsertTies(x, a, t[1..], le);
      Seqs.FilterHead([t[0]] + rest, p);
      assert ([t[0]] + rest)[1..] == rest;
      Seqs.FilterHead(t, p);
      if p(a) {
        assert !p(t[0]);
      }
    }
  }

  /** The sort is stable: the ties of any `x` come out in their input order. */
  lemma {:induction false} SortByStable<T(!new)>(s: seq<T>, le: (T, T) -> bool, x: T)
    requires TotalPreorder(le)
    ensures Seqs.Filter(SortBy(s, le), Ties(x, le)) == Seqs.Filter(s, Ties(x, le))
  {
    if s != [] {
      SortByStable(s[1..], le, x);
      InsertTies(x, s[0], SortBy(s[1..], le), le);
      Seqs.FilterHead(s, Ties(x, le));
    }
  }

  /** Inserting `x` adds one to a filter's count exactly when `x` passes it. */
  lemma {:induction false} InsertCount<T>(x: T, s: seq<T>, le: (T, T) -> bool, p: T -> bool)
    ensures Seqs.Count(Insert(x, s, le), p) == Seqs.Count(s, p) + (if p(x) then 1 else 0)
  {
    if s != [] && !le(x, s[0]) {
      InsertCount(x, s[1..], le, p);
      assert ([s[0]] + Insert(x, s[1..], le))[1..] == Insert(x, s[1..], le);
    } else if s != [] {
      assert ([x] + s)[1..] == s;
    }
  }

  /** Sorting keeps how many elements pass any test. */
  lemma {:induction false} SortByCount<T>(s: seq<T>, le: (T, T) -> bool, p: T -> bool)
    ensures Seqs.Count(SortBy(s, le), p) == Seqs.Count(s, p)
  {
    if s != [] {
      SortByCount(s[1..], le, p);
      InsertCount(s[0], SortBy(s[1..], le), le, p);
    }
  }

  lemma {:induction false} InsertMap<T, U>(x: T, s: seq<T>, le: (T, T) -> bool, f: T -> U, leU: (U, U) -> bool)
    requires forall a, b :: le(a, b) == leU(f(a), f(b))
    ensures Seqs.Map(Insert(x, s, le), f) == Insert(f(x), Seqs.Map(s, f), leU)
  {
    var fs := Seqs.Map(s, f);
    if s == [] {
      Seqs.MapCons(x, s, f);
      assert [x] + s == [x];
    } else {
      assert s == [s[0]] + s[1..];
      Seqs.MapCons(s[0], s[1..], f);
      assert le(x, s[0]) == leU(f(x), fs[0]);
      if le(x, s[0]) {
        Seqs.MapCons(x, s, f);
      } else {
        InsertMap(x, s[1..], le, f, leU);
        Seqs.MapCons(s[0], Insert(x, s[1..], le), f);
      }
    }
  }

  /** When the comparator only looks at `f` of its arguments, sorting and then
      projecting through `f` is projecting and then sorting. */
  lemma {:induction false} SortByMap<T, U>(s: seq<T>, le: (T, T) -> bool, f: T -> U, leU: (U, U) -> bool)
    requires forall a, b :: le(a, b) == leU(f(a), f(b))
    ensures Seqs.Map(SortBy(s, le), f) == SortBy(Seqs.Map(s, f), leU)
  {
    if s != [] {
      var fs := Seqs.Map(s, f);
      assert fs != [] && fs[1..] == Seqs.Map(s[1..], f) && fs[0] == f(s[0]);
      calc {
        Seqs.Map(SortBy(s, le), f);
        Seqs.Map(Insert(s[0], SortBy(s[1..], le), le), f);
        { InsertMap(s[0], SortBy(s[1..], le), le, f, leU); }
        Insert(f(s[0]), Seqs.Map(SortBy(s[1..], le), f), leU);
        { SortByMap(s[1..], le, f, leU); }
        Insert(fs[0], SortBy(fs[1..], leU), leU);
        SortBy(fs, leU);
      }
    }
  }

  /** `x` passes an element it may not precede. */
  lemma InsertStep<T>(x: T, s: seq<T>, k: nat, le: (T, T) -> bool)
    requires k < |s| && !le(x, s[k])
    requires Insert(x, s, le) == s[..k] + Insert(x, s[k..], le)
    ensures Insert(x, s, le) == s[..k + 1] + Insert(x, s[k + 1..], le)
  {
    var t := s[k..];
    assert t != [] && t[0] == s[k] && t[1..] == s[k + 1..];
    assert Insert(x, t, le) == [s[k]] + Insert(x, s[k + 1..], le);
    calc {
      Insert(x, s, le);
      s[..k] + ([s[k]] + Insert(x, s[k + 1..], le));
      (s[..k] + [s[k]]) + Insert(x, s[k + 1..], le);
      { assert s[..k] + [s[k]] == s[..k + 1]; }
      s[..k + 1] + Insert(x, s[k + 1..], le);
    }
  }

  /** `x` stops in front of the first element it may precede. */
  lemma InsertStop<T>(x: T, s: seq<T>, k: nat, le: (T, T) -> bool)
    requires k == |s| || (k < |s| && le(x, s[k]))
    ensures Insert(x, s[k..], le) == [x] + s[k..]
  {
  }

  /** `Insert` carries `x` past a prefix of elements it may not precede. */
  lemma {:induction false} InsertPrefix<T>(x: T, s: seq<T>, k: nat, le: (T, T) -> bool)
    requires k <= |s|
    requires forall t :: 0 <= t < k ==> !le(x, s[t])
    ensures Insert(x, s, le) == s[..k] + Insert(x, s[k..], le)
  {
    if k == 0 {
      assert s[..0] == [] && s[0..] == s;
    } else {
      InsertPrefix(x, s, k - 1, le);
      InsertStep(x, s, k - 1, le);
    }
  }

  /** Shifts the elements after `a[i]` that `x` may not precede one place
      left, and returns where the run stops. */
  method ShiftPast<T>(a: array<T>, i: nat, x: T, le: (T, T) -> bool) returns (j: nat)
    requires i < a.Length
    modifies a
    ensures i <= j < a.Length
    ensures forall t :: 0 <= t < i ==> a[t] == old(a[t])
    ensures forall t :: i <= t < j ==> a[t] == old(a[t + 1]) && !le(x, old(a[t + 1]))
    ensures forall t :: j < t < a.Length ==> a[t] == old(a[t])
    ensures j + 1 == a.Length || le(x, old(a[j + 1]))
  {
    j := i;
    while j + 1 < a.Length && !le(x, a[j + 1])
      invariant i <= j < a.Length
      invariant forall t :: 0 <= t < i ==> a[t] == old(a[t])
      invariant forall t :: i <= t < j ==> a[t] == old(a[t + 1]) && !le(x, old(a[t + 1]))
      invariant forall t :: j < t < a.Length ==> a[t] == old(a[t])
      decreases a.Length - j
    {
      a[j] := a[j + 1];
      j := j + 1;
    }
  }

  /** One step of the in-place sort: `a[i]` moves right past the elements of
      the sorted suffix it may not precede, which shift one place left. */
  method InsertInPlace<T>(a: array<T>, i: nat, le: (T, T) -> bool)
    requires i < a.Length
    modifies a
    ensures a[..i] == old(a[..i])
    ensures a[i..] == Insert(old(a[i]), old(a[i + 1..]), le)
  {
    ghost var before := a[..];
    var x := a[i];
    var j := ShiftPast(a, i, x, le);
    ghost var shifted := a[..];
    forall t | i <= t < j
      ensures shifted[t] == before[t + 1] && !le(x, before[t + 1])
    {
      assert a[t] == old(a[t + 1]);
    }
    a[j] := x;
    InsertAfterShift(before, shifted, i, j, x, le);
    assert a[..] == shifted[j := x];
    assert a[..i] == a[..][..i] && a[i..] == a[..][i..];
  }

  /** The shifted contents with `x` written where the run stopped are the
      untouched prefix followed by `x` inserted into the old suffix. */
  lemma InsertAfterShift<T>(before: seq<T>, shifted: seq<T>, i: nat, j: nat, x: T, le: (T, T) -> bool)
    requires i <= j < |before| == |shifted| && before[i] == x
    requires forall t :: 0 <= t < i ==> shifted[t] == before[t]
    requires forall t :: i <= t < j ==> shifted[t] == before[t + 1] && !le(x, before[t + 1])
    requires forall t :: j < t < |before| ==> shifted[t] == before[t]
    requires j + 1 == |before| || le(x, before[j + 1])
    ensures shifted[j := x][..i] == before[..i]
    ensures shifted[j := x][i..] == Insert(x, before[i + 1..], le)
  {
    var sorted := before[i + 1..];
    var k := j - i;
    forall t | 0 <= t < k
      ensures !le(x, sorted[t])
    {
      var u := i + t;
      assert i <= u < j && shifted[u] == before[u + 1];
      assert sorted[t] == before[u + 1];
    }
    assert k == |sorted| || le(x, sorted[k]);
    InsertPrefix(x, sorted, k, le);
    InsertStop(x, sorted, k, le);
    ShiftedShape(shifted[j := x], sorted, i, k, x);
  }

  /** The array after the shift, as a sequence: what precedes `i`, then the
      first `k` sorted elements, then `x`, then the other sorted elements. */
  lemma ShiftedShape<T>(c: seq<T>, sorted: seq<T>, i: nat, k: nat, x: T)
    requires i + k < |c| && |sorted| == |c| - i - 1
    requires forall t :: i <= t < i + k ==> c[t] == sorted[t - i]
    requires c[i + k] == x
    requires forall t :: i + k < t < |c| ==> c[t] == sorted[t - i - 1]
    ensures c[i..] == sorted[..k] + [x] + sorted[k..]
  {
    var r := sorted[..k] + [x] + sorted[k..];
    forall t | 0 <= t < |r|
      ensures c[i..][t] == r[t]
    {
      if t < k {
        assert r[t] == sorted[t];
      } else if t > k {
        assert r[t] == sorted[t - 1];
      }
    }
  }

  /** Sorts `a` in place, inserting each element, from the right, into the
      sorted suffix after it. */
  method SortInPlace<T>(a: array<T>, le: (T, T) -> bool)
    modifies a
    ensures a[..] == SortBy(old(a[..]), le)
  {
    ghost var original := a[..];
    var n := a.Length;
    if n == 0 {
      return;
    }
    var i := n - 1;
    assert original[i..] == [a[i]];
    while i > 0
      invariant 0 <= i < n
      invariant a[..i] == original[..i]
      invariant a[i..] == SortBy(original[i..], le)
      decreases i
    {
      i := i - 1;
      ghost var rest := original[i..];
      assert rest[0] == original[i] && rest[1..] == original[i + 1..];
      assert a[..i + 1] == original[..i + 1];
      assert a[i] == rest[0] && a[..i] == original[..i];
      InsertInPlace(a, i, le);
      assert a[i..] == Insert(rest[0], SortBy(rest[1..], le), le);
      assert a[i..] == SortBy(rest, le);
    }
    assert a[..] == a[0..];
    assert original == original[0..];
  }
}
