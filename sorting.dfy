/**
 * `Array.prototype.sort` with a comparator: the stable sort it performs
 * when the comparator is consistent, as a function, and in place on an
 * array as an insertion sort.
 */
module Sorting {
  /** Insert `x` ahead of the first element it does not compare after. */
  function Insert<T>(x: T, s: seq<T>, cmp: (T, T) -> int): (r: seq<T>)
    ensures |r| == |s| + 1
  {
    if s == [] then [x]
    else if cmp(x, s[0]) <= 0 then [x] + s
    else [s[0]] + Insert(x, s[1..], cmp)
  }

  /**
   * The result of a stable sort of `s` by `cmp`: each element is inserted
   * into the sorted rest ahead of every element it ties with.
   */
  function SortBy<T>(s: seq<T>, cmp: (T, T) -> int): (r: seq<T>)
    ensures |r| == |s|
  {
    if s == [] then [] else Insert(s[0], SortBy(s[1..], cmp), cmp)
  }

  ghost predicate Sorted<T>(s: seq<T>, cmp: (T, T) -> int) {
    forall i, j :: 0 <= i < j < |s| ==> cmp(s[i], s[j]) <= 0
  }

  /** `cmp` is a total preorder on the elements of `s` (a consistent comparator). */
  ghost predicate TotalPreorder<T>(cmp: (T, T) -> int, s: seq<T>) {
    (forall a, b :: a in s && b in s ==> cmp(a, b) <= 0 || cmp(b, a) <= 0) &&
    (forall a, b, c :: a in s && b in s && c in s && cmp(a, b) <= 0 && cmp(b, c) <= 0 ==> cmp(a, c) <= 0)
  }

  lemma {:induction false} InsertCount<T>(x: T, s: seq<T>, cmp: (T, T) -> int)
    ensures multiset(Insert(x, s, cmp)) == multiset(s) + multiset{x}
  {
    if s != [] {
      assert s == [s[0]] + s[1..];
      if cmp(x, s[0]) > 0 {
        InsertCount(x, s[1..], cmp);
      }
    }
  }

  /** Sorting only reorders. */
  lemma {:induction false} SortByPermutation<T>(s: seq<T>, cmp: (T, T) -> int)
    ensures multiset(SortBy(s, cmp)) == multiset(s)
  {
    if s != [] {
      assert s == [s[0]] + s[1..];
      SortByPermutation(s[1..], cmp);
      InsertCount(s[0], SortBy(s[1..], cmp), cmp);
    }
  }

  lemma {:induction false} InsertSorted<T>(x: T, s: seq<T>, cmp: (T, T) -> int)
    requires Sorted(s, cmp) && TotalPreorder(cmp, [x] + s)
    ensures Sorted(Insert(x, s, cmp), cmp)
  {
    if s != [] {
      if cmp(x, s[0]) <= 0 {
        ConsSorted(x, s, cmp);
      } else {
        var t := s[1..];
        assert TotalPreorder(cmp, [x] + t) by {
          forall a | a in [x] + t
            ensures a in [x] + s
          {
          }
        }
        InsertSorted(x, t, cmp);
        InsertCount(x, t, cmp);
        HeadLeqRest(x, s, cmp);
        forall y | y in Insert(x, t, cmp)
          ensures cmp(s[0], y) <= 0
        {
          assert y in multiset(Insert(x, t, cmp));
        }
        HeadFirst(s[0], Insert(x, t, cmp), cmp);
      }
    }
  }

  /** `x` ahead of a sorted list it does not compare after stays sorted. */
  lemma ConsSorted<T>(x: T, s: seq<T>, cmp: (T, T) -> int)
    requires s != [] && Sorted(s, cmp) && TotalPreorder(cmp, [x] + s)
    requires cmp(x, s[0]) <= 0
    ensures Sorted([x] + s, cmp)
  {
    var r := [x] + s;
    forall j | 0 < j < |r|
      ensures cmp(x, r[j]) <= 0
    {
      assert r[j] == s[j - 1];
      assert s[0] in [x] + s && r[j] in [x] + s;
    }
  }

  /** The head of a sorted list that `x` compares after is no greater than `x` or the rest. */
  lemma HeadLeqRest<T>(x: T, s: seq<T>, cmp: (T, T) -> int)
    requires s != [] && Sorted(s, cmp) && TotalPreorder(cmp, [x] + s)
    requires cmp(x, s[0]) > 0
    ensures forall y :: y in multiset(s[1..]) + multiset{x} ==> cmp(s[0], y) <= 0
  {
    assert x in [x] + s && s[0] in [x] + s;
    forall y | y in multiset(s[1..]) + multiset{x}
      ensures cmp(s[0], y) <= 0
    {
      if y != x {
        assert y in s[1..];
        var k :| 0 <= k < |s| - 1 && s[1..][k] == y;
        assert s[k + 1] == y;
      }
    }
  }

  lemma HeadFirst<T>(h: T, t: seq<T>, cmp: (T, T) -> int)
    requires Sorted(t, cmp)
    requires forall y :: y in t ==> cmp(h, y) <= 0
    ensures Sorted([h] + t, cmp)
  {
    var r := [h] + t;
    forall i, j | 0 <= i < j < |r|
      ensures cmp(r[i], r[j]) <= 0
    {
      assert r[j] == t[j - 1];
      if i > 0 {
        assert r[i] == t[i - 1];
      }
    }
  }

  /** Under a consistent comparator the result is sorted. */
  lemma {:induction false} SortBySorted<T>(s: seq<T>, cmp: (T, T) -> int)
    requires TotalPreorder(cmp, s)
    ensures Sorted(SortBy(s, cmp), cmp)
  {
    if s != [] {
      var t := s[1..];
      assert TotalPreorder(cmp, t) by {
        forall a | a in t
          ensures a in s
        {
        }
      }
      SortBySorted(t, cmp);
      SortByPermutation(t, cmp);
      assert TotalPreorder(cmp, [s[0]] + SortBy(t, cmp)) by {
        forall a | a in [s[0]] + SortBy(t, cmp)
          ensures a in s
        {
          if a != s[0] {
            assert a in multiset(t);
          }
        }
      }
      InsertSorted(s[0], SortBy(t, cmp), cmp);
    }
  }

  /**
   * A list already in order comes back unchanged: the sort never moves an
   * element past one it ties with.
   */
  lemma {:induction false} SortBySortedUnchanged<T>(s: seq<T>, cmp: (T, T) -> int)
    requires Sorted(s, cmp)
    ensures SortBy(s, cmp) == s
  {
    if s != [] {
      var t := s[1..];
      assert Sorted(t, cmp) by {
        forall i, j | 0 <= i < j < |t|
          ensures cmp(t[i], t[j]) <= 0
        {
          assert t[i] == s[i + 1] && t[j] == s[j + 1];
        }
      }
      SortBySortedUnchanged(t, cmp);
      if t != [] {
        assert t[0] == s[1];
      }
      assert [s[0]] + t == s;
    }
  }

  /** Under a consistent comparator, sorting twice is sorting once. */
  lemma SortByIdempotent<T>(s: seq<T>, cmp: (T, T) -> int)
    requires TotalPreorder(cmp, s)
    ensures SortBy(SortBy(s, cmp), cmp) == SortBy(s, cmp)
  {
    SortBySorted(s, cmp);
    SortBySortedUnchanged(SortBy(s, cmp), cmp);
  }

  /** `a` and `b` compare equal: neither is placed after the other. */
  predicate Tied<T>(cmp: (T, T) -> int, a: T, b: T) {
    cmp(a, b) <= 0 && cmp(b, a) <= 0
  }

  /** The elements of `s` tied with `e`, in list order. */
  function TiesOf<T>(s: seq<T>, cmp: (T, T) -> int, e: T): (r: seq<T>)
    ensures |r| <= |s|
  {
    if s == [] then [] else (if Tied(cmp, s[0], e) then [s[0]] else []) + TiesOf(s[1..], cmp, e)
  }

  /** Taking the ties of a list with a head element in front. */
  lemma TiesCons<T>(a: T, s: seq<T>, cmp: (T, T) -> int, e: T)
    ensures TiesOf([a] + s, cmp, e) == (if Tied(cmp, a, e) then [a] else []) + TiesOf(s, cmp, e)
  {
    assert ([a] + s)[1..] == s;
  }

  /** When `x` and an element of `r` both tie with `e`, `x` sorts no later. */
  ghost predicate LeadsTies<T>(x: T, r: seq<T>, cmp: (T, T) -> int, e: T) {
    forall y :: y in r ==> Tied(cmp, x, e) && Tied(cmp, y, e) ==> cmp(x, y) <= 0
  }

  /**
   * Inserting `x` puts it ahead of every element it ties with (given that
   * two elements tied with `e` are tied with each other).
   */
  lemma {:induction false} InsertTies<T>(x: T, r: seq<T>, cmp: (T, T) -> int, e: T)
    requires LeadsTies(x, r, cmp, e)
    ensures TiesOf(Insert(x, r, cmp), cmp, e) == (if Tied(cmp, x, e) then [x] else []) + TiesOf(r, cmp, e)
  {
    if r == [] {
    } else if cmp(x, r[0]) <= 0 {
      TiesCons(x, r, cmp, e);
    } else {
      var rest := r[1..];
      assert r == [r[0]] + rest;
      assert !(Tied(cmp, x, e) && Tied(cmp, r[0], e)) by {
        assert r[0] in r;
      }
      assert LeadsTies(x, rest, cmp, e) by {
        assert forall y :: y in rest ==> y in r;
      }
      InsertTies(x, rest, cmp, e);
      TiesCons(r[0], Insert(x, rest, cmp), cmp, e);
      TiesCons(r[0], rest, cmp, e);
    }
  }

  /**
   * The sort is stable: the elements tied with any `e` come out in the
   * order they went in.
   */
  lemma {:induction false} SortByStable<T>(s: seq<T>, cmp: (T, T) -> int, e: T)
    requires TotalPreorder(cmp, [e] + s)
    ensures TiesOf(SortBy(s, cmp), cmp, e) == TiesOf(s, cmp, e)
  {
    if s != [] {
      var t := s[1..];
      assert TotalPreorder(cmp, [e] + t) by {
        forall a | a in [e] + t
          ensures a in [e] + s
        {
        }
      }
      SortByStable(t, cmp, e);
      SortByPermutation(t, cmp);
      assert LeadsTies(s[0], SortBy(t, cmp), cmp, e) by {
        forall y | y in SortBy(t, cmp) && Tied(cmp, s[0], e) && Tied(cmp, y, e)
          ensures cmp(s[0], y) <= 0
        {
          assert y in multiset(SortBy(t, cmp));
          assert s[0] in [e] + s && e in [e] + s && y in [e] + s;
        }
      }
      InsertTies(s[0], SortBy(t, cmp), cmp, e);
    }
  }

  lemma {:induction false} InsertAt<T>(x: T, t: seq<T>, cmp: (T, T) -> int, p: nat)
    requires p <= |t|
    requires forall k :: 0 <= k < p ==> cmp(x, t[k]) > 0
    requires p == |t| || cmp(x, t[p]) <= 0
    ensures Insert(x, t, cmp) == t[..p] + [x] + t[p..]
  {
    if p > 0 {
      InsertAt(x, t[1..], cmp, p - 1);
      assert t[..p] == [t[0]] + t[1..][..p - 1];
      assert t[p..] == t[1..][p - 1..];
    }
  }

  /**
   * `array.sort(cmp)` in place, as an insertion sort from the back: each
   * element is moved right past the elements it compares after.
   */
  method SortInPlace<T>(a: array<T>, cmp: (T, T) -> int)
    modifies a
    ensures a[..] == SortBy(old(a[..]), cmp)
  {
    ghost var s := a[..];
    var i := a.Length;
    while i > 0
      invariant 0 <= i <= a.Length
      invariant a[..i] == s[..i]
      invariant a[i..] == SortBy(s[i..], cmp)
    {
      i := i - 1;
      assert s[i..] == [s[i]] + s[i + 1..];
      InsertFrom(a, i, cmp);
    }
  }

  /** Move `a[i]` right, past the elements of the (sorted) rest it compares after. */
  method InsertFrom<T>(a: array<T>, i: nat, cmp: (T, T) -> int)
    requires i < a.Length
    modifies a
    ensures a[..i] == old(a[..i])
    ensures a[i..] == Insert(old(a[i]), old(a[i + 1..]), cmp)
  {
    var x := a[i];
    var j := i;
    while j + 1 < a.Length && cmp(x, a[j + 1]) > 0
      invariant i <= j < a.Length
      invariant forall k :: 0 <= k < i ==> a[k] == old(a[k])
      invariant forall k :: i <= k < j ==> a[k] == old(a[k + 1])
      invariant forall k :: j < k < a.Length ==> a[k] == old(a[k])
      invariant forall k :: i < k <= j ==> cmp(x, old(a[k])) > 0
    {
      a[j] := a[j + 1];
      j := j + 1;
    }
    a[j] := x;
    InsertFromDone(old(a[..]), a[..], i, j, cmp);
  }

  /** The state `InsertFrom` leaves is the insertion of `old[i]` into `old[i + 1..]`. */
  lemma InsertFromDone<T>(before: seq<T>, after: seq<T>, i: nat, j: nat, cmp: (T, T) -> int)
    requires i <= j < |before| == |after|
    requires forall k :: 0 <= k < i ==> after[k] == before[k]
    requires forall k :: i <= k < j ==> after[k] == before[k + 1]
    requires after[j] == before[i]
    requires forall k :: j < k < |after| ==> after[k] == before[k]
    requires forall k :: i < k <= j ==> cmp(before[i], before[k]) > 0
    requires j + 1 == |before| || cmp(before[i], before[j + 1]) <= 0
    ensures after[..i] == before[..i]
    ensures after[i..] == Insert(before[i], before[i + 1..], cmp)
  {
    var t := before[i + 1..];
    InsertAt(before[i], t, cmp, j - i);
    var r := t[..j - i] + [before[i]] + t[j - i..];
    forall k | 0 <= k < |r|
      ensures after[i + k] == r[k]
    {
      if k < j - i {
        assert r[k] == t[k];
      } else if k > j - i {
        assert r[k] == t[k - 1];
      }
    }
    assert after[i..] == r;
  }
}
