/**
 * `getNeighborhoodOrder` of the delivery dashboard
 * (src/hooks/useDeliveryManagement.tsx): a greedy one-hop walk over the
 * hard-coded neighbourhood adjacency table of Divinópolis.
 */
module NeighbourhoodWalk {
  import opened Text
  import opened Grouping
  import opened Tally
  /** `BAIRROS_PROXIMIDADE`: each neighbourhood's neighbours, in table order. */
  const Proximity: map<string, seq<string>> := map[
    "Centro" := ["Esplanada", "São Luís", "Paraíso", "Santa Rosa"],
    "Esplanada" := ["Centro", "Bom Pastor", "Icaraí", "São Luís"],
    "Bom Pastor" := ["Esplanada", "Interlagos", "Icaraí"],
    "São Luís" := ["Centro", "Esplanada", "Paraíso"],
    "Paraíso" := ["Centro", "São Luís", "Santa Rosa"],
    "Icaraí" := ["Esplanada", "Bom Pastor"],
    "Interlagos" := ["Bom Pastor", "Icaraí"],
    "Santa Rosa" := ["Centro", "Paraíso"]
  ]

  /**
   * An adjacency table. The walk below is stated over any table and applied
   * to `Proximity`, so that reasoning about the walk does not unfold the
   * concrete table.
   */
  type Table = map<string, seq<string>>

  /** `BAIRROS_PROXIMIDADE[current] || []`. */
  function Neighbours(table: Table, n: string): seq<string> {
    if n in table then table[n] else []
  }

  /** Every entry lists distinct, non-empty names. */
  ghost predicate WellFormed(table: Table) {
    forall n :: n in table ==> Distinct(table[n]) && "" !in table[n]
  }

  lemma ProximityWellFormed()
    ensures WellFormed(Proximity)
  {
  }

  // ---------------------------------------------------------------------
  // getNeighborhoodOrder

  /** `remaining.splice(remaining.indexOf(x), 1)`: drop the first occurrence of `x`. */
  function RemoveFirst(s: seq<string>, x: string): (r: seq<string>)
    ensures |r| <= |s|
  {
    if s == [] then []
    else if s[0] == x then s[1..]
    else [s[0]] + RemoveFirst(s[1..], x)
  }

  lemma {:induction false} RemoveFirstCount(s: seq<string>, x: string)
    ensures x in s ==> multiset(RemoveFirst(s, x)) == multiset(s) - multiset{x}
    ensures x !in s ==> RemoveFirst(s, x) == s
  {
    if s != [] {
      assert s == [s[0]] + s[1..];
      RemoveFirstCount(s[1..], x);
    }
  }

  lemma {:induction false} SpliceIsRemoveFirst(s: seq<string>, x: string)
    requires x in s
    ensures s[..IndexOf(s, x)] + s[IndexOf(s, x) + 1..] == RemoveFirst(s, x)
  {
    if s[0] != x {
      var t := s[1..];
      assert x in t by {
        assert s == [s[0]] + t;
      }
      SpliceIsRemoveFirst(t, x);
      var i := IndexOf(s, x);
      assert i == IndexOf(t, x) + 1;
      var j := i - 1;
      assert t[..j] + t[j + 1..] == RemoveFirst(t, x);
      assert s[..i] == [s[0]] + t[..j];
      assert s[i + 1..] == t[j + 1..];
      AppendAssoc([s[0]], t[..j], t[j + 1..]);
    }
  }

  /**
   * The neighbours of `prox`, taken in table order, that are still in `rem`,
   * and what is left of `rem` once each is spliced out.
   */
  function Pull(prox: seq<string>, rem: seq<string>): (r: (seq<string>, seq<string>))
    ensures |r.1| <= |rem|
  {
    if prox == [] then ([], rem)
    else if prox[0] in rem then
      var t := Pull(prox[1..], RemoveFirst(rem, prox[0]));
      ([prox[0]] + t.0, t.1)
    else Pull(prox[1..], rem)
  }

  /** `Pull` moves names from `rem` to the pulled list, and pulls only neighbours. */
  lemma {:induction false} PullCount(prox: seq<string>, rem: seq<string>)
    ensures multiset(Pull(prox, rem).0) + multiset(Pull(prox, rem).1) == multiset(rem)
    ensures forall x :: x in Pull(prox, rem).0 ==> x in prox
  {
    if prox != [] {
      var x, tail := prox[0], prox[1..];
      assert prox == [x] + tail;
      if x in rem {
        var rest := RemoveFirst(rem, x);
        RemoveFirstCount(rem, x);
        assert multiset(rem) == multiset(rest) + multiset{x};
        PullCount(tail, rest);
        var t := Pull(tail, rest);
        assert Pull(prox, rem) == ([x] + t.0, t.1);
        assert multiset([x] + t.0) == multiset{x} + multiset(t.0);
        forall y | y in [x] + t.0
          ensures y in prox
        {
          if y != x {
            assert y in t.0 && y in tail;
          }
        }
      } else {
        PullCount(tail, rem);
        assert Pull(prox, rem) == Pull(tail, rem);
      }
    }
  }

  /**
   * The order `getNeighborhoodOrder` produces from `remaining`: pop the
   * front name (stop on a falsy one), follow it by its table neighbours
   * still remaining, and continue with what is left.
   */
  function WalkOrder(table: Table, ns: seq<string>): seq<string>
    decreases |ns|
  {
    if ns == [] || ns[0] == "" then []
    else
      var t := Pull(Neighbours(table, ns[0]), ns[1..]);
      [ns[0]] + t.0 + WalkOrder(table, t.1)
  }

  /** The walk never invents or repeats a name. */
  lemma {:induction false} WalkSub(table: Table, ns: seq<string>)
    ensures multiset(WalkOrder(table, ns)) <= multiset(ns)
    decreases |ns|
  {
    if ns != [] && ns[0] != "" {
      assert ns == [ns[0]] + ns[1..];
      var t := Pull(Neighbours(table, ns[0]), ns[1..]);
      PullCount(Neighbours(table, ns[0]), ns[1..]);
      WalkSub(table, t.1);
    }
  }

  /**
   * `getNeighborhoodOrder`. The `withCounts` list the source computes and
   * never reads is omitted.
   */
  method GetNeighborhoodOrder(table: Table, neighborhoods: seq<string>) returns (ordered: seq<string>)
    ensures ordered == WalkOrder(table, neighborhoods)
  {
    ordered := [];
    var remaining := neighborhoods;
    while |remaining| > 0
      invariant ordered + WalkOrder(table, remaining) == WalkOrder(table, neighborhoods)
      decreases |remaining|
    {
      var current := remaining[0];
      ghost var popped := remaining;
      remaining := remaining[1..];
      if current == "" {
        break;
      }
      WalkInvariantStep(table, ordered, popped, WalkOrder(table, neighborhoods));
      ordered, remaining := PullNeighbours(Neighbours(table, current), ordered + [current], remaining);
    }
  }

  /** One round of the outer loop keeps `ordered + WalkOrder(remaining)` fixed. */
  lemma WalkInvariantStep(table: Table, done: seq<string>, popped: seq<string>, w: seq<string>)
    requires popped != [] && popped[0] != ""
    requires done + WalkOrder(table, popped) == w
    ensures var t := Pull(Neighbours(table, popped[0]), popped[1..]);
      (done + [popped[0]] + t.0) + WalkOrder(table, t.1) == w
  {
    var t := Pull(Neighbours(table, popped[0]), popped[1..]);
    assert WalkOrder(table, popped) == ([popped[0]] + t.0) + WalkOrder(table, t.1);
    AppendAssoc4(done, [popped[0]], t.0, WalkOrder(table, t.1));
  }

  /**
   * The `proximos.forEach` step of `getNeighborhoodOrder`: each neighbour
   * still in `remaining` is pushed onto `ordered` and spliced out.
   * `IndexOf` answers `|remaining|` where `indexOf` answers -1, so
   * `index > -1` reads `index < |remaining|`.
   */
  method PullNeighbours(proximos: seq<string>, ordered0: seq<string>, remaining0: seq<string>)
    returns (ordered: seq<string>, remaining: seq<string>)
    ensures ordered == ordered0 + Pull(proximos, remaining0).0
    ensures remaining == Pull(proximos, remaining0).1
  {
    ordered, remaining := ordered0, remaining0;
    var j := 0;
    while j < |proximos|
      invariant 0 <= j <= |proximos|
      invariant ordered + Pull(proximos[j..], remaining).0 == ordered0 + Pull(proximos, remaining0).0
      invariant Pull(proximos[j..], remaining).1 == Pull(proximos, remaining0).1
    {
      var proximo := proximos[j];
      var index := IndexOf(remaining, proximo);
      assert proximos[j..] == [proximo] + proximos[j + 1..];
      if index < |remaining| {
        SpliceIsRemoveFirst(remaining, proximo);
        ordered := ordered + [proximo];
        remaining := remaining[..index] + remaining[index + 1..];
      }
      j := j + 1;
    }
  }

  /** Without a blank name the walk is a permutation of its input. */
  lemma {:induction false} WalkPermutation(table: Table, ns: seq<string>)
    requires "" !in ns
    ensures multiset(WalkOrder(table, ns)) == multiset(ns)
    decreases |ns|
  {
    if ns != [] {
      var n := Neighbours(table, ns[0]);
      var t := Pull(n, ns[1..]);
      assert multiset(ns) == multiset{ns[0]} + multiset(ns[1..]) by {
        assert ns == [ns[0]] + ns[1..];
      }
      PullCount(n, ns[1..]);
      assert "" !in t.1 by {
        assert multiset(t.1)[""] <= multiset(ns)[""];
      }
      WalkPermutation(table, t.1);
      assert WalkOrder(table, ns) == [ns[0]] + t.0 + WalkOrder(table, t.1);
    }
  }

  /** A blank name stops the walk: it is never emitted and something is always dropped. */
  lemma {:induction false} WalkStopsAtBlank(table: Table, ns: seq<string>)
    requires WellFormed(table) && "" in ns
    ensures "" !in WalkOrder(table, ns)
    ensures |WalkOrder(table, ns)| < |ns|
    decreases |ns|
  {
    if ns[0] != "" {
      assert ns == [ns[0]] + ns[1..];
      var n := Neighbours(table, ns[0]);
      assert "" !in n;
      var t := Pull(n, ns[1..]);
      PullCount(n, ns[1..]);
      assert "" !in t.0;
      assert "" in t.1 by {
        assert multiset(t.0)[""] == 0;
        assert multiset(ns[1..])[""] > 0;
      }
      WalkStopsAtBlank(table, t.1);
      assert |multiset(t.0) + multiset(t.1)| == |ns| - 1;
    }
  }

  /** Duplicate names can only shrink: a walk over distinct names emits distinct names. */
  lemma WalkDistinct(table: Table, ns: seq<string>)
    requires Distinct(ns)
    ensures Distinct(WalkOrder(table, ns))
  {
    WalkSub(table, ns);
    DistinctSub(WalkOrder(table, ns), ns);
  }

  lemma DistinctSub(a: seq<string>, b: seq<string>)
    requires multiset(a) <= multiset(b) && Distinct(b)
    ensures Distinct(a)
  {
    forall i, j | 0 <= i < j < |a|
      ensures a[i] != a[j]
    {
      if a[i] == a[j] {
        assert a == a[..i] + [a[i]] + a[i + 1..j] + [a[j]] + a[j + 1..];
        assert multiset(a)[a[i]] >= 2;
        DistinctCount(b, a[i]);
      }
    }
  }

  // The one-hop step, spelled out with filters.

  /** `prox.filter(p => rem.includes(p))`. */
  function Present(prox: seq<string>, rem: seq<string>): (r: seq<string>)
    ensures forall x :: x in r <==> x in prox && x in rem
  {
    if prox == [] then []
    else (if prox[0] in rem then [prox[0]] else []) + Present(prox[1..], rem)
  }

  /** `rem.filter(x => !prox.includes(x))`. */
  function Without(rem: seq<string>, prox: seq<string>): (r: seq<string>)
    ensures forall x :: x in r <==> x in rem && x !in prox
  {
    if rem == [] then []
    else (if rem[0] in prox then [] else [rem[0]]) + Without(rem[1..], prox)
  }

  lemma {:induction false} PresentCongruent(prox: seq<string>, a: seq<string>, b: seq<string>)
    requires forall x :: x in prox ==> (x in a <==> x in b)
    ensures Present(prox, a) == Present(prox, b)
  {
    if prox != [] {
      PresentCongruent(prox[1..], a, b);
    }
  }

  lemma {:induction false} WithoutCongruent(rem: seq<string>, a: seq<string>, b: seq<string>)
    requires forall x :: x in rem ==> (x in a <==> x in b)
    ensures Without(rem, a) == Without(rem, b)
  {
    if rem != [] {
      WithoutCongruent(rem[1..], a, b);
    }
  }

  lemma {:induction false} WithoutTwice(s: seq<string>, a: seq<string>, b: seq<string>)
    ensures Without(Without(s, a), b) == Without(s, a + b)
  {
    if s != [] {
      WithoutTwice(s[1..], a, b);
      var w := Without(s, a);
      if s[0] in a {
        assert w == Without(s[1..], a);
      } else {
        assert w == [s[0]] + Without(s[1..], a);
        assert w[0] == s[0] && w[1..] == Without(s[1..], a);
      }
    }
  }

  lemma {:induction false} RemoveFirstDistinct(s: seq<string>, x: string)
    requires Distinct(s)
    ensures RemoveFirst(s, x) == Without(s, [x])
    ensures Distinct(RemoveFirst(s, x))
  {
    if s != [] {
      RemoveFirstDistinct(s[1..], x);
      if s[0] == x {
        WithoutCongruent(s[1..], [x], []);
        WithoutEmpty(s[1..]);
      }
    }
  }

  lemma {:induction false} WithoutEmpty(s: seq<string>)
    ensures Without(s, []) == s
  {
    if s != [] {
      WithoutEmpty(s[1..]);
    }
  }

  /** Over distinct names, `Pull` takes the present neighbours and leaves the rest in order. */
  lemma {:induction false} PullFilters(prox: seq<string>, rem: seq<string>)
    requires Distinct(prox) && Distinct(rem)
    ensures Pull(prox, rem) == (Present(prox, rem), Without(rem, prox))
  {
    if prox == [] {
      WithoutEmpty(rem);
    } else {
      var p := prox[0];
      assert Distinct(prox[1..]);
      assert p !in prox[1..];
      if p in rem {
        RemoveFirstDistinct(rem, p);
        PullFilters(prox[1..], RemoveFirst(rem, p));
        PresentCongruent(prox[1..], RemoveFirst(rem, p), rem);
        WithoutTwice(rem, [p], prox[1..]);
        assert [p] + prox[1..] == prox;
      } else {
        PullFilters(prox[1..], rem);
        assert Present(prox, rem) == Present(prox[1..], rem);
        assert prox == [p] + prox[1..];
        WithoutCongruent(rem, prox[1..], prox);
      }
    }
  }

  /**
   * The one-hop rule: the popped front name is followed at once by those of
   * its table neighbours still waiting, in table order; the walk then
   * resumes from the remaining names in their original order, so a pulled
   * neighbour's own table entry is never consulted.
   */
  lemma WalkStep(table: Table, ns: seq<string>)
    requires WellFormed(table) && Distinct(ns) && ns != [] && ns[0] != ""
    ensures WalkOrder(table, ns)
      == [ns[0]] + Present(Neighbours(table, ns[0]), ns[1..]) + WalkOrder(table, Without(ns[1..], Neighbours(table, ns[0])))
  {
    assert Distinct(Neighbours(table, ns[0])) && "" !in Neighbours(table, ns[0]);
    assert Distinct(ns[1..]);
    PullFilters(Neighbours(table, ns[0]), ns[1..]);
  }

  /** A name the table does not list pulls nothing. */
  lemma UnlistedPullsNothing(table: Table, ns: seq<string>)
    requires ns != [] && ns[0] != "" && ns[0] !in table
    ensures WalkOrder(table, ns) == [ns[0]] + WalkOrder(table, ns[1..])
  {
  }

  /**
   * Interlagos pulls Bom Pastor, but Bom Pastor does not pull its own
   * neighbour Esplanada: Centro is popped next and pulls it. A depth-first
   * walk would give Interlagos, Bom Pastor, Esplanada, Centro.
   */
  lemma OneHopNotDepthFirst()
    ensures WalkOrder(Proximity, ["Interlagos", "Centro", "Esplanada", "Bom Pastor"])
      == ["Interlagos", "Bom Pastor", "Centro", "Esplanada"]
  {
    var interlagos := ["Bom Pastor", "Icaraí"];
    var centro := ["Esplanada", "São Luís", "Paraíso", "Santa Rosa"];
    assert Neighbours(Proximity, "Interlagos") == interlagos;
    assert Neighbours(Proximity, "Centro") == centro;
    var rest := ["Centro", "Esplanada"];
    assert RemoveFirst(["Centro", "Esplanada", "Bom Pastor"], "Bom Pastor") == rest by {
      assert RemoveFirst(["Bom Pastor"], "Bom Pastor") == [];
      assert RemoveFirst(["Esplanada", "Bom Pastor"], "Bom Pastor") == ["Esplanada"];
    }
    assert "Icaraí" !in rest;
    assert Pull(interlagos[1..], rest) == ([], rest);
    var all := ["Centro", "Esplanada", "Bom Pastor"];
    assert interlagos[0] == all[2];
    assert Pull(interlagos, all) == ([interlagos[0]] + Pull(interlagos[1..], rest).0, rest);
    assert Pull(centro[3..], []) == ([], []);
    assert Pull(centro[2..], []) == ([], []);
    assert Pull(centro[1..], []) == ([], []);
    assert Pull(centro, ["Esplanada"]) == (["Esplanada"], []);
  }
}
