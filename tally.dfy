/**
 * Counting keys in a JavaScript `Map` that is updated with
 * `map.set(k, (map.get(k) || 0) + 1)`: the map keeps its keys in the order
 * they were first set, so it is a sequence of distinct keys beside their
 * counts.
 */
module Tally {

  /** How often `k` occurs in `ks`. */
  function Occurrences<K(==,!new)>(ks: seq<K>, k: K): (n: nat)
    ensures n <= |ks|
    ensures n == 0 <==> k !in ks
  {
    if ks == [] then 0
    else Occurrences(ks[..|ks| - 1], k) + (if ks[|ks| - 1] == k then 1 else 0)
  }

  predicate Distinct<K(==,!new)>(ks: seq<K>) {
    forall i, j :: 0 <= i < j < |ks| ==> ks[i] != ks[j]
  }

  /** The keys of `ks`, each once, in the order they first occur. */
  function FirstSeen<K(==,!new)>(ks: seq<K>): (r: seq<K>)
    ensures Distinct(r)
    ensures forall k :: k in r <==> k in ks
  {
    if ks == [] then []
    else
      var earlier := FirstSeen(ks[..|ks| - 1]);
      var k := ks[|ks| - 1];
      if k in earlier then earlier else earlier + [k]
  }

  /** First index of `k` in `keys`, or `|keys|` when absent (the lookup behind `map.has` and `map.get`). */
  function IndexOf<K(==,!new)>(keys: seq<K>, k: K): (i: nat)
    ensures i <= |keys|
    ensures i < |keys| <==> k in keys
    ensures i < |keys| ==> keys[i] == k
    ensures forall j :: 0 <= j < i ==> keys[j] != k
  {
    if keys == [] then 0
    else if keys[0] == k then 0
    else 1 + IndexOf(keys[1..], k)
  }

  /** A counting map: its keys in insertion order and the count of each. */
  datatype Counts<K> = Counts(keys: seq<K>, counts: seq<nat>)

  /** The map holds exactly the keys of `ks`, in first-seen order, each with its number of occurrences. */
  predicate CountsOf<K(==,!new)>(c: Counts<K>, ks: seq<K>) {
    c.keys == FirstSeen(ks) && |c.counts| == |c.keys|
    && forall j :: 0 <= j < |c.keys| ==> c.counts[j] == Occurrences(ks, c.keys[j])
  }

  /** The counting map of `ks`. */
  function CountsFor<K(==,!new)>(ks: seq<K>): (c: Counts<K>)
    ensures CountsOf(c, ks)
  {
    var keys := FirstSeen(ks);
    Counts(keys, seq(|keys|, j requires 0 <= j < |keys| => Occurrences(ks, keys[j])))
  }

  /** A counting map is determined by what it counts. */
  lemma CountsUnique<K(!new)>(c: Counts<K>, ks: seq<K>)
    requires CountsOf(c, ks)
    ensures c == CountsFor(ks)
  {
    assert c.counts == CountsFor(ks).counts;
  }

  /** `map.get(k) || 0`. */
  function Get<K(==,!new)>(c: Counts<K>, k: K): nat
    requires |c.counts| == |c.keys|
  {
    var i := IndexOf(c.keys, k);
    if i < |c.keys| then c.counts[i] else 0
  }

  lemma SnocCounts<K(!new)>(ks: seq<K>, x: K, k: K)
    ensures Occurrences(ks + [x], k) == Occurrences(ks, k) + (if x == k then 1 else 0)
    ensures FirstSeen(ks + [x]) == if x in FirstSeen(ks) then FirstSeen(ks) else FirstSeen(ks) + [x]
  {
    assert (ks + [x])[..|ks|] == ks;
  }

  /** A key not yet counted goes last with count 1. */
  lemma BumpNew<K(!new)>(c: Counts<K>, ks: seq<K>, k: K)
    requires CountsOf(c, ks) && k !in c.keys
    ensures CountsOf(Counts(c.keys + [k], c.counts + [1]), ks + [k])
  {
    SnocCounts(ks, k, k);
    var c' := Counts(c.keys + [k], c.counts + [1]);
    forall j | 0 <= j < |c'.keys|
      ensures c'.counts[j] == Occurrences(ks + [k], c'.keys[j])
    {
      SnocCounts(ks, k, c'.keys[j]);
      if j < |c.keys| {
        assert c'.keys[j] == c.keys[j] != k;
      }
    }
  }

  /** A key already counted at index `i` has its count incremented in place. */
  lemma BumpOld<K(!new)>(c: Counts<K>, ks: seq<K>, k: K, i: nat)
    requires CountsOf(c, ks) && i < |c.keys| && c.keys[i] == k
    ensures CountsOf(Counts(c.keys, c.counts[i := c.counts[i] + 1]), ks + [k])
  {
    SnocCounts(ks, k, k);
    var c' := Counts(c.keys, c.counts[i := c.counts[i] + 1]);
    forall j | 0 <= j < |c'.keys|
      ensures c'.counts[j] == Occurrences(ks + [k], c'.keys[j])
    {
      SnocCounts(ks, k, c'.keys[j]);
      if j != i {
        assert c.keys[j] != k by {
          assert Distinct(c.keys);
        }
      }
    }
  }

  /** `map.set(k, (map.get(k) || 0) + 1)`: a new key goes last with count 1, a known one is incremented in place. */
  method Bump<K(==,!new)>(c: Counts<K>, ghost ks: seq<K>, k: K) returns (c': Counts<K>)
    requires CountsOf(c, ks)
    ensures CountsOf(c', ks + [k])
  {
    var i := IndexOf(c.keys, k);
    if i == |c.keys| {
      c' := Counts(c.keys + [k], c.counts + [1]);
      BumpNew(c, ks, k);
    } else {
      c' := Counts(c.keys, c.counts[i := c.counts[i] + 1]);
      BumpOld(c, ks, k, i);
    }
  }

  /** A counting map of `ks` answers every lookup with the number of occurrences, 0 for a missing key. */
  lemma GetOccurrences<K(!new)>(c: Counts<K>, ks: seq<K>, k: K)
    requires CountsOf(c, ks)
    ensures Get(c, k) == Occurrences(ks, k)
  {
  }

  /** The counts of the keys `keys`, added up. */
  function SumOver<K(==,!new)>(ks: seq<K>, keys: seq<K>): nat {
    if keys == [] then 0 else Occurrences(ks, keys[0]) + SumOver(ks, keys[1..])
  }

  function Sum(s: seq<nat>): nat {
    if s == [] then 0 else s[0] + Sum(s[1..])
  }

  lemma {:induction false} SumOverAppend<K(!new)>(ks: seq<K>, keys: seq<K>, k: K)
    ensures SumOver(ks, keys + [k]) == SumOver(ks, keys) + Occurrences(ks, k)
  {
    if keys != [] {
      assert (keys + [k])[1..] == keys[1..] + [k];
      SumOverAppend(ks, keys[1..], k);
    }
  }

  lemma {:induction false} SumOverSnoc<K(!new)>(ks: seq<K>, x: K, keys: seq<K>)
    requires Distinct(keys)
    ensures SumOver(ks + [x], keys) == SumOver(ks, keys) + (if x in keys then 1 else 0)
  {
    if keys != [] {
      SnocCounts(ks, x, keys[0]);
      SumOverSnoc(ks, x, keys[1..]);
      assert keys == [keys[0]] + keys[1..];
      assert x == keys[0] ==> x !in keys[1..];
    }
  }

  /** Every element is counted under exactly one key: the counts add up to the length. */
  lemma {:induction false} SumOverFirstSeen<K(!new)>(ks: seq<K>)
    ensures SumOver(ks, FirstSeen(ks)) == |ks|
  {
    if ks != [] {
      var p, x := ks[..|ks| - 1], ks[|ks| - 1];
      assert ks == p + [x];
      SumOverFirstSeen(p);
      SnocCounts(p, x, x);
      SumOverSnoc(p, x, FirstSeen(p));
      if x !in FirstSeen(p) {
        SumOverAppend(ks, FirstSeen(p), x);
      }
    }
  }

  lemma {:induction false} SumCountsOver<K(!new)>(ks: seq<K>, keys: seq<K>, counts: seq<nat>)
    requires |counts| == |keys|
    requires forall j :: 0 <= j < |keys| ==> counts[j] == Occurrences(ks, keys[j])
    ensures Sum(counts) == SumOver(ks, keys)
  {
    if keys != [] {
      SumCountsOver(ks, keys[1..], counts[1..]);
    }
  }

  /** The counts of a counting map add up to the number of keys counted. */
  lemma CountsTotal<K(!new)>(c: Counts<K>, ks: seq<K>)
    requires CountsOf(c, ks)
    ensures Sum(c.counts) == |ks|
  {
    SumCountsOver(ks, c.keys, c.counts);
    SumOverFirstSeen(ks);
  }

  /** A sequence without repeats has as many elements as its set. */
  lemma {:induction false} DistinctCard<K(!new)>(ks: seq<K>)
    requires Distinct(ks)
    ensures |set k | k in ks| == |ks|
  {
    if ks != [] {
      var p := ks[..|ks| - 1];
      DistinctCard(p);
      assert ks == p + [ks[|ks| - 1]];
      assert (set k | k in ks) == (set k | k in p) + {ks[|ks| - 1]};
    }
  }
}
