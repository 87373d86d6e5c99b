/**
 * Grouping of leads by city or by neighbourhood, as the delivery dashboard
 * does it with `reduce` into an object and reads it back with
 * `Object.keys`/`Object.entries`: a JavaScript object whose keys are
 * neither canonical numeric strings nor inherited member names keeps them
 * in insertion order, so a grouping is its list of keys in first-encounter
 * order plus one bucket per key, each bucket holding its leads in list
 * order.
 */
module Grouping {
  import opened Leads
  import opened Tally

  datatype GroupKey = ByCity | ByBairro

  const CityUnknown: string := "Cidade não informada"
  const BairroUnknown: string := "Bairro não informado"

  /** `lead.cidade || 'Cidade não informada'` and `lead.bairro || 'Bairro não informado'`. */
  function KeyOf(g: GroupKey, l: Lead): (k: string)
    ensures k != ""
    ensures g == ByCity && l.cidade == "" ==> k == CityUnknown
    ensures g == ByCity && l.cidade != "" ==> k == l.cidade
    ensures g == ByBairro && l.bairro == "" ==> k == BairroUnknown
    ensures g == ByBairro && l.bairro != "" ==> k == l.bairro
  {
    match g
    case ByCity => if l.cidade == "" then CityUnknown else l.cidade
    case ByBairro => if l.bairro == "" then BairroUnknown else l.bairro
  }

  /** The leads of `s` whose key is `k`, in list order (`acc[k].push(lead)`). */
  function Bucket(s: seq<Lead>, g: GroupKey, k: string): (b: seq<Lead>)
    ensures |b| <= |s|
  {
    if s == [] then []
    else
      var b := Bucket(s[..|s| - 1], g, k);
      if KeyOf(g, s[|s| - 1]) == k then b + [s[|s| - 1]] else b
  }

  /** The keys of the grouping, in first-encounter order (`Object.keys(acc)`). */
  function Keys(s: seq<Lead>, g: GroupKey): (ks: seq<string>)
    ensures Distinct(ks)
    ensures "" !in ks
  {
    if s == [] then []
    else
      var ks := Keys(s[..|s| - 1], g);
      var k := KeyOf(g, s[|s| - 1]);
      if k in ks then ks else ks + [k]
  }

  /** The key of every lead of `s`, in list order. */
  function KeyList(s: seq<Lead>, g: GroupKey): seq<string> {
    seq(|s|, i requires 0 <= i < |s| => KeyOf(g, s[i]))
  }

  /** The grouping's keys are the leads' keys, each once, in the order they first occur. */
  lemma {:induction false} KeysFirstSeen(s: seq<Lead>, g: GroupKey)
    ensures Keys(s, g) == FirstSeen(KeyList(s, g))
  {
    if s != [] {
      var p := s[..|s| - 1];
      KeysFirstSeen(p, g);
      KeyListSnoc(s, g);
      SnocCounts(KeyList(p, g), KeyOf(g, s[|s| - 1]), "");
    }
  }

  lemma KeyListSnoc(s: seq<Lead>, g: GroupKey)
    requires s != []
    ensures KeyList(s, g) == KeyList(s[..|s| - 1], g) + [KeyOf(g, s[|s| - 1])]
  {
  }

  lemma BucketMember(s: seq<Lead>, g: GroupKey, k: string, x: Lead)
    ensures x in Bucket(s, g, k) <==> x in s && KeyOf(g, x) == k
  {
    BucketCount(s, g, k, x);
  }

  /** Grouping one more lead: its key joins the keys if new, and it joins its bucket. */
  lemma PrefixStep(s: seq<Lead>, g: GroupKey, i: nat, k: string)
    requires i < |s|
    ensures Keys(s[..i + 1], g) ==
      if KeyOf(g, s[i]) in Keys(s[..i], g) then Keys(s[..i], g) else Keys(s[..i], g) + [KeyOf(g, s[i])]
    ensures Bucket(s[..i + 1], g, k) ==
      if KeyOf(g, s[i]) == k then Bucket(s[..i], g, k) + [s[i]] else Bucket(s[..i], g, k)
  {
    assert s[..i + 1][..i] == s[..i];
  }

  /** Grouping a list with one more lead at its end. */
  lemma SnocStep(s: seq<Lead>, x: Lead, g: GroupKey, k: string)
    ensures Keys(s + [x], g) == if KeyOf(g, x) in Keys(s, g) then Keys(s, g) else Keys(s, g) + [KeyOf(g, x)]
    ensures Bucket(s + [x], g, k) == if KeyOf(g, x) == k then Bucket(s, g, k) + [x] else Bucket(s, g, k)
  {
    assert (s + [x])[..|s|] == s;
  }

  /** Every lead's key is among the keys. */
  lemma {:induction false} KeysCover(s: seq<Lead>, g: GroupKey, x: Lead)
    requires x in s
    ensures KeyOf(g, x) in Keys(s, g)
  {
    var n := |s| - 1;
    assert s == s[..n] + [s[n]];
    if x != s[n] {
      KeysCover(s[..n], g, x);
    }
  }

  /** Every key has a non-empty bucket. */
  lemma {:induction false} KeysInhabited(s: seq<Lead>, g: GroupKey, k: string)
    requires k in Keys(s, g)
    ensures Bucket(s, g, k) != []
  {
    var n := |s| - 1;
    if KeyOf(g, s[n]) != k {
      KeysInhabited(s[..n], g, k);
    }
  }

  /** A key that never occurs has an empty bucket. */
  lemma BucketAbsent(s: seq<Lead>, g: GroupKey, k: string)
    requires k !in Keys(s, g)
    ensures Bucket(s, g, k) == []
  {
    if Bucket(s, g, k) != [] {
      var x := Bucket(s, g, k)[0];
      BucketMember(s, g, k, x);
      KeysCover(s, g, x);
    }
  }

  /** The buckets for `ks`, in the order of `ks`. */
  function BucketsOf(s: seq<Lead>, g: GroupKey, ks: seq<string>): (bs: seq<seq<Lead>>)
    ensures |bs| == |ks|
    ensures forall m :: 0 <= m < |ks| ==> bs[m] == Bucket(s, g, ks[m])
  {
    seq(|ks|, m requires 0 <= m < |ks| => Bucket(s, g, ks[m]))
  }

  /** Concatenation of a list of blocks, appending block after block. */
  function Flatten(parts: seq<seq<Lead>>): seq<Lead> {
    if parts == [] then []
    else Flatten(parts[..|parts| - 1]) + parts[|parts| - 1]
  }

  /** Every lead of block `m` has key `ks[m]`. */
  ghost predicate Labelled(parts: seq<seq<Lead>>, g: GroupKey, ks: seq<string>) {
    |parts| == |ks| &&
    forall m, x :: 0 <= m < |parts| && x in parts[m] ==> KeyOf(g, x) == ks[m]
  }

  // ---------------------------------------------------------------------
  // Counting lemmas: the buckets partition the list.

  lemma {:induction false} BucketCount(s: seq<Lead>, g: GroupKey, k: string, x: Lead)
    ensures multiset(Bucket(s, g, k))[x] == if KeyOf(g, x) == k then multiset(s)[x] else 0
  {
    if s != [] {
      assert s == s[..|s| - 1] + [s[|s| - 1]];
      BucketCount(s[..|s| - 1], g, k, x);
    }
  }

  lemma {:induction false} FlattenAppend(parts: seq<seq<Lead>>, last: seq<Lead>)
    ensures Flatten(parts + [last]) == Flatten(parts) + last
  {
    assert (parts + [last])[..|parts|] == parts;
  }

  /** One more block onto a running concatenation. */
  lemma FlattenStep(parts: seq<seq<Lead>>, m: nat, acc: seq<Lead>)
    requires m < |parts| && acc == Flatten(parts[..m])
    ensures acc + parts[m] == Flatten(parts[..m + 1])
  {
    assert parts[..m + 1][..m] == parts[..m];
  }

  lemma {:induction false} FlattenMember(parts: seq<seq<Lead>>, x: Lead)
    ensures x in Flatten(parts) <==> exists m :: 0 <= m < |parts| && x in parts[m]
  {
    if parts != [] {
      var n := |parts| - 1;
      FlattenMember(parts[..n], x);
      if x in parts[n] {
        assert x in Flatten(parts);
      }
      if exists m :: 0 <= m < |parts| && x in parts[m] {
        var m :| 0 <= m < |parts| && x in parts[m];
        if m < n {
          assert parts[..n][m] == parts[m];
        }
      }
    }
  }

  /** Blocks with the same contents, concatenated, have the same contents. */
  lemma {:induction false} FlattenSameCounts(p: seq<seq<Lead>>, q: seq<seq<Lead>>)
    requires |p| == |q|
    requires forall m :: 0 <= m < |p| ==> multiset(p[m]) == multiset(q[m])
    ensures multiset(Flatten(p)) == multiset(Flatten(q))
  {
    if p != [] {
      var n := |p| - 1;
      FlattenSameCounts(p[..n], q[..n]);
    }
  }

  /** Over distinct keys, an element is counted once if its key is listed and not at all otherwise. */
  lemma {:induction false} FlattenBucketsCount(s: seq<Lead>, g: GroupKey, ks: seq<string>, x: Lead)
    requires Distinct(ks)
    ensures multiset(Flatten(BucketsOf(s, g, ks)))[x] == if KeyOf(g, x) in ks then multiset(s)[x] else 0
  {
    if ks != [] {
      var n := |ks| - 1;
      var bs := BucketsOf(s, g, ks);
      var front := BucketsOf(s, g, ks[..n]);
      assert bs == front + [bs[n]];
      FlattenAppend(front, bs[n]);
      FlattenBucketsCount(s, g, ks[..n], x);
      BucketCount(s, g, ks[n], x);
      assert KeyOf(g, x) in ks <==> KeyOf(g, x) in ks[..n] || KeyOf(g, x) == ks[n] by {
        assert ks == ks[..n] + [ks[n]];
      }
      assert ks[n] !in ks[..n];
    }
  }

  lemma {:induction false} DistinctCount(ks: seq<string>, k: string)
    requires Distinct(ks)
    ensures multiset(ks)[k] == if k in ks then 1 else 0
  {
    if ks != [] {
      assert ks == [ks[0]] + ks[1..];
      DistinctCount(ks[1..], k);
    }
  }

  /** Grouping loses and duplicates nothing: the buckets, concatenated, are a permutation of the list. */
  lemma BucketsPartition(s: seq<Lead>, g: GroupKey)
    ensures multiset(Flatten(BucketsOf(s, g, Keys(s, g)))) == multiset(s)
  {
    var ks := Keys(s, g);
    forall x
      ensures multiset(Flatten(BucketsOf(s, g, ks)))[x] == multiset(s)[x]
    {
      FlattenBucketsCount(s, g, ks, x);
      if x in s {
        KeysCover(s, g, x);
      }
    }
  }

  /** Any distinct reordering of the keys yields a permutation of the list. */
  lemma BucketsPartitionReordered(s: seq<Lead>, g: GroupKey, order: seq<string>)
    requires Distinct(order)
    requires forall k :: k in order <==> k in Keys(s, g)
    ensures multiset(Flatten(BucketsOf(s, g, order))) == multiset(s)
  {
    forall x
      ensures multiset(Flatten(BucketsOf(s, g, order)))[x] == multiset(s)[x]
    {
      FlattenBucketsCount(s, g, order, x);
      if x in s {
        KeysCover(s, g, x);
      }
    }
  }

  // ---------------------------------------------------------------------
  // Blocks labelled by distinct keys.

  /** Concatenated labelled blocks are ordered by the position of their key. */
  lemma {:induction false} FlattenOrdered(parts: seq<seq<Lead>>, g: GroupKey, ks: seq<string>)
    requires Labelled(parts, g, ks) && Distinct(ks)
    ensures forall i, j :: 0 <= i < j < |Flatten(parts)| ==>
      IndexOf(ks, KeyOf(g, Flatten(parts)[i])) <= IndexOf(ks, KeyOf(g, Flatten(parts)[j]))
  {
    if parts != [] {
      var n := |parts| - 1;
      var front := Flatten(parts[..n]);
      var r := Flatten(parts);
      assert r == front + parts[n];
      assert Labelled(parts[..n], g, ks[..n]);
      FlattenOrdered(parts[..n], g, ks[..n]);
      assert IndexOf(ks, ks[n]) == n;
      forall i | 0 <= i < |front|
        ensures IndexOf(ks, KeyOf(g, r[i])) == IndexOf(ks[..n], KeyOf(g, r[i])) < n
      {
        assert r[i] == front[i];
        FlattenMember(parts[..n], front[i]);
        var m :| 0 <= m < n && front[i] in parts[..n][m];
        assert KeyOf(g, r[i]) == ks[m];
        IndexOfPrefix(ks, n, m);
      }
      forall i | |front| <= i < |r|
        ensures IndexOf(ks, KeyOf(g, r[i])) == n
      {
        assert r[i] in parts[n];
      }
    }
  }

  lemma IndexOfPrefix(ks: seq<string>, n: nat, m: nat)
    requires Distinct(ks) && m < n <= |ks|
    ensures IndexOf(ks, ks[m]) == IndexOf(ks[..n], ks[m]) == m
  {
  }

  lemma {:induction false} KeysAppendBlock(a: seq<Lead>, b: seq<Lead>, g: GroupKey, k: string)
    requires b != []
    requires forall x :: x in b ==> KeyOf(g, x) == k
    requires k !in Keys(a, g)
    ensures Keys(a + b, g) == Keys(a, g) + [k]
  {
    var n := |b| - 1;
    var ab := a + b;
    assert ab[..|ab| - 1] == a + b[..n];
    assert ab[|ab| - 1] == b[n];
    assert KeyOf(g, b[n]) == k;
    if n > 0 {
      KeysAppendBlock(a, b[..n], g, k);
      assert Keys(a + b[..n], g) == Keys(a, g) + [k];
    } else {
      assert a + b[..n] == a;
    }
  }

  lemma {:induction false} BucketAppend(a: seq<Lead>, b: seq<Lead>, g: GroupKey, k: string)
    ensures Bucket(a + b, g, k) == Bucket(a, g, k) + Bucket(b, g, k)
  {
    if b != [] {
      var n := |b| - 1;
      assert a + b == (a + b[..n]) + [b[n]];
      assert (a + b)[..|a + b| - 1] == a + b[..n];
      BucketAppend(a, b[..n], g, k);
    } else {
      assert a + b == a;
    }
  }

  lemma {:induction false} BucketOfBlock(b: seq<Lead>, g: GroupKey, k: string, k': string)
    requires forall x :: x in b ==> KeyOf(g, x) == k
    ensures Bucket(b, g, k') == if k' == k then b else []
  {
    if b != [] {
      var n := |b| - 1;
      assert b == b[..n] + [b[n]];
      BucketOfBlock(b[..n], g, k, k');
    }
  }

  /**
   * Regrouping a concatenation of non-empty blocks labelled by distinct keys
   * gives back the keys in block order and the blocks themselves.
   */
  lemma {:induction false} RegroupFlatten(parts: seq<seq<Lead>>, g: GroupKey, ks: seq<string>)
    requires Labelled(parts, g, ks) && Distinct(ks)
    requires forall m :: 0 <= m < |parts| ==> parts[m] != []
    ensures Keys(Flatten(parts), g) == ks
    ensures forall m :: 0 <= m < |ks| ==> Bucket(Flatten(parts), g, ks[m]) == parts[m]
  {
    if parts != [] {
      var n := |parts| - 1;
      var front := Flatten(parts[..n]);
      assert Labelled(parts[..n], g, ks[..n]);
      RegroupFlatten(parts[..n], g, ks[..n]);
      assert ks[n] !in ks[..n];
      KeysAppendBlock(front, parts[n], g, ks[n]);
      assert ks == ks[..n] + [ks[n]];
      forall m | 0 <= m < |ks|
        ensures Bucket(Flatten(parts), g, ks[m]) == parts[m]
      {
        RegroupBucket(parts, g, ks, m);
      }
    }
  }

  /** The inductive step of `RegroupFlatten` for one key. */
  lemma RegroupBucket(parts: seq<seq<Lead>>, g: GroupKey, ks: seq<string>, m: nat)
    requires Labelled(parts, g, ks) && Distinct(ks) && m < |ks|
    requires Keys(Flatten(parts[..|ks| - 1]), g) == ks[..|ks| - 1]
    requires forall i :: 0 <= i < |ks| - 1 ==> Bucket(Flatten(parts[..|ks| - 1]), g, ks[i]) == parts[i]
    ensures Bucket(Flatten(parts), g, ks[m]) == parts[m]
  {
    var n := |parts| - 1;
    var front := Flatten(parts[..n]);
    assert Flatten(parts) == front + parts[n];
    BucketAppend(front, parts[n], g, ks[m]);
    BucketOfBlock(parts[n], g, ks[n], ks[m]);
    if m < n {
      assert ks[..n][m] == ks[m];
      assert ks[m] != ks[n];
    } else {
      assert ks[n] !in ks[..n];
      BucketAbsent(front, g, ks[n]);
    }
  }
}
