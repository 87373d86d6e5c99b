/**
 * The delivery dashboard's ordering of "pagar-entrega" leads
 * (src/hooks/useDeliveryManagement.tsx): the proximity sort built on the
 * neighbourhood walk, the two comparator sorts and the (city,
 * neighbourhood) grouping used for rendering.
 */
module DeliveryManagement {
  import opened Text
  import opened Leads
  import opened Grouping
  import opened Tally
  import opened NeighbourhoodWalk
  import opened Sorting

  // ---------------------------------------------------------------------
  // The comparators

  /** `new Date(b.created_at) - new Date(a.created_at)`: newest first. */
  function RecentCmp(a: Lead, b: Lead): int {
    b.createdAt - a.createdAt
  }

  /** The comparator inside a neighbourhood: by CEP when both leads have one, newest first otherwise. */
  function CepCmp(a: Lead, b: Lead): int {
    if a.cep != "" && b.cep != "" then Compare(a.cep, b.cep) else b.createdAt - a.createdAt
  }

  /** `lead.cidade || 'ZZZ'` and `lead.bairro || 'ZZZ'`: a missing city or neighbourhood sorts as "ZZZ". */
  function CitySortKey(l: Lead): string {
    if l.cidade == "" then "ZZZ" else l.cidade
  }

  function BairroSortKey(l: Lead): string {
    if l.bairro == "" then "ZZZ" else l.bairro
  }

  /** The comparator of the city order: city, then neighbourhood, then newest first. */
  function CityCmp(a: Lead, b: Lead): int {
    var cityCompare := Compare(CitySortKey(a), CitySortKey(b));
    if cityCompare != 0 then cityCompare
    else
      var bairroCompare := Compare(BairroSortKey(a), BairroSortKey(b));
      if bairroCompare != 0 then bairroCompare
      else b.createdAt - a.createdAt
  }

  /**
   * The recent order lists the newest lead first and keeps every lead; a
   * list already newest first comes back unchanged, so sorting again
   * changes nothing.
   */
  lemma RecentNewestFirst(s: seq<Lead>)
    ensures multiset(SortBy(s, RecentCmp)) == multiset(s)
    ensures forall i, j :: 0 <= i < j < |s| ==>
      SortBy(s, RecentCmp)[i].createdAt >= SortBy(s, RecentCmp)[j].createdAt
    ensures SortBy(SortBy(s, RecentCmp), RecentCmp) == SortBy(s, RecentCmp)
  {
    RecentCmpConsistent(s);
    SortByPermutation(s, RecentCmp);
    SortBySorted(s, RecentCmp);
    RecentOrder(SortBy(s, RecentCmp));
    SortByIdempotent(s, RecentCmp);
  }

  /** Sorted by `RecentCmp` means newest first. */
  lemma RecentOrder(r: seq<Lead>)
    requires Sorted(r, RecentCmp)
    ensures forall i, j :: 0 <= i < j < |r| ==> r[i].createdAt >= r[j].createdAt
  {
    forall i, j | 0 <= i < j < |r|
      ensures r[i].createdAt >= r[j].createdAt
    {
      assert RecentCmp(r[i], r[j]) <= 0;
    }
  }

  /** A list already newest first is its own recent order. */
  lemma RecentSortedUnchanged(s: seq<Lead>)
    requires forall i, j :: 0 <= i < j < |s| ==> s[i].createdAt >= s[j].createdAt
    ensures SortBy(s, RecentCmp) == s
  {
    assert Sorted(s, RecentCmp);
    SortBySortedUnchanged(s, RecentCmp);
  }

  /**
   * Leads created at the same instant as `e` (the ties of the recent order)
   * come out in the order they went in.
   */
  lemma RecentStable(s: seq<Lead>, e: Lead)
    ensures forall l :: Tied(RecentCmp, l, e) <==> l.createdAt == e.createdAt
    ensures TiesOf(SortBy(s, RecentCmp), RecentCmp, e) == TiesOf(s, RecentCmp, e)
  {
    RecentCmpConsistent([e] + s);
    SortByStable(s, RecentCmp, e);
  }

  /** Newest first is a total preorder. */
  lemma RecentCmpConsistent(s: seq<Lead>)
    ensures TotalPreorder(RecentCmp, s)
  {
  }

  lemma CityCmpConsistent(a: Lead, b: Lead, c: Lead)
    ensures CityCmp(a, b) <= 0 || CityCmp(b, a) <= 0
    ensures CityCmp(a, b) <= 0 && CityCmp(b, c) <= 0 ==> CityCmp(a, c) <= 0
  {
    CompareAntisymmetric(CitySortKey(a), CitySortKey(b));
    CompareAntisymmetric(BairroSortKey(a), BairroSortKey(b));
    if CityCmp(a, b) <= 0 && CityCmp(b, c) <= 0 {
      CompareTransitive(CitySortKey(a), CitySortKey(b), CitySortKey(c));
      if CitySortKey(a) == CitySortKey(c) {
        CompareAntisymmetric(CitySortKey(a), CitySortKey(b));
        CompareTransitive(BairroSortKey(a), BairroSortKey(b), BairroSortKey(c));
        if BairroSortKey(a) == BairroSortKey(c) {
          CompareAntisymmetric(BairroSortKey(a), BairroSortKey(b));
        }
      }
    }
  }

  /**
   * The city order keeps every lead and sorts by city, then by
   * neighbourhood within a city, then newest first within a neighbourhood;
   * sorting again changes nothing.
   */
  lemma CityOrderSorted(s: seq<Lead>)
    ensures multiset(SortBy(s, CityCmp)) == multiset(s)
    ensures forall i, j :: 0 <= i < j < |s| ==>
      var a, b := SortBy(s, CityCmp)[i], SortBy(s, CityCmp)[j];
      Compare(CitySortKey(a), CitySortKey(b)) <= 0 &&
      (CitySortKey(a) == CitySortKey(b) ==>
        Compare(BairroSortKey(a), BairroSortKey(b)) <= 0 &&
        (BairroSortKey(a) == BairroSortKey(b) ==> a.createdAt >= b.createdAt))
    ensures SortBy(SortBy(s, CityCmp), CityCmp) == SortBy(s, CityCmp)
  {
    SortByPermutation(s, CityCmp);
    forall a, b, c | a in s && b in s && c in s {
      CityCmpConsistent(a, b, c);
    }
    SortBySorted(s, CityCmp);
    SortByIdempotent(s, CityCmp);
  }

  /**
   * Leads in the same city and neighbourhood as `e` and created at the same
   * instant (the ties of the city order) come out in the order they went in.
   */
  lemma CityStable(s: seq<Lead>, e: Lead)
    ensures forall l :: Tied(CityCmp, l, e) <==>
      CitySortKey(l) == CitySortKey(e) && BairroSortKey(l) == BairroSortKey(e) && l.createdAt == e.createdAt
    ensures TiesOf(SortBy(s, CityCmp), CityCmp, e) == TiesOf(s, CityCmp, e)
  {
    forall l
      ensures Tied(CityCmp, l, e) <==>
        CitySortKey(l) == CitySortKey(e) && BairroSortKey(l) == BairroSortKey(e) && l.createdAt == e.createdAt
    {
      CompareAntisymmetric(CitySortKey(l), CitySortKey(e));
      CompareAntisymmetric(BairroSortKey(l), BairroSortKey(e));
    }
    forall a, b, c | a in [e] + s && b in [e] + s && c in [e] + s {
      CityCmpConsistent(a, b, c);
    }
    SortByStable(s, CityCmp, e);
  }

  /** In a neighbourhood where every lead has a CEP, the leads come in ascending CEP order. */
  lemma CepBlockAscending(b: seq<Lead>)
    requires forall l :: l in b ==> l.cep != ""
    ensures forall i, j :: 0 <= i < j < |b| ==> Compare(SortBy(b, CepCmp)[i].cep, SortBy(b, CepCmp)[j].cep) <= 0
  {
    forall x, y, z | x in b && y in b && z in b
      ensures CepCmp(x, y) <= 0 || CepCmp(y, x) <= 0
      ensures CepCmp(x, y) <= 0 && CepCmp(y, z) <= 0 ==> CepCmp(x, z) <= 0
    {
      CompareAntisymmetric(x.cep, y.cep);
      if Compare(x.cep, y.cep) <= 0 && Compare(y.cep, z.cep) <= 0 {
        CompareTransitive(x.cep, y.cep, z.cep);
      }
    }
    SortBySorted(b, CepCmp);
    SortByPermutation(b, CepCmp);
    forall i, j | 0 <= i < j < |b|
      ensures Compare(SortBy(b, CepCmp)[i].cep, SortBy(b, CepCmp)[j].cep) <= 0
    {
      assert SortBy(b, CepCmp)[i] in multiset(b) && SortBy(b, CepCmp)[j] in multiset(b);
    }
  }

  /** In a neighbourhood where no lead has a CEP, the newest lead comes first. */
  lemma NoCepBlockNewestFirst(b: seq<Lead>)
    requires forall l :: l in b ==> l.cep == ""
    ensures forall i, j :: 0 <= i < j < |b| ==> SortBy(b, CepCmp)[i].createdAt >= SortBy(b, CepCmp)[j].createdAt
  {
    SortBySorted(b, CepCmp);
    SortByPermutation(b, CepCmp);
    forall i, j | 0 <= i < j < |b|
      ensures SortBy(b, CepCmp)[i].createdAt >= SortBy(b, CepCmp)[j].createdAt
    {
      assert SortBy(b, CepCmp)[i] in multiset(b) && SortBy(b, CepCmp)[j] in multiset(b);
    }
  }

  function LeadAt(cep: string, createdAt: int): Lead {
    Lead("", "", "", "", cep, "", "", "", "", createdAt, "", "", "", "", "", "")
  }

  /**
   * In a neighbourhood mixing leads with and without a CEP the comparator is
   * not transitive, so the order of such a block depends on the sorting
   * algorithm of the JavaScript engine.
   */
  lemma CepCmpNotTransitive()
    ensures var a, b, c := LeadAt("2", 10), LeadAt("", 5), LeadAt("1", 0);
      CepCmp(a, b) < 0 && CepCmp(b, c) < 0 && CepCmp(a, c) > 0
  {
    assert Compare("2", "1") == 1;
  }

  // ---------------------------------------------------------------------
  // sortByProximity

  /** One neighbourhood of a route: its name and its leads, in delivery order. */
  datatype Section = Section(bairro: string, leads: seq<Lead>)

  /** One city of a route: its name and its neighbourhoods, in delivery order. */
  datatype CityGroup = CityGroup(city: string, sections: seq<Section>)

  /**
   * The neighbourhoods of one city's leads in walk order, each holding its
   * leads sorted by the CEP comparator.
   */
  function CitySections(table: Table, cityLeads: seq<Lead>): (secs: seq<Section>)
    ensures |secs| == |WalkOrder(table, Keys(cityLeads, ByBairro))|
  {
    var order := WalkOrder(table, Keys(cityLeads, ByBairro));
    seq(|order|, k requires 0 <= k < |order| =>
      Section(order[k], SortBy(Bucket(cityLeads, ByBairro, order[k]), CepCmp)))
  }

  /** The cities in first-encounter order, each with its sections. */
  function Route(table: Table, leads: seq<Lead>): (gs: seq<CityGroup>)
    ensures |gs| == |Keys(leads, ByCity)|
  {
    var cs := Keys(leads, ByCity);
    seq(|cs|, m requires 0 <= m < |cs| =>
      CityGroup(cs[m], CitySections(table, Bucket(leads, ByCity, cs[m]))))
  }

  function SectionParts(secs: seq<Section>): (parts: seq<seq<Lead>>)
    ensures |parts| == |secs|
  {
    seq(|secs|, k requires 0 <= k < |secs| => secs[k].leads)
  }

  function CityParts(gs: seq<CityGroup>): (parts: seq<seq<Lead>>)
    ensures |parts| == |gs|
  {
    seq(|gs|, m requires 0 <= m < |gs| => Flatten(SectionParts(gs[m].sections)))
  }

  /** The list `sortByProximity` returns: the route's leads, city after city, section after section. */
  function ProximityOrder(table: Table, leads: seq<Lead>): seq<Lead> {
    Flatten(CityParts(Route(table, leads)))
  }

  /** The facts about one city's sections that the lemmas below share. */
  lemma CitySectionsFacts(table: Table, cityLeads: seq<Lead>)
    ensures var order := WalkOrder(table, Keys(cityLeads, ByBairro));
      var parts := SectionParts(CitySections(table, cityLeads));
      Distinct(order) &&
      (forall n :: n in order <==> n in Keys(cityLeads, ByBairro)) &&
      Labelled(parts, ByBairro, order) &&
      (forall k :: 0 <= k < |parts| ==> parts[k] != []) &&
      multiset(Flatten(parts)) == multiset(cityLeads)
  {
    var keys := Keys(cityLeads, ByBairro);
    var order := WalkOrder(table, keys);
    var parts := SectionParts(CitySections(table, cityLeads));
    WalkDistinct(table, keys);
    WalkPermutation(table, keys);
    assert forall n :: n in order <==> n in keys by {
      forall n
        ensures n in order <==> n in keys
      {
        assert n in order <==> n in multiset(order);
      }
    }
    forall k | 0 <= k < |parts|
      ensures multiset(parts[k]) == multiset(Bucket(cityLeads, ByBairro, order[k]))
      ensures parts[k] != []
    {
      SortByPermutation(Bucket(cityLeads, ByBairro, order[k]), CepCmp);
      KeysInhabited(cityLeads, ByBairro, order[k]);
    }
    forall k, x | 0 <= k < |parts| && x in parts[k]
      ensures KeyOf(ByBairro, x) == order[k]
    {
      assert x in multiset(Bucket(cityLeads, ByBairro, order[k]));
      BucketMember(cityLeads, ByBairro, order[k], x);
    }
    FlattenSameCounts(parts, BucketsOf(cityLeads, ByBairro, order));
    BucketsPartitionReordered(cityLeads, ByBairro, order);
  }

  /** The facts about the route's city blocks that the lemmas below share. */
  lemma RouteFacts(table: Table, leads: seq<Lead>)
    ensures var cs := Keys(leads, ByCity);
      var parts := CityParts(Route(table, leads));
      Labelled(parts, ByCity, cs) &&
      (forall m :: 0 <= m < |parts| ==> parts[m] != []) &&
      (forall m :: 0 <= m < |parts| ==> multiset(parts[m]) == multiset(Bucket(leads, ByCity, cs[m])))
  {
    var cs := Keys(leads, ByCity);
    var parts := CityParts(Route(table, leads));
    forall m | 0 <= m < |parts|
      ensures multiset(parts[m]) == multiset(Bucket(leads, ByCity, cs[m]))
      ensures parts[m] != []
    {
      CitySectionsFacts(table, Bucket(leads, ByCity, cs[m]));
      KeysInhabited(leads, ByCity, cs[m]);
      assert Bucket(leads, ByCity, cs[m])[0] in multiset(parts[m]);
    }
    forall m, x | 0 <= m < |parts| && x in parts[m]
      ensures KeyOf(ByCity, x) == cs[m]
    {
      assert x in multiset(Bucket(leads, ByCity, cs[m]));
      BucketMember(leads, ByCity, cs[m], x);
    }
  }

  /** The proximity order loses and duplicates no lead. */
  lemma ProximityPermutation(table: Table, leads: seq<Lead>)
    ensures multiset(ProximityOrder(table, leads)) == multiset(leads)
  {
    var cs := Keys(leads, ByCity);
    RouteFacts(table, leads);
    FlattenSameCounts(CityParts(Route(table, leads)), BucketsOf(leads, ByCity, cs));
    BucketsPartition(leads, ByCity);
  }

  /**
   * Each city's leads are contiguous, and the cities come in the order in
   * which they first occur in the input.
   */
  lemma ProximityCitiesContiguous(table: Table, leads: seq<Lead>)
    ensures var r, cs := ProximityOrder(table, leads), Keys(leads, ByCity);
      forall i, j :: 0 <= i < j < |r| ==>
        IndexOf(cs, KeyOf(ByCity, r[i])) <= IndexOf(cs, KeyOf(ByCity, r[j]))
  {
    RouteFacts(table, leads);
    FlattenOrdered(CityParts(Route(table, leads)), ByCity, Keys(leads, ByCity));
  }

  /**
   * Within one city, the leads come neighbourhood by neighbourhood in the
   * order of the walk over that city's neighbourhoods.
   */
  lemma ProximityNeighbourhoodsInWalkOrder(table: Table, leads: seq<Lead>, city: string)
    ensures var run := Bucket(ProximityOrder(table, leads), ByCity, city);
      var order := WalkOrder(table, Keys(Bucket(leads, ByCity, city), ByBairro));
      forall i, j :: 0 <= i < j < |run| ==>
        IndexOf(order, KeyOf(ByBairro, run[i])) <= IndexOf(order, KeyOf(ByBairro, run[j]))
  {
    var cs := Keys(leads, ByCity);
    var parts := CityParts(Route(table, leads));
    RouteFacts(table, leads);
    RegroupFlatten(parts, ByCity, cs);
    if city in cs {
      var m := IndexOf(cs, city);
      var cityLeads := Bucket(leads, ByCity, city);
      CityPartAt(table, leads, m);
      assert Bucket(ProximityOrder(table, leads), ByCity, city)
        == Flatten(SectionParts(CitySections(table, cityLeads)));
      CitySectionsFacts(table, cityLeads);
      FlattenOrdered(SectionParts(CitySections(table, cityLeads)), ByBairro,
        WalkOrder(table, Keys(cityLeads, ByBairro)));
    } else {
      BucketAbsent(ProximityOrder(table, leads), ByCity, city);
    }
  }

  /** `keys` and `groups` are the grouping of `s` by `g`. */
  ghost predicate GroupedAs(keys: seq<string>, groups: map<string, seq<Lead>>, s: seq<Lead>, g: GroupKey) {
    && keys == Keys(s, g)
    && (forall k :: k in groups <==> k in keys)
    && (forall k :: k in groups ==> groups[k] == Bucket(s, g, k))
  }

  /** A `reduce` step on a new key: the key joins the keys with a bucket holding just the lead. */
  lemma GroupSnocNew(keys: seq<string>, groups: map<string, seq<Lead>>, s: seq<Lead>, g: GroupKey, i: nat)
    requires i < |s| && KeyOf(g, s[i]) !in groups
    requires GroupedAs(keys, groups, s[..i], g)
    ensures GroupedAs(keys + [KeyOf(g, s[i])], groups[KeyOf(g, s[i]) := [s[i]]], s[..i + 1], g)
  {
    var k := KeyOf(g, s[i]);
    var groups' := groups[k := [s[i]]];
    PrefixStep(s, g, i, k);
    BucketAbsent(s[..i], g, k);
    forall k' | k' in groups
      ensures groups'[k'] == Bucket(s[..i + 1], g, k')
    {
      PrefixStep(s, g, i, k');
    }
  }

  /** A `reduce` step on a known key: the lead joins the end of that key's bucket. */
  lemma GroupSnocKnown(keys: seq<string>, groups: map<string, seq<Lead>>, s: seq<Lead>, g: GroupKey, i: nat)
    requires i < |s| && KeyOf(g, s[i]) in groups
    requires GroupedAs(keys, groups, s[..i], g)
    ensures GroupedAs(keys, groups[KeyOf(g, s[i]) := groups[KeyOf(g, s[i])] + [s[i]]], s[..i + 1], g)
  {
    var k := KeyOf(g, s[i]);
    var groups' := groups[k := groups[k] + [s[i]]];
    PrefixStep(s, g, i, k);
    assert k in keys;
    assert groups'.Keys == groups.Keys;
    assert groups'[k] == Bucket(s[..i + 1], g, k);
    forall k' | k' in groups && k' != k
      ensures groups'[k'] == Bucket(s[..i + 1], g, k')
    {
      PrefixStep(s, g, i, k');
    }
  }

  /**
   * `reduce` into an object keyed by city or neighbourhood: the keys in
   * insertion order and each key's bucket.
   */
  method GroupBy(s: seq<Lead>, g: GroupKey) returns (keys: seq<string>, groups: map<string, seq<Lead>>)
    ensures keys == Keys(s, g)
    ensures forall k :: k in groups <==> k in keys
    ensures forall k :: k in groups ==> groups[k] == Bucket(s, g, k)
  {
    keys, groups := [], map[];
    for i := 0 to |s|
      invariant GroupedAs(keys, groups, s[..i], g)
    {
      var k := KeyOf(g, s[i]);
      if k !in groups {
        GroupSnocNew(keys, groups, s, g, i);
        keys := keys + [k];
        groups := groups[k := [s[i]]];
      } else {
        GroupSnocKnown(keys, groups, s, g, i);
        groups := groups[k := groups[k] + [s[i]]];
      }
    }
    assert s[..|s|] == s;
  }

  /** `sortByProximity`, over a neighbourhood table (`Proximity` in the dashboard). */
  method SortByProximity(table: Table, leads: seq<Lead>) returns (sortedLeads: seq<Lead>)
    ensures sortedLeads == ProximityOrder(table, leads)
  {
    var cities, groupedByCity := GroupBy(leads, ByCity);
    ghost var parts := CityParts(Route(table, leads));
    sortedLeads := [];
    for m := 0 to |cities|
      invariant sortedLeads == Flatten(parts[..m])
    {
      var block := SortCity(table, groupedByCity[cities[m]]);
      CityPartAt(table, leads, m);
      FlattenStep(parts, m, sortedLeads);
      sortedLeads := sortedLeads + block;
    }
    assert parts[..|cities|] == parts;
  }

  lemma CityPartAt(table: Table, leads: seq<Lead>, m: nat)
    requires m < |Keys(leads, ByCity)|
    ensures CityParts(Route(table, leads))[m]
      == Flatten(SectionParts(CitySections(table, Bucket(leads, ByCity, Keys(leads, ByCity)[m]))))
  {
  }

  /** The body of the `Object.entries(groupedByCity).forEach` loop for one city. */
  method SortCity(table: Table, cityLeads: seq<Lead>) returns (block: seq<Lead>)
    ensures block == Flatten(SectionParts(CitySections(table, cityLeads)))
  {
    var bairros, groupedByNeighborhood := GroupBy(cityLeads, ByBairro);
    var neighborhoodOrder := GetNeighborhoodOrder(table, bairros);
    ghost var parts := SectionParts(CitySections(table, cityLeads));
    block := [];
    for k := 0 to |neighborhoodOrder|
      invariant block == Flatten(parts[..k])
    {
      var neighborhood := neighborhoodOrder[k];
      var part: seq<Lead> := [];
      if neighborhood in groupedByNeighborhood {
        var bucket := groupedByNeighborhood[neighborhood];
        var a := new Lead[|bucket|](i requires 0 <= i < |bucket| => bucket[i]);
        assert a[..] == bucket;
        SortInPlace(a, CepCmp);
        part := a[..];
      } else {
        BucketAbsent(cityLeads, ByBairro, neighborhood);
      }
      FlattenStep(parts, k, block);
      block := block + part;
    }
    assert parts[..|neighborhoodOrder|] == parts;
  }

  // ---------------------------------------------------------------------
  // getGroupedLeads

  function CityNames(gs: seq<CityGroup>): (names: seq<string>)
    ensures |names| == |gs| && forall m :: 0 <= m < |gs| ==> names[m] == gs[m].city
  {
    seq(|gs|, m requires 0 <= m < |gs| => gs[m].city)
  }

  function SectionNames(secs: seq<Section>): (names: seq<string>)
    ensures |names| == |secs| && forall k :: 0 <= k < |secs| ==> names[k] == secs[k].bairro
  {
    seq(|secs|, k requires 0 <= k < |secs| => secs[k].bairro)
  }

  /** The neighbourhoods of `b` in first-encounter order, each with its leads in list order. */
  function SectionsOf(b: seq<Lead>): (secs: seq<Section>)
    ensures |secs| == |Keys(b, ByBairro)|
  {
    var ns := Keys(b, ByBairro);
    seq(|ns|, k requires 0 <= k < |ns| => Section(ns[k], Bucket(b, ByBairro, ns[k])))
  }

  /**
   * The object `getGroupedLeads` builds from a list: the cities in
   * first-encounter order and, within each, its neighbourhoods in
   * first-encounter order, each with its leads in list order.
   */
  function Grouped(s: seq<Lead>): (gs: seq<CityGroup>)
    ensures |gs| == |Keys(s, ByCity)|
  {
    var cs := Keys(s, ByCity);
    seq(|cs|, m requires 0 <= m < |cs| => CityGroup(cs[m], SectionsOf(Bucket(s, ByCity, cs[m]))))
  }

  /** `grouped[city][bairro].push(lead)` on the sections of one city, creating the neighbourhood on first sight. */
  function AddToSections(secs: seq<Section>, n: string, x: Lead): seq<Section> {
    var k := IndexOf(SectionNames(secs), n);
    if k == |secs| then secs + [Section(n, [x])]
    else secs[k := Section(n, secs[k].leads + [x])]
  }

  /** Filing one lead under its city and neighbourhood, creating either on first sight. */
  function AddLead(gs: seq<CityGroup>, x: Lead): seq<CityGroup> {
    var c, n := KeyOf(ByCity, x), KeyOf(ByBairro, x);
    var m := IndexOf(CityNames(gs), c);
    if m == |gs| then gs + [CityGroup(c, [Section(n, [x])])]
    else gs[m := CityGroup(c, AddToSections(gs[m].sections, n, x))]
  }

  /** Filing one more lead into the sections of a list. */
  lemma SectionsStep(b: seq<Lead>, x: Lead)
    ensures SectionsOf(b + [x]) == AddToSections(SectionsOf(b), KeyOf(ByBairro, x), x)
  {
    assert SectionNames(SectionsOf(b)) == Keys(b, ByBairro);
    if KeyOf(ByBairro, x) in Keys(b, ByBairro) {
      SectionsStepKnown(b, x);
    } else {
      SectionsStepNew(b, x);
    }
  }

  lemma SectionsStepKnown(b: seq<Lead>, x: Lead)
    requires KeyOf(ByBairro, x) in Keys(b, ByBairro)
    ensures var secs, k := SectionsOf(b), IndexOf(Keys(b, ByBairro), KeyOf(ByBairro, x));
      SectionsOf(b + [x]) == secs[k := Section(KeyOf(ByBairro, x), secs[k].leads + [x])]
  {
    var n, ns := KeyOf(ByBairro, x), Keys(b, ByBairro);
    var secs, k := SectionsOf(b), IndexOf(ns, n);
    var e := secs[k := Section(n, secs[k].leads + [x])];
    var r := SectionsOf(b + [x]);
    SnocStep(b, x, ByBairro, n);
    forall j | 0 <= j < |e|
      ensures r[j] == e[j]
    {
      SnocStep(b, x, ByBairro, ns[j]);
    }
    assert r == e;
  }

  lemma SectionsStepNew(b: seq<Lead>, x: Lead)
    requires KeyOf(ByBairro, x) !in Keys(b, ByBairro)
    ensures SectionsOf(b + [x]) == SectionsOf(b) + [Section(KeyOf(ByBairro, x), [x])]
  {
    var n, ns := KeyOf(ByBairro, x), Keys(b, ByBairro);
    var e := SectionsOf(b) + [Section(n, [x])];
    var r := SectionsOf(b + [x]);
    var ns' := Keys(b + [x], ByBairro);
    SnocStep(b, x, ByBairro, n);
    BucketAbsent(b, ByBairro, n);
    assert ns' == ns + [n];
    forall j | 0 <= j < |e|
      ensures r[j] == e[j]
    {
      assert r[j] == Section(ns'[j], Bucket(b + [x], ByBairro, ns'[j]));
      if j < |ns| {
        SnocStep(b, x, ByBairro, ns[j]);
        assert ns'[j] == ns[j] && ns[j] != n;
        assert e[j] == Section(ns[j], Bucket(b, ByBairro, ns[j]));
      } else {
        assert ns'[j] == n;
      }
    }
    assert r == e;
  }

  /** Filing the leads one by one builds `Grouped` of the list. */
  lemma GroupedStep(s: seq<Lead>, x: Lead)
    ensures Grouped(s + [x]) == AddLead(Grouped(s), x)
  {
    assert CityNames(Grouped(s)) == Keys(s, ByCity);
    if KeyOf(ByCity, x) in Keys(s, ByCity) {
      GroupedStepKnown(s, x);
    } else {
      GroupedStepNew(s, x);
    }
  }

  lemma GroupedStepKnown(s: seq<Lead>, x: Lead)
    requires KeyOf(ByCity, x) in Keys(s, ByCity)
    ensures var gs, m := Grouped(s), IndexOf(Keys(s, ByCity), KeyOf(ByCity, x));
      Grouped(s + [x]) ==
        gs[m := CityGroup(KeyOf(ByCity, x), AddToSections(gs[m].sections, KeyOf(ByBairro, x), x))]
  {
    var c, cs := KeyOf(ByCity, x), Keys(s, ByCity);
    var gs, m := Grouped(s), IndexOf(cs, c);
    var e := gs[m := CityGroup(c, AddToSections(gs[m].sections, KeyOf(ByBairro, x), x))];
    var r := Grouped(s + [x]);
    SnocStep(s, x, ByCity, c);
    assert Keys(s + [x], ByCity) == cs;
    assert r[m] == e[m] by {
      SectionsStep(Bucket(s, ByCity, c), x);
    }
    forall j | 0 <= j < |e| && j != m
      ensures r[j] == e[j]
    {
      SnocStep(s, x, ByCity, cs[j]);
    }
    assert r == e;
  }

  lemma GroupedStepNew(s: seq<Lead>, x: Lead)
    requires KeyOf(ByCity, x) !in Keys(s, ByCity)
    ensures Grouped(s + [x]) == Grouped(s) + [CityGroup(KeyOf(ByCity, x), [Section(KeyOf(ByBairro, x), [x])])]
  {
    var c, cs := KeyOf(ByCity, x), Keys(s, ByCity);
    var e := Grouped(s) + [CityGroup(c, [Section(KeyOf(ByBairro, x), [x])])];
    var r := Grouped(s + [x]);
    SnocStep(s, x, ByCity, c);
    assert r[|cs|] == e[|cs|] by {
      BucketAbsent(s, ByCity, c);
      assert Bucket(s + [x], ByCity, c) == [x];
      SingleSections(x);
    }
    forall j | 0 <= j < |cs|
      ensures r[j] == e[j]
    {
      SnocStep(s, x, ByCity, cs[j]);
    }
    assert |r| == |e|;
    assert r == e;
  }

  lemma GroupedPrefixStep(s: seq<Lead>, i: nat)
    requires i < |s|
    ensures Grouped(s[..i + 1]) == AddLead(Grouped(s[..i]), s[i])
  {
    assert s[..i + 1] == s[..i] + [s[i]];
    GroupedStep(s[..i], s[i]);
  }

  lemma SingleSections(x: Lead)
    ensures SectionsOf([x]) == [Section(KeyOf(ByBairro, x), [x])]
  {
    SectionsStepNew([], x);
    assert [] + [x] == [x];
  }

  /**
   * `getGroupedLeads`: the leads on screen grouped by city and
   * neighbourhood when the proximity order is selected, and `null`
   * otherwise.
   */
  method GetGroupedLeads(sortBy: string, leads: seq<Lead>) returns (result: Option<seq<CityGroup>>)
    ensures sortBy != "proximity" ==> result == None
    ensures sortBy == "proximity" ==> result == Some(Grouped(leads))
  {
    if sortBy != "proximity" {
      return None;
    }
    var grouped: seq<CityGroup> := [];
    for i := 0 to |leads|
      invariant grouped == Grouped(leads[..i])
    {
      GroupedPrefixStep(leads, i);
      grouped := FileLead(grouped, leads[i]);
    }
    assert leads[..|leads|] == leads;
    return Some(grouped);
  }

  /** The body of the `leads.forEach` loop of `getGroupedLeads`. */
  method FileLead(grouped0: seq<CityGroup>, lead: Lead) returns (grouped: seq<CityGroup>)
    ensures grouped == AddLead(grouped0, lead)
  {
    grouped := grouped0;
    var city := KeyOf(ByCity, lead);
    var bairro := KeyOf(ByBairro, lead);
    var m := IndexOf(CityNames(grouped), city);
    if m == |grouped| {
      grouped := grouped + [CityGroup(city, [])];
    }
    var sections := grouped[m].sections;
    var k := IndexOf(SectionNames(sections), bairro);
    if k == |sections| {
      sections := sections + [Section(bairro, [])];
      assert [] + [lead] == [lead];
    }
    sections := sections[k := Section(bairro, sections[k].leads + [lead])];
    grouped := grouped[m := CityGroup(city, sections)];
    if m == |grouped0| {
      assert sections == [Section(bairro, [lead])];
      assert grouped == grouped0 + [CityGroup(city, [Section(bairro, [lead])])];
    } else {
      assert sections == AddToSections(grouped0[m].sections, bairro, lead);
    }
  }

  /**
   * A lead is filed in section `k` of city `m` exactly when it is in the
   * list and that city and neighbourhood are its own.
   */
  lemma GroupedMember(s: seq<Lead>, m: nat, k: nat, x: Lead)
    requires m < |Grouped(s)| && k < |Grouped(s)[m].sections|
    ensures var g := Grouped(s)[m];
      x in g.sections[k].leads <==>
        x in s && KeyOf(ByCity, x) == g.city && KeyOf(ByBairro, x) == g.sections[k].bairro
  {
    var c := Keys(s, ByCity)[m];
    var b := Bucket(s, ByCity, c);
    var n := Keys(b, ByBairro)[k];
    BucketMember(b, ByBairro, n, x);
    BucketMember(s, ByCity, c, x);
  }

  /** Every lead of the list is filed somewhere. */
  lemma GroupedCovers(s: seq<Lead>, x: Lead)
    requires x in s
    ensures exists m, k ::
      0 <= m < |Grouped(s)| && 0 <= k < |Grouped(s)[m].sections| && x in Grouped(s)[m].sections[k].leads
  {
    var cs := Keys(s, ByCity);
    KeysCover(s, ByCity, x);
    var m := IndexOf(cs, KeyOf(ByCity, x));
    var b := Bucket(s, ByCity, cs[m]);
    BucketMember(s, ByCity, cs[m], x);
    KeysCover(b, ByBairro, x);
    var k := IndexOf(Keys(b, ByBairro), KeyOf(ByBairro, x));
    GroupedMember(s, m, k, x);
  }

  /** Regrouping one city's part of the route gives back its sections. */
  lemma RegroupCity(table: Table, cityLeads: seq<Lead>)
    ensures SectionsOf(Flatten(SectionParts(CitySections(table, cityLeads)))) == CitySections(table, cityLeads)
  {
    var secs := CitySections(table, cityLeads);
    var parts := SectionParts(secs);
    var order := WalkOrder(table, Keys(cityLeads, ByBairro));
    CitySectionsFacts(table, cityLeads);
    RegroupFlatten(parts, ByBairro, order);
    var r := SectionsOf(Flatten(parts));
    forall k | 0 <= k < |secs|
      ensures r[k] == secs[k]
    {
    }
    assert r == secs;
  }

  /**
   * Grouping the proximity order for display gives back the route: the
   * cities and neighbourhoods are rendered in the order the sort emitted
   * them, each neighbourhood with its sorted leads.
   */
  lemma GroupedProximityIsRoute(table: Table, leads: seq<Lead>)
    ensures Grouped(ProximityOrder(table, leads)) == Route(table, leads)
  {
    var cs := Keys(leads, ByCity);
    var parts := CityParts(Route(table, leads));
    RouteFacts(table, leads);
    RegroupFlatten(parts, ByCity, cs);
    var r := Grouped(ProximityOrder(table, leads));
    var e := Route(table, leads);
    forall m | 0 <= m < |e|
      ensures r[m] == e[m]
    {
      CityPartAt(table, leads, m);
      RegroupCity(table, Bucket(leads, ByCity, cs[m]));
    }
    assert r == e;
  }

  // ---------------------------------------------------------------------
  // sortLeads

  /**
   * `sortLeads` on the fetched rows: "proximity" builds a new list and
   * leaves the rows as they were; "city" and any other value sort the rows
   * in place (by city, or newest first) and return them.
   */
  method SortLeads(sortBy: string, rows: array<Lead>) returns (sorted: seq<Lead>)
    modifies rows
    ensures sortBy == "proximity" ==> sorted == ProximityOrder(Proximity, old(rows[..])) && rows[..] == old(rows[..])
    ensures sortBy == "city" ==> rows[..] == SortBy(old(rows[..]), CityCmp) && sorted == rows[..]
    ensures sortBy != "proximity" && sortBy != "city" ==>
      rows[..] == SortBy(old(rows[..]), RecentCmp) && sorted == rows[..]
  {
    if sortBy == "proximity" {
      sorted := SortByProximity(Proximity, rows[..]);
    } else if sortBy == "city" {
      SortInPlace(rows, CityCmp);
      sorted := rows[..];
    } else {
      SortInPlace(rows, RecentCmp);
      sorted := rows[..];
    }
  }
}
