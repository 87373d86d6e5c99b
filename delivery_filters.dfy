/**
 * The filter bar of the delivery dashboard: the filter record, replacing one
 * facet, resetting to the defaults, counting the active facets and choosing
 * the sort icon. A date is `Some` when picked (a `Date` object is always
 * truthy) and `None` when null.
 */
module DeliveryFilters {
  import opened Text

  datatype Filters = Filters(
    paymentStatus: string,
    deliveryStatus: string,
    searchTerm: string,
    dateFrom: Option<int>,
    dateTo: Option<int>,
    sortBy: string)

  /** The keys `updateFilter` is called with, each with the value it installs. */
  datatype FilterUpdate =
    | PaymentStatus(status: string)
    | DeliveryStatus(status: string)
    | SearchTerm(term: string)
    | DateRange(from: Option<int>, to: Option<int>)
    | SortBy(mode: string)

  datatype Facet = PaymentFacet | DeliveryFacet | SearchFacet | DateFacet | SortFacet

  /** The five facets, in the order the count visits them. */
  const Facets: seq<Facet> := [PaymentFacet, DeliveryFacet, SearchFacet, DateFacet, SortFacet]

  /** The key an update writes. */
  function KeyOf(u: FilterUpdate): Facet {
    match u
    case PaymentStatus(_) => PaymentFacet
    case DeliveryStatus(_) => DeliveryFacet
    case SearchTerm(_) => SearchFacet
    case DateRange(_, _) => DateFacet
    case SortBy(_) => SortFacet
  }

  /** Reading one key of the record, as the update that would write it. */
  function Get(f: Filters, k: Facet): (u: FilterUpdate)
    ensures KeyOf(u) == k
  {
    match k
    case PaymentFacet => PaymentStatus(f.paymentStatus)
    case DeliveryFacet => DeliveryStatus(f.deliveryStatus)
    case SearchFacet => SearchTerm(f.searchTerm)
    case DateFacet => DateRange(f.dateFrom, f.dateTo)
    case SortFacet => SortBy(f.sortBy)
  }

  /** `updateFilter(key, value)`: `{...filters, [key]: value}`. */
  function UpdateFilter(f: Filters, u: FilterUpdate): (r: Filters)
    ensures Get(r, KeyOf(u)) == u
    ensures forall k :: k != KeyOf(u) ==> Get(r, k) == Get(f, k)
  {
    match u
    case PaymentStatus(s) => f.(paymentStatus := s)
    case DeliveryStatus(s) => f.(deliveryStatus := s)
    case SearchTerm(t) => f.(searchTerm := t)
    case DateRange(a, b) => f.(dateFrom := a, dateTo := b)
    case SortBy(m) => f.(sortBy := m)
  }

  /** Two records that agree on every key are the same record. */
  lemma {:induction false} FiltersExtensional(f: Filters, g: Filters)
    requires forall k :: Get(f, k) == Get(g, k)
    ensures f == g
  {
    assert Get(f, PaymentFacet) == Get(g, PaymentFacet);
    assert Get(f, DeliveryFacet) == Get(g, DeliveryFacet);
    assert Get(f, SearchFacet) == Get(g, SearchFacet);
    assert Get(f, DateFacet) == Get(g, DateFacet);
    assert Get(f, SortFacet) == Get(g, SortFacet);
  }

  /** Writing a key back with the value it already has changes nothing. */
  lemma UpdateSameValue(f: Filters, k: Facet)
    ensures UpdateFilter(f, Get(f, k)) == f
  {
    FiltersExtensional(UpdateFilter(f, Get(f, k)), f);
  }

  /** `clearFilters`: the record the page starts with. */
  function DefaultFilters(): (f: Filters)
  {
    Filters("all", "all", "", None, None, "recent")
  }

  /** Whether one facet differs from its default, as `getActiveFiltersCount` tests it. */
  predicate Active(f: Filters, k: Facet) {
    match k
    case PaymentFacet => f.paymentStatus != "all"
    case DeliveryFacet => f.deliveryStatus != "all"
    case SearchFacet => f.searchTerm != ""
    case DateFacet => f.dateFrom.Some? || f.dateTo.Some?
    case SortFacet => f.sortBy != "recent"
  }

  function Bit(b: bool): nat {
    if b then 1 else 0
  }

  /** How many of the facets in `ks` are active. */
  function CountActive(f: Filters, ks: seq<Facet>): (n: nat)
    ensures n <= |ks|
  {
    if ks == [] then 0
    else CountActive(f, ks[..|ks| - 1]) + Bit(Active(f, ks[|ks| - 1]))
  }

  /** The count over the five facets, one term per facet. */
  lemma {:induction false} CountFacets(f: Filters)
    ensures CountActive(f, Facets)
         == Bit(Active(f, PaymentFacet)) + Bit(Active(f, DeliveryFacet)) + Bit(Active(f, SearchFacet))
          + Bit(Active(f, DateFacet)) + Bit(Active(f, SortFacet))
  {
    var f4 := [PaymentFacet, DeliveryFacet, SearchFacet, DateFacet];
    var f3 := [PaymentFacet, DeliveryFacet, SearchFacet];
    var f2 := [PaymentFacet, DeliveryFacet];
    var f1 := [PaymentFacet];
    assert Facets[..4] == f4 && f4[..3] == f3 && f3[..2] == f2 && f2[..1] == f1 && f1[..0] == [];
    assert CountActive(f, f1) == Bit(Active(f, PaymentFacet));
    assert CountActive(f, f2) == CountActive(f, f1) + Bit(Active(f, DeliveryFacet));
    assert CountActive(f, f3) == CountActive(f, f2) + Bit(Active(f, SearchFacet));
    assert CountActive(f, f4) == CountActive(f, f3) + Bit(Active(f, DateFacet));
  }

  /** `getActiveFiltersCount`: a counter bumped once per active facet. */
  method GetActiveFiltersCount(f: Filters) returns (count: nat)
    ensures count == CountActive(f, Facets)
    ensures count <= 5
  {
    count := 0;
    if f.paymentStatus != "all" {
      count := count + 1;
    }
    if f.deliveryStatus != "all" {
      count := count + 1;
    }
    if f.searchTerm != "" {
      count := count + 1;
    }
    if f.dateFrom.Some? || f.dateTo.Some? {
      count := count + 1;
    }
    if f.sortBy != "recent" {
      count := count + 1;
    }
    CountFacets(f);
  }

  /** The count is 0 exactly for the default record, which is what clearing yields. */
  lemma {:induction false} NoActiveIffDefault(f: Filters)
    ensures CountActive(f, Facets) == 0 <==> f == DefaultFilters()
  {
    CountFacets(f);
  }

  /** A date range counts once, whether one end or both are set; the date picks change nothing else. */
  lemma {:induction false} DateRangeCountsOnce(f: Filters, from: int, to: int)
    ensures CountActive(f.(dateFrom := Some(from), dateTo := None), Facets)
         == CountActive(f.(dateFrom := Some(from), dateTo := Some(to)), Facets)
    ensures CountActive(f.(dateFrom := None, dateTo := Some(to)), Facets)
         == CountActive(f.(dateFrom := Some(from), dateTo := Some(to)), Facets)
    ensures CountActive(f.(dateFrom := None, dateTo := None), Facets) + 1
         == CountActive(f.(dateFrom := Some(from), dateTo := Some(to)), Facets)
  {
    CountFacets(f.(dateFrom := Some(from), dateTo := None));
    CountFacets(f.(dateFrom := None, dateTo := Some(to)));
    CountFacets(f.(dateFrom := None, dateTo := None));
    CountFacets(f.(dateFrom := Some(from), dateTo := Some(to)));
  }

  /** Sorting by 'recent' is the default and is not counted; the other two modes are. */
  lemma {:induction false} SortCountsUnlessRecent(f: Filters, mode: string)
    ensures CountActive(f.(sortBy := mode), Facets)
         == CountActive(f.(sortBy := "recent"), Facets) + (if mode == "recent" then 0 else 1)
  {
    CountFacets(f.(sortBy := mode));
    CountFacets(f.(sortBy := "recent"));
  }

  datatype SortIcon = MapPin | Building | Calendar

  /** `getSortIcon`: a pin for proximity, a building for city, a calendar otherwise. */
  function GetSortIcon(sortBy: string): (icon: SortIcon)
    ensures icon == MapPin <==> sortBy == "proximity"
    ensures icon == Building <==> sortBy == "city"
    ensures icon == Calendar <==> sortBy != "proximity" && sortBy != "city"
  {
    match sortBy
    case "proximity" => MapPin
    case "city" => Building
    case _ => Calendar
  }
}
