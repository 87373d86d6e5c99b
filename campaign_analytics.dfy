/**
 * The campaign report of the analytics dashboard: leads grouped by their
 * UTM tuple, the headline figures, and leads per day. The three queries'
 * rows are the inputs.
 *
 * The hook's `campaignMap` and `timeSeriesMap` are JavaScript maps, which
 * keep their keys in insertion order; here each is a sequence of keys in
 * first-seen order beside a sequence of counters, updated by the same loop.
 */
module CampaignAnalytics {
  import opened Text
  import opened AnalyticsRows
  import Tally
  import Sorting

  // ---------------------------------------------------------------------
  // Grouping keys

  /** `value || fallback`. */
  function OrDefault(value: string, fallback: string): string {
    if value == "" then fallback else value
  }

  function SourceOf(l: LeadRow): string { OrDefault(l.utmSource, "Direct") }
  function CampaignOf(l: LeadRow): string { OrDefault(l.utmCampaign, "None") }
  function ContentOf(l: LeadRow): string { OrDefault(l.utmContent, "None") }
  function TermOf(l: LeadRow): string { OrDefault(l.utmTerm, "None") }

  /** The campaign key: source, campaign, content and term, defaulted, joined by '-'. */
  function CampaignKey(l: LeadRow): string {
    SourceOf(l) + "-" + CampaignOf(l) + "-" + ContentOf(l) + "-" + TermOf(l)
  }

  /** What the rows are grouped by: the campaign key, or the day the lead was created. */
  datatype GroupBy = ByCampaign | ByDay

  function KeyFor(g: GroupBy, l: LeadRow): string {
    match g
    case ByCampaign => CampaignKey(l)
    case ByDay => l.createdDay
  }

  /** The rows with key `k`, in order. */
  function Members(rows: seq<LeadRow>, g: GroupBy, k: string): (m: seq<LeadRow>)
    ensures |m| <= |rows|
  {
    if rows == [] then []
    else
      var last := rows[|rows| - 1];
      Members(rows[..|rows| - 1], g, k) + (if KeyFor(g, last) == k then [last] else [])
  }

  /** The keys of the rows, each once, in the order they first occur. */
  function Keys(rows: seq<LeadRow>, g: GroupBy): (ks: seq<string>)
    ensures Tally.Distinct(ks)
    ensures forall j :: 0 <= j < |ks| ==> Members(rows, g, ks[j]) != []
  {
    if rows == [] then []
    else
      var earlier := Keys(rows[..|rows| - 1], g);
      var k := KeyFor(g, rows[|rows| - 1]);
      if k in earlier then earlier else earlier + [k]
  }

  /** The key of every row, in order. */
  function KeyList(rows: seq<LeadRow>, g: GroupBy): seq<string> {
    seq(|rows|, i requires 0 <= i < |rows| => KeyFor(g, rows[i]))
  }

  /** The groups' keys are the rows' keys, each once, in the order they first occur. */
  lemma {:induction false} KeysFirstSeen(rows: seq<LeadRow>, g: GroupBy)
    ensures Keys(rows, g) == Tally.FirstSeen(KeyList(rows, g))
  {
    if rows != [] {
      var p := rows[..|rows| - 1];
      KeysFirstSeen(p, g);
      KeysFirstSeenStep(rows, g, Keys(p, g), KeyFor(g, rows[|rows| - 1]));
    }
  }

  lemma KeysFirstSeenStep(rows: seq<LeadRow>, g: GroupBy, earlier: seq<string>, k: string)
    requires rows != [] && k == KeyFor(g, rows[|rows| - 1])
    requires earlier == Keys(rows[..|rows| - 1], g) == Tally.FirstSeen(KeyList(rows[..|rows| - 1], g))
    ensures Keys(rows, g) == Tally.FirstSeen(KeyList(rows, g))
  {
    var ks := KeyList(rows[..|rows| - 1], g);
    KeyListSnoc(rows, g);
    Tally.SnocCounts(ks, k, k);
    assert Keys(rows, g) == if k in earlier then earlier else earlier + [k];
  }

  lemma KeyListSnoc(rows: seq<LeadRow>, g: GroupBy)
    requires rows != []
    ensures KeyList(rows, g) == KeyList(rows[..|rows| - 1], g) + [KeyFor(g, rows[|rows| - 1])]
  {
  }

  /** A group holds exactly the rows with its key. */
  lemma {:induction false} MembersExactly(rows: seq<LeadRow>, g: GroupBy, k: string)
    ensures forall r :: r in Members(rows, g, k) <==> r in rows && KeyFor(g, r) == k
  {
    if rows != [] {
      var p := rows[..|rows| - 1];
      MembersExactly(p, g, k);
      assert rows == p + [rows[|rows| - 1]];
    }
  }

  /** The keys are exactly those with a non-empty group. */
  lemma {:induction false} KeysExactly(rows: seq<LeadRow>, g: GroupBy, k: string)
    ensures k in Keys(rows, g) <==> Members(rows, g, k) != []
  {
    if rows != [] {
      KeysExactly(rows[..|rows| - 1], g, k);
    }
  }

  lemma MembersSnoc(rows: seq<LeadRow>, x: LeadRow, g: GroupBy, k: string)
    ensures Members(rows + [x], g, k) == Members(rows, g, k) + (if KeyFor(g, x) == k then [x] else [])
    ensures Keys(rows + [x], g) == if KeyFor(g, x) in Keys(rows, g) then Keys(rows, g) else Keys(rows, g) + [KeyFor(g, x)]
  {
    assert (rows + [x])[..|rows|] == rows;
  }

  // ---------------------------------------------------------------------
  // The grouping loop

  /** A group's counters: the row that created it, and the running totals. */
  datatype GroupTally = GroupTally(first: LeadRow, totalLeads: nat, conversions: nat, totalTime: int)

  /** The counters of key `k` once `rows` have been read. */
  predicate TalliedGroup(t: GroupTally, rows: seq<LeadRow>, g: GroupBy, k: string) {
    var m := Members(rows, g, k);
    m != [] && t.first == m[0] && t.totalLeads == |m| && t.conversions == Conversions(m) && t.totalTime == TotalTime(m)
  }

  /** The counters of a key after one more row with that key. */
  function Counted(t: GroupTally, row: LeadRow): GroupTally {
    GroupTally(t.first, t.totalLeads + 1,
               if row.aceiteFinal then t.conversions + 1 else t.conversions,
               if row.totalTimeSeconds != 0 then t.totalTime + row.totalTimeSeconds else t.totalTime)
  }

  /** A row counts in its own group, whether the group is new or not. */
  lemma CountedStep(t: GroupTally, rows: seq<LeadRow>, g: GroupBy, row: LeadRow)
    requires TalliedGroup(t, rows, g, KeyFor(g, row)) || (Members(rows, g, KeyFor(g, row)) == [] && t == GroupTally(row, 0, 0, 0))
    ensures TalliedGroup(Counted(t, row), rows + [row], g, KeyFor(g, row))
  {
    var m := Members(rows, g, KeyFor(g, row));
    MembersSnoc(rows, row, g, KeyFor(g, row));
    RowsSnoc(m, row);
    assert (m + [row])[0] == if m == [] then row else m[0];
  }

  /** A row leaves the other groups as they were. */
  lemma OtherGroupStep(t: GroupTally, rows: seq<LeadRow>, g: GroupBy, row: LeadRow, k: string)
    requires TalliedGroup(t, rows, g, k) && k != KeyFor(g, row)
    ensures TalliedGroup(t, rows + [row], g, k)
  {
    MembersSnoc(rows, row, g, k);
    assert Members(rows, g, k) + [] == Members(rows, g, k);
  }

  /** The counters after one more row: its own group counted, a new group first created. */
  lemma AddRowSound(keys: seq<string>, tallies: seq<GroupTally>, rows: seq<LeadRow>, g: GroupBy, row: LeadRow,
                    j: nat, keys': seq<string>, tallies': seq<GroupTally>)
    requires keys == Keys(rows, g) && |tallies| == |keys|
    requires forall i :: 0 <= i < |keys| ==> TalliedGroup(tallies[i], rows, g, keys[i])
    requires j == Tally.IndexOf(keys, KeyFor(g, row))
    requires keys' == if j == |keys| then keys + [KeyFor(g, row)] else keys
    requires |tallies'| == |keys'|
    requires tallies'[j] == Counted(if j == |keys| then GroupTally(row, 0, 0, 0) else tallies[j], row)
    requires forall i :: 0 <= i < |keys| && i != j ==> tallies'[i] == tallies[i]
    ensures keys' == Keys(rows + [row], g)
    ensures forall i :: 0 <= i < |keys'| ==> TalliedGroup(tallies'[i], rows + [row], g, keys'[i])
  {
    var key := KeyFor(g, row);
    MembersSnoc(rows, row, g, key);
    KeysExactly(rows, g, key);
    CountedStep(if j == |keys| then GroupTally(row, 0, 0, 0) else tallies[j], rows, g, row);
    forall i | 0 <= i < |keys'| && i != j
      ensures TalliedGroup(tallies'[i], rows + [row], g, keys'[i])
    {
      OtherGroupStep(tallies'[i], rows, g, row, keys'[i]);
    }
  }

  /**
   * One step of the `forEach` over the rows: the first row with a new key
   * creates its group; every row then counts as a lead of its group, a
   * conversion when it accepted the final terms, and adds its funnel time
   * when it has one.
   */
  method AddRow(keys: seq<string>, tallies: seq<GroupTally>, rows: seq<LeadRow>, g: GroupBy, row: LeadRow)
    returns (keys': seq<string>, tallies': seq<GroupTally>)
    requires keys == Keys(rows, g) && |tallies| == |keys|
    requires forall j :: 0 <= j < |keys| ==> TalliedGroup(tallies[j], rows, g, keys[j])
    ensures keys' == Keys(rows + [row], g) && |tallies'| == |keys'|
    ensures forall j :: 0 <= j < |keys'| ==> TalliedGroup(tallies'[j], rows + [row], g, keys'[j])
  {
    var key := KeyFor(g, row);
    var j := Tally.IndexOf(keys, key);
    keys', tallies' := keys, tallies;
    if j == |keys| {
      keys' := keys + [key];
      tallies' := tallies + [GroupTally(row, 0, 0, 0)];
    }
    var t := tallies'[j];
    t := t.(totalLeads := t.totalLeads + 1);
    if row.aceiteFinal {
      t := t.(conversions := t.conversions + 1);
    }
    if row.totalTimeSeconds != 0 {
      t := t.(totalTime := t.totalTime + row.totalTimeSeconds);
    }
    tallies' := tallies'[j := t];
    AddRowSound(keys, tallies, rows, g, row, j, keys', tallies');
  }

  /** The keys of `rows` in first-seen order, each with its group's counters. */
  ghost predicate TalliedAll(keys: seq<string>, tallies: seq<GroupTally>, rows: seq<LeadRow>, g: GroupBy) {
    keys == Keys(rows, g) && |tallies| == |keys|
    && forall j :: 0 <= j < |keys| ==> TalliedGroup(tallies[j], rows, g, keys[j])
  }

  /** The `forEach` over the rows: every row counted in the group of its key. */
  method TallyGroups(rows: seq<LeadRow>, g: GroupBy) returns (keys: seq<string>, tallies: seq<GroupTally>)
    ensures keys == Keys(rows, g) && |tallies| == |keys|
    ensures forall j :: 0 <= j < |keys| ==> TalliedGroup(tallies[j], rows, g, keys[j])
  {
    keys, tallies := [], [];
    var i := 0;
    while i < |rows|
      invariant 0 <= i <= |rows|
      invariant TalliedAll(keys, tallies, rows[..i], g)
    {
      assert rows[..i + 1] == rows[..i] + [rows[i]];
      keys, tallies := AddRow(keys, tallies, rows[..i], g, rows[i]);
      assert TalliedAll(keys, tallies, rows[..i] + [rows[i]], g);
      i := i + 1;
    }
    assert rows[..i] == rows;
  }

  // ---------------------------------------------------------------------
  // Group sizes add up to the rows

  /** The sizes of the groups of keys `ks`, added up. */
  function GroupSizes(rows: seq<LeadRow>, g: GroupBy, ks: seq<string>): nat {
    if ks == [] then 0 else |Members(rows, g, ks[0])| + GroupSizes(rows, g, ks[1..])
  }

  lemma {:induction false} GroupSizesAppend(rows: seq<LeadRow>, g: GroupBy, ks: seq<string>, k: string)
    ensures GroupSizes(rows, g, ks + [k]) == GroupSizes(rows, g, ks) + |Members(rows, g, k)|
  {
    if ks != [] {
      assert (ks + [k])[1..] == ks[1..] + [k];
      GroupSizesAppend(rows, g, ks[1..], k);
    }
  }

  lemma {:induction false} GroupSizesSnoc(rows: seq<LeadRow>, x: LeadRow, g: GroupBy, ks: seq<string>)
    requires Tally.Distinct(ks)
    ensures GroupSizes(rows + [x], g, ks) == GroupSizes(rows, g, ks) + (if KeyFor(g, x) in ks then 1 else 0)
  {
    if ks != [] {
      var k, rest, kx := ks[0], ks[1..], KeyFor(g, x);
      DistinctTail(ks);
      MembersSnoc(rows, x, g, k);
      GroupSizesSnoc(rows, x, g, rest);
      assert GroupSizes(rows + [x], g, ks) == |Members(rows + [x], g, k)| + GroupSizes(rows + [x], g, rest);
      assert GroupSizes(rows, g, ks) == |Members(rows, g, k)| + GroupSizes(rows, g, rest);
      var here := if kx == k then 1 else 0;
      var later := if kx in rest then 1 else 0;
      assert |Members(rows + [x], g, k)| == |Members(rows, g, k)| + here;
      assert GroupSizes(rows + [x], g, rest) == GroupSizes(rows, g, rest) + later;
      assert here + later == if kx in ks then 1 else 0 by {
        assert ks == [k] + rest;
      }
    }
  }

  /** The tail of a list of distinct keys is distinct and does not hold the head. */
  lemma DistinctTail(ks: seq<string>)
    requires ks != [] && Tally.Distinct(ks)
    ensures Tally.Distinct(ks[1..]) && ks[0] !in ks[1..]
  {
    var rest := ks[1..];
    forall i | 0 <= i < |rest| ensures rest[i] == ks[i + 1] {
    }
  }

  /** Every row is in exactly one group: the group sizes add up to the number of rows. */
  lemma {:induction false} GroupSizesTotal(rows: seq<LeadRow>, g: GroupBy)
    ensures GroupSizes(rows, g, Keys(rows, g)) == |rows|
  {
    if rows != [] {
      var p, x := rows[..|rows| - 1], rows[|rows| - 1];
      assert rows == p + [x];
      GroupSizesTotal(p, g);
      MembersSnoc(p, x, g, KeyFor(g, x));
      GroupSizesSnoc(p, x, g, Keys(p, g));
      if KeyFor(g, x) !in Keys(p, g) {
        KeysExactly(p, g, KeyFor(g, x));
        GroupSizesAppend(rows, g, Keys(p, g), KeyFor(g, x));
      }
    }
  }

  // ---------------------------------------------------------------------
  // Campaigns

  /** `CampaignData`. */
  datatype CampaignData = CampaignData(
    utmSource: string,
    utmCampaign: string,
    utmContent: string,
    utmTerm: string,
    totalLeads: nat,
    conversions: nat,
    conversionRate: real,
    avgTimeSeconds: real)

  /**
   * The row of campaign key `k`: its UTM values are those of the first lead
   * with that key, its figures those of all the leads with it.
   */
  function CampaignFor(rows: seq<LeadRow>, k: string): CampaignData
    requires Members(rows, ByCampaign, k) != []
  {
    var m := Members(rows, ByCampaign, k);
    CampaignData(SourceOf(m[0]), CampaignOf(m[0]), ContentOf(m[0]), TermOf(m[0]), |m|, Conversions(m),
                 Rate(Conversions(m), |m|), Average(TotalTime(m), |m|))
  }

  /** `processedCampaigns`: one row per campaign key, in first-seen order. */
  method ProcessCampaigns(rows: seq<LeadRow>) returns (campaigns: seq<CampaignData>)
    ensures |campaigns| == |Keys(rows, ByCampaign)|
    ensures forall j :: 0 <= j < |campaigns| ==> campaigns[j] == CampaignFor(rows, Keys(rows, ByCampaign)[j])
  {
    var keys, tallies := TallyGroups(rows, ByCampaign);
    campaigns := [];
    var j := 0;
    while j < |tallies|
      invariant 0 <= j <= |tallies| && |campaigns| == j
      invariant forall j' :: 0 <= j' < j ==> campaigns[j'] == CampaignFor(rows, keys[j'])
    {
      var c := tallies[j];
      var conversionRate := if c.totalLeads > 0 then (c.conversions as real / c.totalLeads as real) * 100.0 else 0.0;
      var avgTime := if c.totalLeads > 0 then c.totalTime as real / c.totalLeads as real else 0.0;
      campaigns := campaigns + [CampaignData(SourceOf(c.first), CampaignOf(c.first), ContentOf(c.first), TermOf(c.first),
                                             c.totalLeads, c.conversions, conversionRate, avgTime)];
      j := j + 1;
    }
  }

  function SumTotalLeads(campaigns: seq<CampaignData>): nat {
    if campaigns == [] then 0 else campaigns[0].totalLeads + SumTotalLeads(campaigns[1..])
  }

  lemma {:induction false} SumTotalLeadsSizes(rows: seq<LeadRow>, ks: seq<string>, campaigns: seq<CampaignData>)
    requires |campaigns| == |ks|
    requires forall j :: 0 <= j < |ks| ==> campaigns[j].totalLeads == |Members(rows, ByCampaign, ks[j])|
    ensures SumTotalLeads(campaigns) == GroupSizes(rows, ByCampaign, ks)
  {
    if ks != [] {
      SumTotalLeadsSizes(rows, ks[1..], campaigns[1..]);
    }
  }

  /** Every lead's campaign key has its campaign row. */
  lemma KeysCoverRows(rows: seq<LeadRow>, g: GroupBy)
    ensures forall r :: r in rows ==> KeyFor(g, r) in Keys(rows, g)
  {
    forall r | r in rows
      ensures KeyFor(g, r) in Keys(rows, g)
    {
      MembersExactly(rows, g, KeyFor(g, r));
      KeysExactly(rows, g, KeyFor(g, r));
      assert r in Members(rows, g, KeyFor(g, r));
    }
  }

  /**
   * The campaign rows hold every lead exactly once: their lead counts add
   * up to the number of rows. Each campaign has at least one lead, no more
   * conversions than leads, and a rate between 0 and 100; every lead's key
   * has its campaign row.
   */
  lemma CampaignTotals(rows: seq<LeadRow>, campaigns: seq<CampaignData>)
    requires |campaigns| == |Keys(rows, ByCampaign)|
    requires forall j :: 0 <= j < |campaigns| ==> campaigns[j] == CampaignFor(rows, Keys(rows, ByCampaign)[j])
    ensures SumTotalLeads(campaigns) == |rows|
    ensures forall j :: 0 <= j < |campaigns| ==>
      campaigns[j].totalLeads >= 1 && campaigns[j].conversions <= campaigns[j].totalLeads
      && 0.0 <= campaigns[j].conversionRate <= 100.0
    ensures forall r :: r in rows ==> CampaignKey(r) in Keys(rows, ByCampaign)
  {
    var ks := Keys(rows, ByCampaign);
    SumTotalLeadsSizes(rows, ks, campaigns);
    GroupSizesTotal(rows, ByCampaign);
    forall j | 0 <= j < |campaigns|
      ensures 0.0 <= campaigns[j].conversionRate <= 100.0
    {
      RatesComplement(campaigns[j].conversions, campaigns[j].totalLeads);
    }
    KeysCoverRows(rows, ByCampaign);
  }

  /**
   * The key is not a faithful join: a lead from source 'a-b', campaign 'c'
   * and a lead from source 'a', campaign 'b-c' share the key 'a-b-c-None-None',
   * so they land in one campaign row, shown with the first lead's source.
   */
  lemma KeyCollision()
    ensures var r1 := LeadRow("", false, 0, 0, "a-b", "c", "", "", "2024-01-01");
            var r2 := LeadRow("", false, 0, 0, "a", "b-c", "", "", "2024-01-01");
            (SourceOf(r1), CampaignOf(r1)) != (SourceOf(r2), CampaignOf(r2))
            && CampaignKey(r1) == CampaignKey(r2)
            && |Keys([r1, r2], ByCampaign)| == 1
            && CampaignFor([r1, r2], Keys([r1, r2], ByCampaign)[0]).totalLeads == 2
            && CampaignFor([r1, r2], Keys([r1, r2], ByCampaign)[0]).utmSource == "a-b"
  {
    var r1 := LeadRow("", false, 0, 0, "a-b", "c", "", "", "2024-01-01");
    var r2 := LeadRow("", false, 0, 0, "a", "b-c", "", "", "2024-01-01");
    assert SourceOf(r1) != SourceOf(r2) by {
      assert |SourceOf(r1)| == 3 && |SourceOf(r2)| == 1;
    }
    assert CampaignKey(r1) == CampaignKey(r2);
    MembersSnoc([r1], r2, ByCampaign, CampaignKey(r1));
    assert [r1] + [r2] == [r1, r2];
    assert Members([r1], ByCampaign, CampaignKey(r1)) == [r1];
  }

  // ---------------------------------------------------------------------
  // Headline figures

  /** The leads whose recorded purchase method is `m`. */
  function MethodCount(rows: seq<LeadRow>, m: string): (c: nat)
    ensures c <= |rows|
  {
    if rows == [] then 0
    else MethodCount(rows[..|rows| - 1], m) + (if rows[|rows| - 1].modalidadeCompra == m then 1 else 0)
  }

  /** `KPIData`. */
  datatype KPIData = KPIData(
    totalLeads: nat,
    totalConversions: nat,
    overallConversionRate: real,
    avgFunnelTime: real,
    siteOficialCount: nat,
    pagarEntregaCount: nat)

  /** `kpis`: the counts over all rows, and the ratios 0 when there are none. */
  function Kpis(rows: seq<LeadRow>): KPIData {
    KPIData(|rows|, Conversions(rows), Rate(Conversions(rows), |rows|), Average(TotalTime(rows), |rows|),
            MethodCount(rows, "site-oficial"), MethodCount(rows, "pagar-entrega"))
  }

  /** Two different purchase methods count disjoint leads. */
  lemma {:induction false} MethodCountsDisjoint(rows: seq<LeadRow>, m1: string, m2: string)
    requires m1 != m2
    ensures MethodCount(rows, m1) + MethodCount(rows, m2) <= |rows|
  {
    if rows != [] {
      MethodCountsDisjoint(rows[..|rows| - 1], m1, m2);
    }
  }

  /**
   * The conversions are at most the leads, the two purchase methods'
   * counts at most the leads between them, the rate between 0 and 100,
   * and with no rows both the rate and the average time are 0.
   */
  lemma KpiBounds(rows: seq<LeadRow>)
    ensures var k := Kpis(rows);
      k.totalLeads == |rows| && k.totalConversions <= k.totalLeads
      && k.siteOficialCount + k.pagarEntregaCount <= k.totalLeads
      && 0.0 <= k.overallConversionRate <= 100.0
      && (rows == [] ==> k.overallConversionRate == 0.0 && k.avgFunnelTime == 0.0)
  {
    MethodCountsDisjoint(rows, "site-oficial", "pagar-entrega");
    RatesComplement(Conversions(rows), |rows|);
  }

  // ---------------------------------------------------------------------
  // Leads per day

  /** `TimeSeriesData`. */
  datatype TimeSeriesData = TimeSeriesData(date: string, leads: nat, conversions: nat)

  /** `a.date.localeCompare(b.date)`, as an ordinal comparison. */
  function DateCmp(a: TimeSeriesData, b: TimeSeriesData): int {
    Compare(a.date, b.date)
  }

  /** A day's entry: the leads created on it and how many of them converted. */
  function DayEntry(rows: seq<LeadRow>, day: string): TimeSeriesData {
    var m := Members(rows, ByDay, day);
    TimeSeriesData(day, |m|, Conversions(m))
  }

  /** The entries of the days in the order their first lead occurs, before sorting. */
  function DayEntries(rows: seq<LeadRow>): (es: seq<TimeSeriesData>)
    ensures |es| == |Keys(rows, ByDay)|
    ensures forall j :: 0 <= j < |es| ==> es[j] == DayEntry(rows, Keys(rows, ByDay)[j])
  {
    var ks := Keys(rows, ByDay);
    seq(|ks|, j requires 0 <= j < |ks| => DayEntry(rows, ks[j]))
  }

  /** `timeSeries`: a day's counters per day, then sorted by date. */
  method ProcessTimeSeries(rows: seq<LeadRow>) returns (series: seq<TimeSeriesData>)
    ensures series == Sorting.SortBy(DayEntries(rows), DateCmp)
  {
    var keys, tallies := TallyGroups(rows, ByDay);
    var entries := new TimeSeriesData[|keys|](j requires 0 <= j < |keys| reads {} => TimeSeriesData(keys[j], tallies[j].totalLeads, tallies[j].conversions));
    assert entries[..] == DayEntries(rows);
    Sorting.SortInPlace(entries, DateCmp);
    series := entries[..];
  }

  function SumLeads(s: seq<TimeSeriesData>): nat {
    if s == [] then 0 else s[0].leads + SumLeads(s[1..])
  }

  lemma {:induction false} SumLeadsInsert(x: TimeSeriesData, s: seq<TimeSeriesData>)
    ensures SumLeads(Sorting.Insert(x, s, DateCmp)) == x.leads + SumLeads(s)
  {
    if s != [] && DateCmp(x, s[0]) > 0 {
      SumLeadsInsert(x, s[1..]);
      assert Sorting.Insert(x, s, DateCmp)[1..] == Sorting.Insert(x, s[1..], DateCmp);
    }
  }

  lemma {:induction false} SumLeadsSorted(s: seq<TimeSeriesData>)
    ensures SumLeads(Sorting.SortBy(s, DateCmp)) == SumLeads(s)
  {
    if s != [] {
      SumLeadsSorted(s[1..]);
      SumLeadsInsert(s[0], Sorting.SortBy(s[1..], DateCmp));
    }
  }

  lemma {:induction false} SumLeadsSizes(rows: seq<LeadRow>, ks: seq<string>, es: seq<TimeSeriesData>)
    requires |es| == |ks|
    requires forall j :: 0 <= j < |ks| ==> es[j].leads == |Members(rows, ByDay, ks[j])|
    ensures SumLeads(es) == GroupSizes(rows, ByDay, ks)
  {
    if ks != [] {
      SumLeadsSizes(rows, ks[1..], es[1..]);
    }
  }

  predicate DistinctDates(s: seq<TimeSeriesData>) {
    forall i, j :: 0 <= i < j < |s| ==> s[i].date != s[j].date
  }

  lemma {:induction false} DistinctDatesOnce(s: seq<TimeSeriesData>, x: TimeSeriesData)
    requires DistinctDates(s)
    ensures multiset(s)[x] <= 1
  {
    if s != [] {
      assert s == [s[0]] + s[1..];
      DistinctDatesOnce(s[1..], x);
      if s[0] == x {
        assert x !in s[1..] by {
          forall j | 0 <= j < |s[1..]|
            ensures s[1..][j] != x
          {
            assert s[j + 1].date != s[0].date;
          }
        }
      }
    }
  }

  lemma DuplicateCount(s: seq<TimeSeriesData>, i: nat, j: nat)
    requires i < j < |s| && s[i] == s[j]
    ensures multiset(s)[s[i]] >= 2
  {
    assert s == s[..i] + [s[i]] + s[i + 1..j] + [s[j]] + s[j + 1..];
  }

  lemma SameDateSameEntry(t: seq<TimeSeriesData>, a: TimeSeriesData, b: TimeSeriesData)
    requires DistinctDates(t) && a in t && b in t && a.date == b.date
    ensures a == b
  {
    var p :| 0 <= p < |t| && t[p] == a;
    var q :| 0 <= q < |t| && t[q] == b;
    if p != q {
      assert false;
    }
  }

  /** A reordering of entries with distinct dates has distinct dates. */
  lemma DistinctDatesPermuted(s: seq<TimeSeriesData>, t: seq<TimeSeriesData>)
    requires multiset(s) == multiset(t) && DistinctDates(t)
    ensures DistinctDates(s)
  {
    forall i, j | 0 <= i < j < |s|
      ensures s[i].date != s[j].date
    {
      if s[i].date == s[j].date {
        assert s[i] in multiset(t) && s[j] in multiset(t);
        SameDateSameEntry(t, s[i], s[j]);
        DuplicateCount(s, i, j);
        DistinctDatesOnce(t, s[i]);
        assert false;
      }
    }
  }

  /** The date order is a consistent comparator on any entries. */
  lemma DateCmpConsistent(es: seq<TimeSeriesData>)
    ensures Sorting.TotalPreorder(DateCmp, es)
  {
    forall a, b, c | a in es && b in es && c in es
      ensures DateCmp(a, b) <= 0 || DateCmp(b, a) <= 0
      ensures DateCmp(a, b) <= 0 && DateCmp(b, c) <= 0 ==> DateCmp(a, c) <= 0
    {
      CompareAntisymmetric(a.date, b.date);
      if DateCmp(a, b) <= 0 && DateCmp(b, c) <= 0 {
        CompareTransitive(a.date, b.date, c.date);
      }
    }
  }

  /** The sorted series lists its days in strictly ascending order. */
  lemma SeriesAscending(rows: seq<LeadRow>)
    ensures var series := Sorting.SortBy(DayEntries(rows), DateCmp);
      forall i, j :: 0 <= i < j < |series| ==> Compare(series[i].date, series[j].date) < 0
  {
    var es := DayEntries(rows);
    var series := Sorting.SortBy(es, DateCmp);
    DateCmpConsistent(es);
    Sorting.SortBySorted(es, DateCmp);
    Sorting.SortByPermutation(es, DateCmp);
    DistinctDatesPermuted(series, es);
  }

  /** The sorted series holds exactly the entries of the days that have leads. */
  lemma SeriesEntries(rows: seq<LeadRow>)
    ensures var series := Sorting.SortBy(DayEntries(rows), DateCmp);
      (forall j :: 0 <= j < |series| ==> series[j] == DayEntry(rows, series[j].date) && series[j].date in Keys(rows, ByDay))
      && (forall r :: r in rows ==> exists j :: 0 <= j < |series| && series[j].date == r.createdDay)
  {
    var es := DayEntries(rows);
    var series := Sorting.SortBy(es, DateCmp);
    var ks := Keys(rows, ByDay);
    Sorting.SortByPermutation(es, DateCmp);
    forall j | 0 <= j < |series|
      ensures series[j] == DayEntry(rows, series[j].date) && series[j].date in ks
    {
      assert series[j] in multiset(es);
    }
    KeysCoverRows(rows, ByDay);
    forall r | r in rows
      ensures exists j :: 0 <= j < |series| && series[j].date == r.createdDay
    {
      assert KeyFor(ByDay, r) == r.createdDay;
      var p := Tally.IndexOf(ks, r.createdDay);
      assert es[p] in multiset(series);
      var j :| 0 <= j < |series| && series[j] == es[p];
    }
  }

  /**
   * The time series has one entry per day that has a lead, in strictly
   * ascending date order; each day has at least one lead and no more
   * conversions than leads; and the days' leads add up to the rows.
   */
  lemma TimeSeriesShape(rows: seq<LeadRow>)
    ensures var series := Sorting.SortBy(DayEntries(rows), DateCmp);
      (forall i, j :: 0 <= i < j < |series| ==> Compare(series[i].date, series[j].date) < 0)
      && (forall r :: r in rows ==> exists j :: 0 <= j < |series| && series[j].date == r.createdDay)
      && (forall j :: 0 <= j < |series| ==> series[j] == DayEntry(rows, series[j].date))
      && (forall j :: 0 <= j < |series| ==> 1 <= series[j].leads && series[j].conversions <= series[j].leads)
      && SumLeads(series) == |rows|
  {
    var es := DayEntries(rows);
    SeriesAscending(rows);
    SeriesEntries(rows);
    SumLeadsSorted(es);
    SumLeadsSizes(rows, Keys(rows, ByDay), es);
    GroupSizesTotal(rows, ByDay);
  }

  // ---------------------------------------------------------------------
  // The whole report

  datatype CampaignReport = CampaignReport(campaigns: seq<CampaignData>, kpis: KPIData, timeSeries: seq<TimeSeriesData>)

  /** `queryFn`'s processing of the three query results. */
  method CampaignAnalyticsReport(campaignData: seq<LeadRow>, kpiData: seq<LeadRow>, timeSeriesData: seq<LeadRow>)
    returns (r: CampaignReport)
    ensures |r.campaigns| == |Keys(campaignData, ByCampaign)|
    ensures forall j :: 0 <= j < |r.campaigns| ==> r.campaigns[j] == CampaignFor(campaignData, Keys(campaignData, ByCampaign)[j])
    ensures r.kpis == Kpis(kpiData)
    ensures r.timeSeries == Sorting.SortBy(DayEntries(timeSeriesData), DateCmp)
  {
    var campaigns := ProcessCampaigns(campaignData);
    var series := ProcessTimeSeries(timeSeriesData);
    r := CampaignReport(campaigns, Kpis(kpiData), series);
  }
}
