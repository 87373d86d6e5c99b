/**
 * The orders page of the delivery dashboard: the multi-selection of leads
 * for label printing, the card actions and the status dialog's save, and
 * the rendering decision with its 1-based route numbers for the proximity
 * sections. The hook's outputs (the sorted leads and the loading flag) are
 * fields the page reads; each call to `updateLeadStatus` is recorded in
 * order in `sent`, standing for the request it makes.
 */
module Pedidos {
  import opened Text
  import opened Leads
  import opened Grouping
  import opened DeliveryManagement

  // ---------------------------------------------------------------------
  // Selection

  /** `ids.filter(id => id !== x)`: every occurrence of `x` removed, the rest kept in order. */
  function RemoveAll(ids: seq<string>, x: string): (r: seq<string>)
    ensures x !in r
    ensures forall y :: y != x ==> multiset(r)[y] == multiset(ids)[y]
  {
    if ids == [] then []
    else
      assert ids == [ids[0]] + ids[1..];
      if ids[0] == x then RemoveAll(ids[1..], x) else [ids[0]] + RemoveAll(ids[1..], x)
  }

  /** Removing from a selection made of two runs removes from each run, keeping their order. */
  lemma {:induction false} RemoveAllAppend(a: seq<string>, b: seq<string>, x: string)
    ensures RemoveAll(a + b, x) == RemoveAll(a, x) + RemoveAll(b, x)
  {
    if a == [] {
      assert a + b == b;
    } else {
      assert (a + b)[1..] == a[1..] + b;
      RemoveAllAppend(a[1..], b, x);
    }
  }

  /** `leads.filter(lead => selected.includes(lead.id))`. */
  function SelectedData(leads: seq<Lead>, selected: seq<string>): (r: seq<Lead>)
    ensures forall l :: multiset(r)[l] == if l.id in selected then multiset(leads)[l] else 0
  {
    if leads == [] then []
    else
      assert leads == [leads[0]] + leads[1..];
      if leads[0].id in selected then [leads[0]] + SelectedData(leads[1..], selected)
      else SelectedData(leads[1..], selected)
  }

  /** The selected leads keep list order: filtering two runs filters each. */
  lemma {:induction false} SelectedDataAppend(a: seq<Lead>, b: seq<Lead>, selected: seq<string>)
    ensures SelectedData(a + b, selected) == SelectedData(a, selected) + SelectedData(b, selected)
  {
    if a == [] {
      assert a + b == b;
    } else {
      assert (a + b)[1..] == a[1..] + b;
      SelectedDataAppend(a[1..], b, selected);
    }
  }

  /**
   * Only which ids are selected matters, not how often or in what order:
   * a selection holding an id twice yields that lead once.
   */
  lemma {:induction false} SelectedDataSetOnly(leads: seq<Lead>, s1: seq<string>, s2: seq<string>)
    requires forall id :: id in s1 <==> id in s2
    ensures SelectedData(leads, s1) == SelectedData(leads, s2)
  {
    if leads != [] {
      SelectedDataSetOnly(leads[1..], s1, s2);
    }
  }

  datatype CardAction = Paid | Unpaid | Details

  /**
   * The update a card's 'paid' button sends: paid and delivered, both dated
   * now. The two dates are taken as one clock reading, though the handler
   * reads the clock once for each and the two can differ by a millisecond.
   */
  function PaidAndDelivered(now: string): (u: StatusUpdate)
    ensures u.paymentStatus == Some("paid") && u.deliveryStatus == Some("delivered")
    ensures u.paymentDate == Some(now) && u.deliveryDate == Some(now)
    ensures u.paymentNotes == None && u.deliveryNotes == None
  {
    StatusUpdate(Some("paid"), Some("delivered"), None, None, Some(now), Some(now))
  }

  // ---------------------------------------------------------------------
  // Route numbering

  /** One section as rendered: its city, neighbourhood, leads and route number. */
  datatype RouteSection = RouteSection(city: string, bairro: string, leads: seq<Lead>, order: nat)

  /** What `renderContent` shows. */
  datatype View =
    | Spinner
    | NoOrders
    | Sections(sections: seq<RouteSection>)
    | List(leads: seq<Lead>)

  /** The sections of one city, each paired with the city's name. */
  function CityEntries(g: CityGroup): (es: seq<(string, Section)>)
    ensures |es| == |g.sections|
    ensures forall k :: 0 <= k < |g.sections| ==> es[k] == (g.city, g.sections[k])
  {
    seq(|g.sections|, k requires 0 <= k < |g.sections| => (g.city, g.sections[k]))
  }

  /** The sections of a grouping, in (city, neighbourhood) iteration order. */
  function Entries(gs: seq<CityGroup>): seq<(string, Section)> {
    if gs == [] then [] else Entries(gs[..|gs| - 1]) + CityEntries(gs[|gs| - 1])
  }

  /** `sections` are `es` numbered 1, 2, 3, ... in order. */
  predicate Numbered(sections: seq<RouteSection>, es: seq<(string, Section)>) {
    |sections| == |es|
    && forall i :: 0 <= i < |es| ==>
         sections[i] == RouteSection(es[i].0, es[i].1.bairro, es[i].1.leads, i + 1)
  }

  lemma NumberedSnoc(sections: seq<RouteSection>, front: seq<(string, Section)>, es: seq<(string, Section)>, k: nat)
    requires k < |es| && Numbered(sections, front + es[..k])
    ensures Numbered(sections + [RouteSection(es[k].0, es[k].1.bairro, es[k].1.leads, |sections| + 1)],
                     front + es[..k + 1])
  {
    assert front + es[..k + 1] == (front + es[..k]) + [es[k]];
  }

  lemma EntriesStep(gs: seq<CityGroup>, m: nat)
    requires m < |gs|
    ensures Entries(gs[..m + 1]) == Entries(gs[..m]) + CityEntries(gs[m])
  {
    assert gs[..m + 1][..m] == gs[..m];
  }

  /**
   * The proximity branch of `renderContent`: a `sectionOrder` counter
   * starting at 1 and bumped once per (city, neighbourhood) section.
   */
  method NumberSections(groups: seq<CityGroup>) returns (sections: seq<RouteSection>)
    ensures Numbered(sections, Entries(groups))
  {
    sections := [];
    var sectionOrder := 1;
    for m := 0 to |groups|
      invariant sectionOrder == |sections| + 1
      invariant Numbered(sections, Entries(groups[..m]))
    {
      var g := groups[m];
      var es := CityEntries(g);
      assert Entries(groups[..m]) + es[..0] == Entries(groups[..m]);
      for k := 0 to |g.sections|
        invariant sectionOrder == |sections| + 1
        invariant Numbered(sections, Entries(groups[..m]) + es[..k])
      {
        NumberedSnoc(sections, Entries(groups[..m]), es, k);
        sections := sections + [RouteSection(g.city, g.sections[k].bairro, g.sections[k].leads, sectionOrder)];
        sectionOrder := sectionOrder + 1;
      }
      assert es[..|g.sections|] == es;
      EntriesStep(groups, m);
    }
    assert groups[..|groups|] == groups;
  }

  function EntryLeads(es: seq<(string, Section)>): (parts: seq<seq<Lead>>)
    ensures |parts| == |es| && forall i :: 0 <= i < |es| ==> parts[i] == es[i].1.leads
  {
    seq(|es|, i requires 0 <= i < |es| => es[i].1.leads)
  }

  lemma {:induction false} FlattenConcat(p: seq<seq<Lead>>, q: seq<seq<Lead>>)
    ensures Flatten(p + q) == Flatten(p) + Flatten(q)
    decreases |q|
  {
    if q == [] {
      assert p + q == p;
    } else {
      var q' := q[..|q| - 1];
      assert (p + q)[..|p + q| - 1] == p + q';
      FlattenConcat(p, q');
    }
  }

  /** Reading the sections in order reads the grouped leads city after city. */
  lemma {:induction false} EntriesFlatten(gs: seq<CityGroup>)
    ensures Flatten(EntryLeads(Entries(gs))) == Flatten(CityParts(gs))
  {
    if gs != [] {
      var n := |gs| - 1;
      var front := Entries(gs[..n]);
      var last := CityEntries(gs[n]);
      EntriesFlatten(gs[..n]);
      assert EntryLeads(front + last) == EntryLeads(front) + SectionParts(gs[n].sections);
      FlattenConcat(EntryLeads(front), SectionParts(gs[n].sections));
      assert CityParts(gs)[..n] == CityParts(gs[..n]);
    }
  }

  /**
   * In proximity mode, following the route numbers 1, 2, 3, ... visits the
   * leads exactly in the order the proximity sort produced.
   */
  lemma RouteNumbersFollowSort(table: NeighbourhoodWalk.Table, leads: seq<Lead>, sections: seq<RouteSection>)
    requires Numbered(sections, Entries(Grouped(ProximityOrder(table, leads))))
    ensures Flatten(seq(|sections|, i requires 0 <= i < |sections| => sections[i].leads)) == ProximityOrder(table, leads)
  {
    var route := Route(table, leads);
    GroupedProximityIsRoute(table, leads);
    NumberedLeads(sections, Entries(route));
    EntriesFlatten(route);
    assert ProximityOrder(table, leads) == Flatten(CityParts(route));
  }

  /** The leads of numbered sections, section by section, are those of the entries. */
  lemma NumberedLeads(sections: seq<RouteSection>, es: seq<(string, Section)>)
    requires Numbered(sections, es)
    ensures seq(|sections|, i requires 0 <= i < |sections| => sections[i].leads) == EntryLeads(es)
  {
    var parts := seq(|sections|, i requires 0 <= i < |sections| => sections[i].leads);
    forall i | 0 <= i < |parts|
      ensures parts[i] == EntryLeads(es)[i]
    {
      assert sections[i] == RouteSection(es[i].0, es[i].1.bairro, es[i].1.leads, i + 1);
    }
  }

  // ---------------------------------------------------------------------
  // The page

  class OrdersPage {
    /** From the delivery hook: its sorted leads, its loading flag, and the sort mode of the filters. */
    var leads: seq<Lead>
    var loading: bool
    var sortBy: string

    var selectedLeads: seq<string>
    var selectedLead: Option<Lead>
    var modalOpen: bool
    var printModalOpen: bool
    /** The `updateLeadStatus` calls made so far, oldest first. */
    var sent: seq<(string, StatusUpdate)>

    /** The page's initial state over the hook's current output. */
    constructor (leads: seq<Lead>, loading: bool, sortBy: string)
      ensures this.leads == leads && this.loading == loading && this.sortBy == sortBy
      ensures selectedLeads == [] && selectedLead == None && !modalOpen && !printModalOpen && sent == []
    {
      this.leads := leads;
      this.loading := loading;
      this.sortBy := sortBy;
      selectedLeads := [];
      selectedLead := None;
      modalOpen := false;
      printModalOpen := false;
      sent := [];
    }

    /** `handleStatusUpdate`: send the update, then close the dialog and forget the lead. */
    method HandleStatusUpdate(leadId: string, updates: StatusUpdate)
      modifies this
      ensures sent == old(sent) + [(leadId, updates)]
      ensures !modalOpen && selectedLead == None
      ensures leads == old(leads) && selectedLeads == old(selectedLeads) && printModalOpen == old(printModalOpen)
      ensures loading == old(loading) && sortBy == old(sortBy)
    {
      sent := sent + [(leadId, updates)];
      modalOpen := false;
      selectedLead := None;
    }

    /** `handleCardAction`: 'paid' sends one paid-and-delivered update; 'details' and 'unpaid' open the dialog. */
    method HandleCardAction(lead: Lead, action: CardAction, now: string)
      modifies this
      ensures action == Paid ==> sent == old(sent) + [(lead.id, PaidAndDelivered(now))] && !modalOpen && selectedLead == None
      ensures action != Paid ==> sent == old(sent) && modalOpen && selectedLead == Some(lead)
      ensures leads == old(leads) && selectedLeads == old(selectedLeads) && printModalOpen == old(printModalOpen)
      ensures loading == old(loading) && sortBy == old(sortBy)
    {
      match action
      case Details =>
        selectedLead := Some(lead);
        modalOpen := true;
      case Paid =>
        HandleStatusUpdate(lead.id, PaidAndDelivered(now));
      case Unpaid =>
        selectedLead := Some(lead);
        modalOpen := true;
    }

    /** `handleSelectLead`: ticking appends the id, even a second time; unticking removes every occurrence. */
    method HandleSelectLead(leadId: string, selected: bool)
      modifies this
      ensures selected ==> selectedLeads == old(selectedLeads) + [leadId]
      ensures !selected ==> selectedLeads == RemoveAll(old(selectedLeads), leadId)
      ensures leads == old(leads) && selectedLead == old(selectedLead) && modalOpen == old(modalOpen)
      ensures printModalOpen == old(printModalOpen) && sent == old(sent)
      ensures loading == old(loading) && sortBy == old(sortBy)
    {
      if selected {
        selectedLeads := selectedLeads + [leadId];
      } else {
        selectedLeads := RemoveAll(selectedLeads, leadId);
      }
    }

    /**
     * `handleSelectAll`: clears the selection when it is as long as the
     * lead list, and otherwise selects every lead, in list order.
     */
    method HandleSelectAll()
      modifies this
      ensures |old(selectedLeads)| == |leads| ==> selectedLeads == []
      ensures |old(selectedLeads)| != |leads| ==> selectedLeads == Ids(leads)
      ensures leads == old(leads) && selectedLead == old(selectedLead) && modalOpen == old(modalOpen)
      ensures printModalOpen == old(printModalOpen) && sent == old(sent)
      ensures loading == old(loading) && sortBy == old(sortBy)
    {
      if |selectedLeads| == |leads| {
        selectedLeads := [];
      } else {
        selectedLeads := Ids(leads);
      }
    }

    /** `getSelectedLeadsData`. */
    function SelectedLeadsData(): seq<Lead>
      reads this
    {
      SelectedData(leads, selectedLeads)
    }

    /** `handlePrint`: the selection is emptied. */
    method HandlePrint()
      modifies this
      ensures selectedLeads == []
      ensures leads == old(leads) && selectedLead == old(selectedLead) && modalOpen == old(modalOpen)
      ensures printModalOpen == old(printModalOpen) && sent == old(sent)
      ensures loading == old(loading) && sortBy == old(sortBy)
    {
      selectedLeads := [];
    }

    /**
     * `renderContent`: a spinner while loading, the empty notice for no
     * leads, the numbered sections in proximity mode, and the plain list
     * otherwise.
     */
    method RenderContent() returns (view: View)
      ensures loading ==> view == Spinner
      ensures !loading && leads == [] ==> view == NoOrders
      ensures !loading && leads != [] && sortBy == "proximity" ==>
        view.Sections? && Numbered(view.sections, Entries(Grouped(leads)))
      ensures !loading && leads != [] && sortBy != "proximity" ==> view == List(leads)
    {
      if loading {
        return Spinner;
      }
      if |leads| == 0 {
        return NoOrders;
      }
      var groupedLeads := GetGroupedLeads(sortBy, leads);
      if sortBy == "proximity" && groupedLeads.Some? {
        var sections := NumberSections(groupedLeads.value);
        return Sections(sections);
      }
      return List(leads);
    }
  }

  /** Selecting everything and then unselecting one id leaves every other lead selected. */
  lemma SelectAllThenUntick(leads: seq<Lead>, id: string)
    ensures forall l: Lead :: l.id != id ==> multiset(SelectedData(leads, RemoveAll(Ids(leads), id)))[l] == multiset(leads)[l]
    ensures forall l: Lead :: l.id == id ==> multiset(SelectedData(leads, RemoveAll(Ids(leads), id)))[l] == 0
  {
    var sel := RemoveAll(Ids(leads), id);
    forall l: Lead | l.id != id && l in leads
      ensures l.id in sel
    {
      var i :| 0 <= i < |leads| && leads[i] == l;
      assert Ids(leads)[i] == l.id;
      assert multiset(Ids(leads))[l.id] > 0;
    }
  }
}
