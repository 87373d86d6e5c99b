/**
 * The live-activity hook of the dashboard: from the funnel events of the
 * last 30 minutes (or, when there are none, of the last 24 hours) it keeps
 * the latest event of each lead and counts those leads by step and by
 * purchase method.
 */
module RealtimeTracking {
  import opened Text
  import opened AnalyticsRows
  import opened Tally

  /** One entry of `recentActivity`. */
  datatype OnlineUser = OnlineUser(
    leadId: string,
    stepNumber: int,
    eventType: string,
    modalidadeCompra: string,
    timestamp: int)

  /**
   * `RealtimeData`. The step and purchase-method tallies are JavaScript
   * `Map`s, kept with their keys in insertion order. `stepActivity` is
   * always empty and is not modelled.
   */
  datatype RealtimeData = RealtimeData(
    totalOnline: nat,
    usersByStep: Counts<int>,
    usersByModality: Counts<string>,
    recentActivity: seq<OnlineUser>,
    lastActivity: Option<int>,
    isUsingFallback: bool)

  /** The hook's initial state. */
  const Initial: RealtimeData := RealtimeData(0, Counts([], []), Counts([], []), [], None, false)

  /** `event.leads?.modalidade_compra || 'unknown'`. */
  function OnlineModality(e: EventRow): (m: string)
    ensures m != ""
    ensures e.modalidadeCompra != "" ==> m == e.modalidadeCompra
  {
    if e.modalidadeCompra != "" then e.modalidadeCompra else "unknown"
  }

  // ---------------------------------------------------------------------
  // The latest event of each lead

  /** The lead ids of the events that carry one, in event order. */
  function LeadIds(events: seq<EventRow>): (ids: seq<string>)
    ensures "" !in ids
    ensures forall k :: 0 <= k < |events| && events[k].leadId != "" ==> events[k].leadId in ids
  {
    if events == [] then []
    else
      var ids, e := LeadIds(events[..|events| - 1]), events[|events| - 1];
      if e.leadId != "" then ids + [e.leadId] else ids
  }

  /**
   * `latestEventsByLead`: lead ids in the order the `Map` first saw them,
   * beside the event kept for each.
   */
  datatype LeadMap = LeadMap(ids: seq<string>, events: seq<EventRow>)

  predicate WellKeyed(m: LeadMap) {
    |m.ids| == |m.events| && Distinct(m.ids) && "" !in m.ids
    && forall j :: 0 <= j < |m.ids| ==> m.events[j].leadId == m.ids[j]
  }

  /**
   * The map after `events`: an event with a lead id is set when its lead
   * is new, or when it is strictly later than the one kept; a lead keeps
   * its first position.
   */
  function LatestByLead(events: seq<EventRow>): (m: LeadMap)
    ensures WellKeyed(m)
  {
    if events == [] then LeadMap([], [])
    else
      var m := LatestByLead(events[..|events| - 1]);
      var e := events[|events| - 1];
      if e.leadId == "" then m
      else
        var i := IndexOf(m.ids, e.leadId);
        if i == |m.ids| then LeadMap(m.ids + [e.leadId], m.events + [e])
        else if e.timestamp > m.events[i].timestamp then LeadMap(m.ids, m.events[i := e])
        else m
  }

  /** The map holds one entry per lead id, in the order the ids first occur. */
  lemma {:induction false} LatestByLeadKeys(events: seq<EventRow>)
    ensures LatestByLead(events).ids == FirstSeen(LeadIds(events))
  {
    if events != [] {
      var p, e := events[..|events| - 1], events[|events| - 1];
      LatestByLeadKeys(p);
      var m := LatestByLead(p);
      assert events[..|events| - 1] == p;
      if e.leadId != "" {
        assert LeadIds(events) == LeadIds(p) + [e.leadId];
        SnocCounts(LeadIds(p), e.leadId, e.leadId);
        var i := IndexOf(m.ids, e.leadId);
        assert LatestByLead(events).ids == if i == |m.ids| then m.ids + [e.leadId] else m.ids;
      } else {
        assert LeadIds(events) == LeadIds(p);
        assert LatestByLead(events) == m;
      }
    }
  }

  /** The event kept for lead `id` is the one at index `k`: the latest of its lead's, and the first of equally late ones. */
  ghost predicate FirstLatest(events: seq<EventRow>, id: string, k: int) {
    0 <= k < |events| && events[k].leadId == id
    && (forall i :: 0 <= i < |events| && events[i].leadId == id ==> events[i].timestamp <= events[k].timestamp)
    && (forall i :: 0 <= i < k && events[i].leadId == id ==> events[i].timestamp < events[k].timestamp)
  }

  lemma FirstLatestExtend(events: seq<EventRow>, e: EventRow, id: string, k: int)
    requires FirstLatest(events, id, k)
    requires e.leadId != id || e.timestamp <= events[k].timestamp
    ensures FirstLatest(events + [e], id, k)
  {
  }

  lemma FirstLatestNew(events: seq<EventRow>, e: EventRow)
    requires forall i :: 0 <= i < |events| && events[i].leadId == e.leadId ==> events[i].timestamp < e.timestamp
    ensures FirstLatest(events + [e], e.leadId, |events|)
  {
  }

  /**
   * Each lead's kept event is one of its events, as late as any other of
   * them, and strictly later than every one before it.
   */
  lemma {:induction false} LatestIsFirstMax(events: seq<EventRow>, j: nat)
    requires j < |LatestByLead(events).ids|
    ensures exists k :: FirstLatest(events, LatestByLead(events).ids[j], k) && events[k] == LatestByLead(events).events[j]
  {
    var m := LatestByLead(events);
    var p, e := events[..|events| - 1], events[|events| - 1];
    var m' := LatestByLead(p);
    assert events == p + [e];
    if e.leadId == "" {
      LatestIsFirstMax(p, j);
      var k :| FirstLatest(p, m'.ids[j], k) && p[k] == m'.events[j];
      FirstLatestExtend(p, e, m'.ids[j], k);
    } else {
      var i := IndexOf(m'.ids, e.leadId);
      if j < |m'.ids| {
        LatestIsFirstMax(p, j);
        var k :| FirstLatest(p, m'.ids[j], k) && p[k] == m'.events[j];
        if j == i && e.timestamp > m'.events[i].timestamp {
          FirstLatestNew(p, e);
        } else {
          FirstLatestExtend(p, e, m'.ids[j], k);
        }
      } else {
        LatestByLeadKeys(p);
        assert e.leadId !in LeadIds(p);
        FirstLatestNew(p, e);
      }
    }
  }

  // ---------------------------------------------------------------------
  // The most recent activity

  /** `lastActivityTimestamp`: the latest event time seen, the first of equal ones. */
  function LastActivity(events: seq<EventRow>): Option<int> {
    if events == [] then None
    else
      var last := LastActivity(events[..|events| - 1]);
      var e := events[|events| - 1];
      if last.None? || e.timestamp > last.value then Some(e.timestamp) else last
  }

  /** There is a last activity exactly when there are events, and it is the latest event time. */
  lemma {:induction false} LastActivityIsMax(events: seq<EventRow>)
    ensures LastActivity(events).None? <==> events == []
    ensures LastActivity(events).Some? ==>
      (exists k :: 0 <= k < |events| && events[k].timestamp == LastActivity(events).value)
      && forall k :: 0 <= k < |events| ==> events[k].timestamp <= LastActivity(events).value
  {
    if events != [] {
      var p, e := events[..|events| - 1], events[|events| - 1];
      LastActivityIsMax(p);
      assert events == p + [e];
      if LastActivity(p).Some? && e.timestamp <= LastActivity(p).value {
        var k :| 0 <= k < |p| && p[k].timestamp == LastActivity(p).value;
        assert events[k] == p[k];
      }
    }
  }

  // ---------------------------------------------------------------------
  // Tallies over the kept events

  /** The steps of the kept events, leaving out the falsy step 0. */
  function StepKeys(events: seq<EventRow>): (ks: seq<int>)
    ensures |ks| <= |events|
    ensures 0 !in ks
  {
    if events == [] then []
    else
      var steps, e := StepKeys(events[..|events| - 1]), events[|events| - 1];
      if e.stepNumber != 0 then steps + [e.stepNumber] else steps
  }

  /** The purchase method of each kept event. */
  function ModalityKeys(events: seq<EventRow>): (ks: seq<string>)
    ensures |ks| == |events|
    ensures "" !in ks
  {
    if events == [] then []
    else ModalityKeys(events[..|events| - 1]) + [OnlineModality(events[|events| - 1])]
  }

  /** `recentActivity`: the first ten kept events, in map order. */
  function Recent(events: seq<EventRow>): (r: seq<OnlineUser>)
    ensures |r| == if |events| < 10 then |events| else 10
  {
    var n := if |events| < 10 then |events| else 10;
    seq(n, j requires 0 <= j < n =>
      OnlineUser(events[j].leadId, events[j].stepNumber, events[j].eventType,
                 OnlineModality(events[j]), events[j].timestamp))
  }

  /** The data the hook publishes after processing `data`. */
  function Snapshot(data: seq<EventRow>, isUsingFallback: bool): RealtimeData {
    var m := LatestByLead(data);
    RealtimeData(
      if isUsingFallback then 0 else |m.ids|,
      CountsFor(StepKeys(m.events)),
      CountsFor(ModalityKeys(m.events)),
      Recent(m.events),
      LastActivity(data),
      isUsingFallback)
  }

  /** The map update for one event: a new lead is appended, a known lead keeps the later of its two events. */
  method ObserveEvent(ids: seq<string>, latest: seq<EventRow>, ghost done: seq<EventRow>, e: EventRow)
    returns (ids': seq<string>, latest': seq<EventRow>)
    requires LatestByLead(done) == LeadMap(ids, latest)
    ensures LatestByLead(done + [e]) == LeadMap(ids', latest')
  {
    assert (done + [e])[..|done|] == done;
    ids', latest' := ids, latest;
    if e.leadId != "" {
      var k := IndexOf(ids, e.leadId);
      if k == |ids| {
        ids', latest' := ids + [e.leadId], latest + [e];
      } else if e.timestamp > latest[k].timestamp {
        latest' := latest[k := e];
      }
    }
  }

  /**
   * The first pass over the window's events: the latest event per lead and
   * the last activity.
   */
  method ScanEvents(data: seq<EventRow>) returns (m: LeadMap, last: Option<int>)
    ensures m == LatestByLead(data) && last == LastActivity(data)
  {
    var ids: seq<string> := [];
    var latest: seq<EventRow> := [];
    last := None;
    var i := 0;
    while i < |data|
      invariant 0 <= i <= |data|
      invariant LatestByLead(data[..i]) == LeadMap(ids, latest)
      invariant last == LastActivity(data[..i])
    {
      var e := data[i];
      assert data[..i + 1] == data[..i] + [e];
      ids, latest := ObserveEvent(ids, latest, data[..i], e);
      if last.None? || e.timestamp > last.value {
        last := Some(e.timestamp);
      }
      i := i + 1;
    }
    assert data[..i] == data;
    m := LeadMap(ids, latest);
  }

  /**
   * The update for one kept event: its lead joins the set, its step is
   * counted unless falsy, and its purchase method is counted.
   */
  method CountKept(uniqueUsers: set<string>, usersByStep: Counts<int>, usersByModality: Counts<string>,
                   ghost done: seq<EventRow>, e: EventRow)
    returns (uniqueUsers': set<string>, usersByStep': Counts<int>, usersByModality': Counts<string>)
    requires CountsOf(usersByStep, StepKeys(done)) && CountsOf(usersByModality, ModalityKeys(done))
    ensures uniqueUsers' == uniqueUsers + {e.leadId}
    ensures CountsOf(usersByStep', StepKeys(done + [e])) && CountsOf(usersByModality', ModalityKeys(done + [e]))
  {
    assert (done + [e])[..|done|] == done;
    uniqueUsers' := uniqueUsers + {e.leadId};
    usersByStep' := usersByStep;
    if e.stepNumber != 0 {
      usersByStep' := Bump(usersByStep, StepKeys(done), e.stepNumber);
    }
    usersByModality' := Bump(usersByModality, ModalityKeys(done), OnlineModality(e));
  }

  /** The second pass, over the kept events: the set of leads and the two tallies. */
  method TallyLeads(m: LeadMap) returns (uniqueUsers: set<string>, usersByStep: Counts<int>, usersByModality: Counts<string>)
    requires WellKeyed(m)
    ensures |uniqueUsers| == |m.ids|
    ensures usersByStep == CountsFor(StepKeys(m.events))
    ensures usersByModality == CountsFor(ModalityKeys(m.events))
  {
    uniqueUsers := {};
    usersByStep := Counts([], []);
    usersByModality := Counts([], []);
    var j := 0;
    while j < |m.events|
      invariant 0 <= j <= |m.events|
      invariant uniqueUsers == LeadSet(m.events[..j])
      invariant CountsOf(usersByStep, StepKeys(m.events[..j]))
      invariant CountsOf(usersByModality, ModalityKeys(m.events[..j]))
    {
      var e := m.events[j];
      uniqueUsers, usersByStep, usersByModality := CountKept(uniqueUsers, usersByStep, usersByModality, m.events[..j], e);
      assert m.events[..j + 1] == m.events[..j] + [e];
      j := j + 1;
    }
    assert m.events[..j] == m.events;
    TallyLeadsSound(m, uniqueUsers, usersByStep, usersByModality);
  }

  /** The lead ids of the kept events, as a set. */
  function LeadSet(events: seq<EventRow>): set<string> {
    if events == [] then {} else LeadSet(events[..|events| - 1]) + {events[|events| - 1].leadId}
  }

  lemma {:induction false} LeadSetSize(m: LeadMap, n: nat)
    requires WellKeyed(m) && n <= |m.ids|
    ensures |LeadSet(m.events[..n])| == n
    ensures forall k :: n <= k < |m.ids| ==> m.ids[k] !in LeadSet(m.events[..n])
  {
    if n > 0 {
      LeadSetSize(m, n - 1);
      var before, id := LeadSet(m.events[..n - 1]), m.ids[n - 1];
      assert m.events[..n][..n - 1] == m.events[..n - 1];
      assert LeadSet(m.events[..n]) == before + {id} by {
        assert m.events[..n][n - 1].leadId == id;
      }
      assert id !in before;
      forall k | n <= k < |m.ids|
        ensures m.ids[k] !in LeadSet(m.events[..n])
      {
        assert m.ids[k] != m.ids[n - 1];
      }
    }
  }

  lemma TallyLeadsSound(m: LeadMap, uniqueUsers: set<string>, usersByStep: Counts<int>, usersByModality: Counts<string>)
    requires WellKeyed(m)
    requires uniqueUsers == LeadSet(m.events)
    requires CountsOf(usersByStep, StepKeys(m.events)) && CountsOf(usersByModality, ModalityKeys(m.events))
    ensures |uniqueUsers| == |m.ids|
    ensures usersByStep == CountsFor(StepKeys(m.events))
    ensures usersByModality == CountsFor(ModalityKeys(m.events))
  {
    CountsUnique(usersByStep, StepKeys(m.events));
    CountsUnique(usersByModality, ModalityKeys(m.events));
    LeadSetSize(m, |m.ids|);
    assert m.events[..|m.ids|] == m.events;
  }

  /** Processing the events of the window (`dataToProcess`). */
  method ProcessEvents(data: seq<EventRow>, isUsingFallback: bool) returns (r: RealtimeData)
    ensures r == Snapshot(data, isUsingFallback)
  {
    var latestEventsByLead, lastActivity := ScanEvents(data);
    var uniqueUsers, usersByStep, usersByModality := TallyLeads(latestEventsByLead);
    r := RealtimeData(if isUsingFallback then 0 else |uniqueUsers|, usersByStep, usersByModality,
                      Recent(latestEventsByLead.events), lastActivity, isUsingFallback);
  }

  /**
   * What the hook publishes: one user per lead (none online from the
   * fallback window), every one of them counted under exactly one purchase
   * method and at most once by step, no step 0, no empty purchase method,
   * and the first ten leads, in the order they were first seen, as recent
   * activity.
   */
  lemma SnapshotShape(data: seq<EventRow>, isUsingFallback: bool)
    ensures var s, ids := Snapshot(data, isUsingFallback), FirstSeen(LeadIds(data));
      s.totalOnline == (if isUsingFallback then 0 else |ids|)
      && Sum(s.usersByModality.counts) == |ids|
      && Sum(s.usersByStep.counts) <= |ids|
      && 0 !in s.usersByStep.keys
      && "" !in s.usersByModality.keys
      && |s.recentActivity| == (if |ids| < 10 then |ids| else 10)
      && forall j :: 0 <= j < |s.recentActivity| ==> s.recentActivity[j].leadId == ids[j]
  {
    var m := LatestByLead(data);
    LatestByLeadKeys(data);
    CountsTotal(CountsFor(StepKeys(m.events)), StepKeys(m.events));
    CountsTotal(CountsFor(ModalityKeys(m.events)), ModalityKeys(m.events));
  }

  /** A step's tally is the number of leads whose kept event is at that step. */
  lemma StepTallyCounts(data: seq<EventRow>, isUsingFallback: bool, step: int)
    requires step != 0
    ensures var s := Snapshot(data, isUsingFallback);
      Get(s.usersByStep, step) == Occurrences(StepKeys(LatestByLead(data).events), step)
  {
    var ks := StepKeys(LatestByLead(data).events);
    GetOccurrences(CountsFor(ks), ks, step);
  }

  /** The state of the `useRealtimeTracking` hook. */
  class RealtimeTracker {
    var realtimeData: RealtimeData
    var isConnected: bool

    constructor ()
      ensures realtimeData == Initial && !isConnected
    {
      realtimeData := Initial;
      isConnected := false;
    }

    /**
     * `fetchCurrentActivity`, given what the two queries returned: the
     * recent window's rows (None for null) with its error flag, and the
     * 24-hour fallback rows, which are only used when the recent window
     * has no rows. A query error leaves the data as it was.
     */
    method FetchCurrentActivity(activeUsers: Option<seq<EventRow>>, error: bool, fallbackData: Option<seq<EventRow>>)
      modifies this
      ensures error ==> realtimeData == old(realtimeData)
      ensures !error && activeUsers.Some? && activeUsers.value != [] ==>
        realtimeData == Snapshot(activeUsers.value, false)
      ensures !error && (activeUsers.None? || activeUsers.value == []) ==>
        realtimeData == Snapshot(if fallbackData.Some? then fallbackData.value else [], true)
      ensures isConnected == old(isConnected)
    {
      var fallback: seq<EventRow> := [];
      var active := if activeUsers.Some? then activeUsers.value else [];
      if active == [] && fallbackData.Some? {
        fallback := fallbackData.value;
      }
      if error {
        return;
      }
      var dataToProcess := if active != [] then active else fallback;
      var isUsingFallback := active == [];
      realtimeData := ProcessEvents(dataToProcess, isUsingFallback);
    }

    /** The subscription callback: connected exactly while subscribed. */
    method OnSubscriptionStatus(status: string)
      modifies this
      ensures isConnected <==> status == "SUBSCRIBED"
      ensures realtimeData == old(realtimeData)
    {
      isConnected := status == "SUBSCRIBED";
    }
  }
}
