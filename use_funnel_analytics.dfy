/**
 * The funnel report of the analytics dashboard: how many events each of
 * the five steps received and how long visitors spent on it, how many
 * leads got past each step, and the same completion counts for each of
 * the two purchase methods. The two queries' rows are the inputs.
 *
 * The hook keeps its counters in maps keyed by step and by purchase
 * method; here they are sequences indexed by step - 1 and by the method's
 * position, updated by the same loops.
 */
module FunnelAnalytics {
  import opened AnalyticsRows

  /** `stepNames`, step 1 first. */
  const StepNames: seq<string> := [
    "Seleção de Modalidade",
    "Dados Pessoais",
    "Seleção de Tratamento",
    "Agendamento",
    "Revisão Final"]

  const StepCount := 5

  // ---------------------------------------------------------------------
  // What is counted, defined on the rows

  /** The number of events recorded at step `n`. */
  function Entries(events: seq<EventRow>, n: int): (c: nat)
    ensures c <= |events|
  {
    if events == [] then 0
    else Entries(events[..|events| - 1], n) + (if events[|events| - 1].stepNumber == n then 1 else 0)
  }

  /** The number of events at step `n` that carry a time on the step. */
  function TimedEntries(events: seq<EventRow>, n: int): (c: nat)
    ensures c <= Entries(events, n)
  {
    if events == [] then 0
    else
      var e := events[|events| - 1];
      TimedEntries(events[..|events| - 1], n) + (if e.stepNumber == n && e.timeOnStepSeconds != 0 then 1 else 0)
  }

  /** The total time spent on step `n` over the events that carry one. */
  function TimeOnStep(events: seq<EventRow>, n: int): int {
    if events == [] then 0
    else
      var e := events[|events| - 1];
      TimeOnStep(events[..|events| - 1], n) + (if e.stepNumber == n && e.timeOnStepSeconds != 0 then e.timeOnStepSeconds else 0)
  }

  /** The number of events whose step is one of the five. */
  function InFunnel(events: seq<EventRow>): (c: nat)
    ensures c <= |events|
  {
    if events == [] then 0
    else InFunnel(events[..|events| - 1]) + (if 1 <= events[|events| - 1].stepNumber <= StepCount then 1 else 0)
  }

  /** The number of leads that completed at least `n` steps. */
  function Completed(leads: seq<LeadRow>, n: int): (c: nat)
    ensures c <= |leads|
  {
    if leads == [] then 0
    else Completed(leads[..|leads| - 1], n) + (if leads[|leads| - 1].completedSteps >= n then 1 else 0)
  }

  // ---------------------------------------------------------------------
  // The overall funnel

  /** A step's counters while the events are read. */
  datatype StepTally = StepTally(step: string, stepNumber: int, totalEntries: nat, totalTime: int, entryCount: nat)

  /** `FunnelStepData`. */
  datatype FunnelStepData = FunnelStepData(
    step: string,
    stepNumber: int,
    totalEntries: nat,
    completions: nat,
    completionRate: real,
    avgTimeSeconds: real,
    dropOffRate: real)

  /** What the counters of step `k + 1` hold once `events` have been read. */
  function TallyOf(events: seq<EventRow>, k: nat): StepTally
    requires k < StepCount
  {
    StepTally(StepNames[k], k + 1, Entries(events, k + 1), TimeOnStep(events, k + 1), TimedEntries(events, k + 1))
  }

  /**
   * Builds the five step counters, all zero, then reads every event: an
   * event at a step from 1 to 5 counts as an entry to it, and adds its time
   * when it has one. Events at any other step, or with none, are skipped.
   */
  method TallyEvents(events: seq<EventRow>) returns (steps: seq<StepTally>)
    ensures |steps| == StepCount
    ensures forall k :: 0 <= k < StepCount ==> steps[k] == TallyOf(events, k)
  {
    steps := [];
    var n := 1;
    while n <= StepCount
      invariant 1 <= n <= StepCount + 1 && |steps| == n - 1
      invariant forall k :: 0 <= k < n - 1 ==> steps[k] == TallyOf([], k)
    {
      steps := steps + [StepTally(StepNames[n - 1], n, 0, 0, 0)];
      n := n + 1;
    }
    var i := 0;
    while i < |events|
      invariant 0 <= i <= |events| && |steps| == StepCount
      invariant forall k :: 0 <= k < StepCount ==> steps[k] == TallyOf(events[..i], k)
    {
      var event := events[i];
      assert events[..i + 1][..i] == events[..i];
      if event.stepNumber != 0 && event.stepNumber <= StepCount && 1 <= event.stepNumber {
        var k := event.stepNumber - 1;
        var step := steps[k];
        step := step.(totalEntries := step.totalEntries + 1);
        if event.timeOnStepSeconds != 0 {
          step := step.(totalTime := step.totalTime + event.timeOnStepSeconds, entryCount := step.entryCount + 1);
        }
        steps := steps[k := step];
      }
      i := i + 1;
    }
    assert events[..i] == events;
  }

  /** The count the completion rate of step `k + 1` is taken against: all leads for the first step, the previous step's completions after. */
  function PreviousCount(leads: seq<LeadRow>, k: nat): nat {
    if k == 0 then |leads| else Completed(leads, k)
  }

  /** The finished row of step `k + 1`. */
  function StepRow(t: StepTally, leads: seq<LeadRow>, k: nat): FunnelStepData {
    var completed := Completed(leads, k + 1);
    var previous := PreviousCount(leads, k);
    FunnelStepData(t.step, t.stepNumber, t.totalEntries, completed,
                   Rate(completed, previous), Average(t.totalTime, t.entryCount), DropOff(completed, previous))
  }

  /**
   * The `map` over the steps: each step's completions are the leads that
   * completed at least that many steps, its rates are taken against the
   * previous step's completions (all leads for the first step), and its
   * average time is over the timed events only.
   */
  method FinishSteps(tallies: seq<StepTally>, leads: seq<LeadRow>) returns (processed: seq<FunnelStepData>)
    requires |tallies| == StepCount
    requires forall k :: 0 <= k < StepCount ==> tallies[k].stepNumber == k + 1
    ensures |processed| == StepCount
    ensures forall k :: 0 <= k < StepCount ==> processed[k] == StepRow(tallies[k], leads, k)
  {
    var previousStepCount := |leads|;
    processed := [];
    var k := 0;
    while k < StepCount
      invariant 0 <= k <= StepCount && |processed| == k
      invariant previousStepCount == PreviousCount(leads, k)
      invariant forall j :: 0 <= j < k ==> processed[j] == StepRow(tallies[j], leads, j)
    {
      var step := tallies[k];
      var completedAtStep := CountCompleted(leads, step.stepNumber);
      var completionRate := if previousStepCount > 0 then (completedAtStep as real / previousStepCount as real) * 100.0 else 0.0;
      var dropOffRate := if previousStepCount > 0 then ((previousStepCount - completedAtStep) as real / previousStepCount as real) * 100.0 else 0.0;
      var avgTime := if step.entryCount > 0 then step.totalTime as real / step.entryCount as real else 0.0;
      processed := processed + [FunnelStepData(step.step, step.stepNumber, step.totalEntries, completedAtStep,
                                               completionRate, avgTime, dropOffRate)];
      previousStepCount := completedAtStep;
      k := k + 1;
    }
  }

  /** `leadsData.filter(lead => (lead.completed_steps || 0) >= n).length`. */
  method CountCompleted(leads: seq<LeadRow>, n: int) returns (c: nat)
    ensures c == Completed(leads, n)
  {
    c := 0;
    var i := 0;
    while i < |leads|
      invariant 0 <= i <= |leads| && c == Completed(leads[..i], n)
    {
      assert leads[..i + 1][..i] == leads[..i];
      if leads[i].completedSteps >= n {
        c := c + 1;
      }
      i := i + 1;
    }
    assert leads[..i] == leads;
  }

  // ---------------------------------------------------------------------
  // Properties of the overall funnel

  /** The more steps asked for, the fewer leads completed them. */
  lemma {:induction false} CompletedMonotone(leads: seq<LeadRow>, n: int, m: int)
    requires n <= m
    ensures Completed(leads, m) <= Completed(leads, n)
  {
    if leads != [] {
      CompletedMonotone(leads[..|leads| - 1], n, m);
    }
  }

  /** Every step's entries add up to the events whose step is one of the five. */
  lemma {:induction false} EntriesPartition(events: seq<EventRow>)
    ensures Entries(events, 1) + Entries(events, 2) + Entries(events, 3) + Entries(events, 4) + Entries(events, 5)
      == InFunnel(events)
  {
    if events != [] {
      EntriesPartition(events[..|events| - 1]);
    }
  }

  /**
   * The processed funnel: step n's completions are the leads with at least
   * n completed steps, never more than the step before (nor than all
   * leads); its rates lie between 0 and 100 and add up to 100 unless the
   * previous step had no one, when both are 0; and its average time is 0
   * when no event at it carried a time.
   */
  lemma OverallFunnelShape(events: seq<EventRow>, leads: seq<LeadRow>, processed: seq<FunnelStepData>)
    requires |processed| == StepCount
    requires forall k :: 0 <= k < StepCount ==> processed[k] == StepRow(TallyOf(events, k), leads, k)
    ensures forall k :: 0 <= k < StepCount ==> processed[k].stepNumber == k + 1 && processed[k].step == StepNames[k]
    ensures forall k :: 0 <= k < StepCount ==> processed[k].completions == Completed(leads, k + 1)
    ensures processed[0].completions <= |leads|
    ensures forall k :: 1 <= k < StepCount ==> processed[k].completions <= processed[k - 1].completions
    ensures forall k :: 0 <= k < StepCount ==>
      0.0 <= processed[k].completionRate <= 100.0 && 0.0 <= processed[k].dropOffRate <= 100.0
    ensures forall k :: 0 <= k < StepCount ==>
      (PreviousCount(leads, k) > 0 ==> processed[k].completionRate + processed[k].dropOffRate == 100.0)
      && (PreviousCount(leads, k) == 0 ==> processed[k].completionRate == 0.0 && processed[k].dropOffRate == 0.0)
    ensures forall k :: 0 <= k < StepCount ==>
      (TimedEntries(events, k + 1) == 0 ==> processed[k].avgTimeSeconds == 0.0)
  {
    forall k | 0 <= k < StepCount
      ensures Completed(leads, k + 1) <= PreviousCount(leads, k)
    {
      if k > 0 {
        CompletedMonotone(leads, k, k + 1);
      }
    }
    forall k | 0 <= k < StepCount
      ensures 0.0 <= processed[k].completionRate <= 100.0 && 0.0 <= processed[k].dropOffRate <= 100.0
      ensures PreviousCount(leads, k) > 0 ==> processed[k].completionRate + processed[k].dropOffRate == 100.0
      ensures PreviousCount(leads, k) == 0 ==> processed[k].completionRate == 0.0 && processed[k].dropOffRate == 0.0
    {
      RatesComplement(Completed(leads, k + 1), PreviousCount(leads, k));
    }
  }

  // ---------------------------------------------------------------------
  // The funnels by purchase method

  /** The purchase methods the report breaks down, in order. */
  const Modalities: seq<string> := ["site-oficial", "pagar-entrega"]

  /** The heading of a purchase method's funnel. */
  function ModalityLabel(mod: string): string {
    if mod == "site-oficial" then "Site Oficial" else "Pagar na Entrega"
  }

  /** `lead.modalidade_compra || 'unknown'`. */
  function ModalityOf(lead: LeadRow): string {
    if lead.modalidadeCompra == "" then "unknown" else lead.modalidadeCompra
  }

  /** The leads of one purchase method, in order. */
  function OfModality(leads: seq<LeadRow>, mod: string): (r: seq<LeadRow>)
    ensures |r| <= |leads|
    ensures forall l :: l in r <==> l in leads && ModalityOf(l) == mod
  {
    if leads == [] then []
    else
      var last := leads[|leads| - 1];
      OfModality(leads[..|leads| - 1], mod) + (if ModalityOf(last) == mod then [last] else [])
  }

  /** A purchase method's counters while the leads are read. */
  datatype ModalityTally = ModalityTally(
    modalidade: string,
    totalLeads: nat,
    conversions: nat,
    totalTime: int,
    steps: seq<FunnelStepData>)

  /** `ModalityFunnelData`. */
  datatype ModalityFunnelData = ModalityFunnelData(
    modalidade: string,
    totalLeads: nat,
    conversions: nat,
    conversionRate: real,
    avgFunnelTime: real,
    steps: seq<FunnelStepData>)

  /**
   * Step `k + 1` of a purchase method's funnel once its leads `sub` have
   * been read: every step counts all of them as entries, its completions
   * are those that completed at least `k + 1` steps, and the rate is taken
   * against all of them. Time and drop-off stay 0.
   */
  function ModalityStep(sub: seq<LeadRow>, k: nat): FunnelStepData
    requires k < StepCount
  {
    var completed := Completed(sub, k + 1);
    FunnelStepData(StepNames[k], k + 1, |sub|, completed, Rate(completed, |sub|), 0.0, 0.0)
  }

  /** The counters of one purchase method once `leads` have been read. */
  predicate TalliedAs(t: ModalityTally, leads: seq<LeadRow>, mod: string) {
    var sub := OfModality(leads, mod);
    t.modalidade == ModalityLabel(mod) && t.totalLeads == |sub| && t.conversions == Conversions(sub)
    && t.totalTime == TotalTime(sub) && |t.steps| == StepCount
    && forall k :: 0 <= k < StepCount ==> t.steps[k] == ModalityStep(sub, k)
  }

  /**
   * Step `k + 1` after one more lead with `completedSteps` steps: a
   * completion more if the lead reached it, and the new lead count as its
   * entries and rate base.
   */
  function StepAfterLead(step: FunnelStepData, completedSteps: int, totalLeads: nat, k: nat): FunnelStepData {
    var completions := step.completions + (if completedSteps >= k + 1 then 1 else 0);
    step.(completions := completions, totalEntries := totalLeads, completionRate := Rate(completions, totalLeads))
  }

  /**
   * The `forEach` over a method's steps for one more lead with
   * `completedSteps` steps: a step it reached gains a completion, and every
   * step takes the new lead count as its entries and rate base.
   */
  method CountLeadSteps(steps: seq<FunnelStepData>, completedSteps: int, totalLeads: nat) returns (updated: seq<FunnelStepData>)
    requires |steps| == StepCount
    ensures |updated| == StepCount
    ensures forall k :: 0 <= k < StepCount ==> updated[k] == StepAfterLead(steps[k], completedSteps, totalLeads, k)
  {
    updated := steps;
    var k := 0;
    while k < StepCount
      invariant 0 <= k <= StepCount && |updated| == StepCount
      invariant forall j :: k <= j < StepCount ==> updated[j] == steps[j]
      invariant forall j :: 0 <= j < k ==> updated[j] == StepAfterLead(steps[j], completedSteps, totalLeads, j)
    {
      var step := updated[k];
      if completedSteps >= k + 1 {
        step := step.(completions := step.completions + 1);
      }
      step := step.(totalEntries := totalLeads);
      step := step.(completionRate := if step.totalEntries > 0 then (step.completions as real / step.totalEntries as real) * 100.0 else 0.0);
      updated := updated[k := step];
      k := k + 1;
    }
  }

  /** A purchase method's counters before any lead is read. */
  function EmptyTally(mod: string): (t: ModalityTally)
    ensures TalliedAs(t, [], mod)
  {
    ModalityTally(ModalityLabel(mod), 0, 0, 0,
                  seq(StepCount, k requires 0 <= k < StepCount => FunnelStepData(StepNames[k], k + 1, 0, 0, 0.0, 0.0, 0.0)))
  }

  /** One more lead moves each step of its method's funnel as `CountLeadSteps` does. */
  lemma ModalityStepSnoc(sub: seq<LeadRow>, lead: LeadRow, k: nat)
    requires k < StepCount
    ensures ModalityStep(sub + [lead], k) == StepAfterLead(ModalityStep(sub, k), lead.completedSteps, |sub| + 1, k)
  {
    assert (sub + [lead])[..|sub|] == sub;
  }

  lemma OfModalitySnoc(leads: seq<LeadRow>, mod: string, lead: LeadRow)
    ensures OfModality(leads + [lead], mod) == if ModalityOf(lead) == mod then OfModality(leads, mod) + [lead] else OfModality(leads, mod)
  {
    assert (leads + [lead])[..|leads|] == leads;
  }

  /** The counters of a method after one more of its leads, given its steps moved by `StepAfterLead`. */
  lemma AddLeadSound(t: ModalityTally, leads: seq<LeadRow>, mod: string, lead: LeadRow, steps: seq<FunnelStepData>)
    requires TalliedAs(t, leads, mod) && ModalityOf(lead) == mod
    requires |steps| == StepCount
    requires forall k :: 0 <= k < StepCount ==> steps[k] == StepAfterLead(t.steps[k], lead.completedSteps, t.totalLeads + 1, k)
    ensures TalliedAs(ModalityTally(t.modalidade, t.totalLeads + 1,
                                    t.conversions + (if lead.aceiteFinal then 1 else 0),
                                    t.totalTime + lead.totalTimeSeconds, steps), leads + [lead], mod)
  {
    var sub := OfModality(leads, mod);
    OfModalitySnoc(leads, mod, lead);
    RowsSnoc(sub, lead);
    StepsSnoc(t.steps, sub, lead, steps);
  }

  /** Each step moved by `StepAfterLead` is the step of the method's leads with one more. */
  lemma StepsSnoc(before: seq<FunnelStepData>, sub: seq<LeadRow>, lead: LeadRow, steps: seq<FunnelStepData>)
    requires |before| == StepCount && |steps| == StepCount
    requires forall k :: 0 <= k < StepCount ==> before[k] == ModalityStep(sub, k)
    requires forall k :: 0 <= k < StepCount ==> steps[k] == StepAfterLead(before[k], lead.completedSteps, |sub| + 1, k)
    ensures forall k :: 0 <= k < StepCount ==> steps[k] == ModalityStep(sub + [lead], k)
  {
    forall k | 0 <= k < StepCount
      ensures steps[k] == ModalityStep(sub + [lead], k)
    {
      ModalityStepSnoc(sub, lead, k);
    }
  }

  /** Reading one more lead of the method brings the counters up to date. */
  method AddLead(t: ModalityTally, ghost leads: seq<LeadRow>, mod: string, lead: LeadRow) returns (t': ModalityTally)
    requires TalliedAs(t, leads, mod) && ModalityOf(lead) == mod
    ensures TalliedAs(t', leads + [lead], mod)
  {
    var totalLeads := t.totalLeads + 1;
    var conversions := if lead.aceiteFinal then t.conversions + 1 else t.conversions;
    var totalTime := if lead.totalTimeSeconds != 0 then t.totalTime + lead.totalTimeSeconds else t.totalTime;
    var steps := CountLeadSteps(t.steps, lead.completedSteps, totalLeads);
    t' := ModalityTally(t.modalidade, totalLeads, conversions, totalTime, steps);
    AddLeadSound(t, leads, mod, lead, steps);
  }

  /** Reading a lead of another method leaves the counters as they are. */
  lemma OtherLeadIgnored(t: ModalityTally, leads: seq<LeadRow>, mod: string, lead: LeadRow)
    requires TalliedAs(t, leads, mod) && ModalityOf(lead) != mod
    ensures TalliedAs(t, leads + [lead], mod)
  {
    OfModalitySnoc(leads, mod, lead);
  }

  /**
   * The loop over the leads: a lead whose purchase method is one of the two
   * is counted in that method's funnel; every other lead, including one
   * without a method, is ignored.
   */
  method TallyModalities(leads: seq<LeadRow>) returns (tallies: seq<ModalityTally>)
    ensures |tallies| == |Modalities|
    ensures forall m :: 0 <= m < |Modalities| ==> TalliedAs(tallies[m], leads, Modalities[m])
  {
    tallies := [EmptyTally(Modalities[0]), EmptyTally(Modalities[1])];
    var i := 0;
    while i < |leads|
      invariant 0 <= i <= |leads|
      invariant TalliedBoth(tallies, leads[..i])
    {
      assert leads[..i + 1] == leads[..i] + [leads[i]];
      tallies := TallyLead(tallies, leads[..i], leads[i]);
      i := i + 1;
    }
    assert leads[..i] == leads;
    assert TalliedBoth(tallies, leads);
    forall m | 0 <= m < |Modalities|
      ensures TalliedAs(tallies[m], leads, Modalities[m])
    {
      assert m == 0 || m == 1;
    }
  }

  /** The counters of both purchase methods once `leads` have been read. */
  predicate TalliedBoth(tallies: seq<ModalityTally>, leads: seq<LeadRow>) {
    |tallies| == |Modalities|
    && TalliedAs(tallies[0], leads, Modalities[0]) && TalliedAs(tallies[1], leads, Modalities[1])
  }

  /** One iteration: the lead goes to the funnel of its purchase method, if it is one of the two. */
  method TallyLead(tallies: seq<ModalityTally>, ghost done: seq<LeadRow>, lead: LeadRow) returns (tallies': seq<ModalityTally>)
    requires TalliedBoth(tallies, done)
    ensures TalliedBoth(tallies', done + [lead])
  {
    var modality := ModalityOf(lead);
    if modality == Modalities[0] {
      assert modality != Modalities[1] by {
        assert Modalities[0][0] == 's' && Modalities[1][0] == 'p';
      }
      var t := AddLead(tallies[0], done, Modalities[0], lead);
      OtherLeadIgnored(tallies[1], done, Modalities[1], lead);
      tallies' := [t, tallies[1]];
    } else if modality == Modalities[1] {
      var t := AddLead(tallies[1], done, Modalities[1], lead);
      OtherLeadIgnored(tallies[0], done, Modalities[0], lead);
      tallies' := [tallies[0], t];
    } else {
      OtherLeadIgnored(tallies[0], done, Modalities[0], lead);
      OtherLeadIgnored(tallies[1], done, Modalities[1], lead);
      tallies' := tallies;
    }
  }

  /** The finished funnel of one purchase method: its conversion rate and average time. */
  function FinishModality(t: ModalityTally): ModalityFunnelData {
    ModalityFunnelData(t.modalidade, t.totalLeads, t.conversions,
                       Rate(t.conversions, t.totalLeads), Average(t.totalTime, t.totalLeads), t.steps)
  }

  /**
   * In each purchase method's funnel: the conversions are at most its
   * leads, each step's entries are exactly its leads, its completions never
   * grow from one step to the next, and its rates lie between 0 and 100.
   * Leads of other methods, or with none, are in neither funnel, so the two
   * funnels hold at most all the leads between them.
   */
  lemma ModalityFunnelShape(leads: seq<LeadRow>, tallies: seq<ModalityTally>)
    requires |tallies| == |Modalities|
    requires forall m :: 0 <= m < |Modalities| ==> TalliedAs(tallies[m], leads, Modalities[m])
    ensures forall m :: 0 <= m < |Modalities| ==>
      var f := FinishModality(tallies[m]);
      f.conversions <= f.totalLeads && 0.0 <= f.conversionRate <= 100.0
      && |f.steps| == StepCount
      && (forall k :: 0 <= k < StepCount ==> f.steps[k].totalEntries == f.totalLeads)
      && (forall k :: 1 <= k < StepCount ==> f.steps[k].completions <= f.steps[k - 1].completions)
      && (forall k :: 0 <= k < StepCount ==> 0.0 <= f.steps[k].completionRate <= 100.0)
    ensures tallies[0].totalLeads + tallies[1].totalLeads <= |leads|
  {
    forall m, k | 0 <= m < |Modalities| && 0 <= k < StepCount
      ensures tallies[m].steps[k].completions <= tallies[m].totalLeads
      ensures 1 <= k ==> tallies[m].steps[k].completions <= tallies[m].steps[k - 1].completions
      ensures 0.0 <= tallies[m].steps[k].completionRate <= 100.0
    {
      var sub := OfModality(leads, Modalities[m]);
      if 1 <= k {
        CompletedMonotone(sub, k, k + 1);
      }
      RatesComplement(Completed(sub, k + 1), |sub|);
    }
    forall m | 0 <= m < |Modalities|
      ensures 0.0 <= Rate(tallies[m].conversions, tallies[m].totalLeads) <= 100.0
    {
      RatesComplement(tallies[m].conversions, tallies[m].totalLeads);
    }
    TwoModalitiesBound(leads);
  }

  /** Between them the two methods' leads are at most all the leads. */
  lemma {:induction false} TwoModalitiesBound(leads: seq<LeadRow>)
    ensures |OfModality(leads, Modalities[0])| + |OfModality(leads, Modalities[1])| <= |leads|
  {
    if leads != [] {
      TwoModalitiesBound(leads[..|leads| - 1]);
    }
  }

  /**
   * The wizard records the official-site purchase as 'site-sedex', which is
   * not one of the two methods this report knows: such a lead is counted
   * in neither method's funnel.
   */
  lemma SiteSedexLeadsIgnored(leads: seq<LeadRow>, lead: LeadRow)
    requires lead.modalidadeCompra == "site-sedex"
    ensures forall m :: 0 <= m < |Modalities| ==> OfModality(leads + [lead], Modalities[m]) == OfModality(leads, Modalities[m])
  {
    assert (leads + [lead])[..|leads|] == leads;
    assert "site-sedex"[5] != "site-oficial"[5];
  }

  // ---------------------------------------------------------------------
  // The whole report

  datatype FunnelReport = FunnelReport(overallFunnel: seq<FunnelStepData>, modalityFunnels: seq<ModalityFunnelData>)

  /**
   * `queryFn`'s processing of the two query results: the overall funnel
   * and one funnel per purchase method, in the order site, delivery.
   */
  method FunnelAnalyticsReport(funnelEvents: seq<EventRow>, leadsData: seq<LeadRow>) returns (r: FunnelReport)
    ensures |r.overallFunnel| == StepCount
    ensures forall k :: 0 <= k < StepCount ==> r.overallFunnel[k] == StepRow(TallyOf(funnelEvents, k), leadsData, k)
    ensures |r.modalityFunnels| == |Modalities|
    ensures forall m :: 0 <= m < |Modalities| ==>
      r.modalityFunnels[m].modalidade == ModalityLabel(Modalities[m])
      && r.modalityFunnels[m].totalLeads == |OfModality(leadsData, Modalities[m])|
      && r.modalityFunnels[m].conversions == Conversions(OfModality(leadsData, Modalities[m]))
      && r.modalityFunnels[m].conversionRate == Rate(r.modalityFunnels[m].conversions, r.modalityFunnels[m].totalLeads)
      && r.modalityFunnels[m].avgFunnelTime == Average(TotalTime(OfModality(leadsData, Modalities[m])), r.modalityFunnels[m].totalLeads)
      && |r.modalityFunnels[m].steps| == StepCount
      && forall k :: 0 <= k < StepCount ==> r.modalityFunnels[m].steps[k] == ModalityStep(OfModality(leadsData, Modalities[m]), k)
  {
    var tallies := TallyEvents(funnelEvents);
    var overall := FinishSteps(tallies, leadsData);
    var byModality := TallyModalities(leadsData);
    r := FunnelReport(overall, [FinishModality(byModality[0]), FinishModality(byModality[1])]);
  }
}
