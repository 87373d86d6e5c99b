/**
 * The live-activity card: a badge for the data source, the time since the
 * last activity, the per-step counts in step order, the recent leads and
 * the per-purchase-method counts.
 */
module RealtimeActivityCard {
  import opened Text
  import opened Tally
  import Sorting
  import FunnelStepsLive

  /**
   * `Math.floor((now - eventTime) / 1000)`, the whole seconds elapsed
   * (times in milliseconds; Dafny's division by a positive divisor rounds
   * down, as `Math.floor` does).
   */
  function ElapsedSeconds(now: int, eventTime: int): (d: int)
    ensures d * 1000 <= now - eventTime < d * 1000 + 1000
  {
    (now - eventTime) / 1000
  }

  /** `formatTimeAgo`, with the clock reading as a parameter. */
  function FormatTimeAgo(now: int, eventTime: int): string {
    var diff := ElapsedSeconds(now, eventTime);
    if diff < 60 then IntToString(diff) + "s atrás"
    else if diff < 3600 then NatToString(diff / 60) + "min atrás"
    else NatToString(diff / 3600) + "h atrás"
  }

  /**
   * Under a minute the seconds are shown; under an hour the whole minutes,
   * 1 to 59; from an hour on the whole hours, at least 1.
   */
  lemma TimeAgoUnits(now: int, eventTime: int)
    ensures var d := ElapsedSeconds(now, eventTime);
      (d < 60 ==> FormatTimeAgo(now, eventTime) == IntToString(d) + "s atrás")
      && (60 <= d < 3600 ==> 1 <= d / 60 < 60 && FormatTimeAgo(now, eventTime) == NatToString(d / 60) + "min atrás")
      && (3600 <= d ==> 1 <= d / 3600 && FormatTimeAgo(now, eventTime) == NatToString(d / 3600) + "h atrás")
  {
  }

  /** `getStepName`: the wizard's step names, and "Etapa n" for any other number. */
  function GetStepName(stepNumber: int): string {
    match stepNumber
    case 1 => "Modalidade"
    case 2 => "Dados Pessoais"
    case 3 => "Tratamento"
    case 4 => "Agendamento"
    case 5 => "Revisão"
    case _ => "Etapa " + IntToString(stepNumber)
  }

  /** The card names steps 1 to 5 as the live funnel card does, and every other step by its number. */
  lemma StepNamesAgree(stepNumber: int)
    ensures 1 <= stepNumber <= 5 ==> GetStepName(stepNumber) == FunnelStepsLive.Steps[stepNumber - 1].name
    ensures 1 <= stepNumber <= 5 ==> FunnelStepsLive.Steps[stepNumber - 1].number == stepNumber
    ensures !(1 <= stepNumber <= 5) ==> GetStepName(stepNumber) == "Etapa " + IntToString(stepNumber)
  {
  }

  /** `getModalityDisplay`. */
  function GetModalityDisplay(modality: string): string {
    if modality == "site-sedex" then "Site Oficial"
    else if modality == "pagar-entrega" then "Pagar na Entrega"
    else modality
  }

  /** The wizard's two purchase methods get display names; every other value is shown as stored. */
  lemma ModalityDisplayCases(modality: string)
    ensures GetModalityDisplay("site-sedex") == "Site Oficial"
    ensures GetModalityDisplay("pagar-entrega") == "Pagar na Entrega"
    ensures modality != "site-sedex" && modality != "pagar-entrega" ==> GetModalityDisplay(modality) == modality
    ensures GetModalityDisplay(modality) != modality <==> modality == "site-sedex" || modality == "pagar-entrega"
  {
  }

  datatype HeaderBadge = HeaderBadge(variant: string, text: string)

  /** The header badge: historical data, else live, else offline. */
  function SourceBadge(isUsingFallback: bool, isConnected: bool): HeaderBadge {
    if isUsingFallback then HeaderBadge("outline", "Dados Históricos (24h)")
    else if isConnected then HeaderBadge("default", "🔴 AO VIVO")
    else HeaderBadge("secondary", "⚪ OFFLINE")
  }

  /** Fallback data is announced whatever the connection; otherwise the badge follows the connection. */
  lemma FallbackBadgeFirst(isUsingFallback: bool, isConnected: bool)
    ensures isUsingFallback ==> SourceBadge(isUsingFallback, isConnected) == SourceBadge(true, !isConnected)
    ensures SourceBadge(isUsingFallback, isConnected).text == "🔴 AO VIVO" <==> !isUsingFallback && isConnected
    ensures SourceBadge(isUsingFallback, isConnected).text == "⚪ OFFLINE" <==> !isUsingFallback && !isConnected
  {
  }

  /** An entry of `usersByStep.entries()`. */
  datatype StepEntry = StepEntry(step: int, count: nat)

  function Entries(usersByStep: Counts<int>): (es: seq<StepEntry>)
    requires |usersByStep.counts| == |usersByStep.keys|
    ensures |es| == |usersByStep.keys|
    ensures forall j :: 0 <= j < |es| ==> es[j] == StepEntry(usersByStep.keys[j], usersByStep.counts[j])
  {
    seq(|usersByStep.keys|, j requires 0 <= j < |usersByStep.keys| => StepEntry(usersByStep.keys[j], usersByStep.counts[j]))
  }

  /** `([a], [b]) => a - b`. */
  function StepCmp(a: StepEntry, b: StepEntry): int {
    a.step - b.step
  }

  /** The per-step rows, sorted by step. */
  function StepRows(usersByStep: Counts<int>): seq<StepEntry>
    requires |usersByStep.counts| == |usersByStep.keys|
  {
    Sorting.SortBy(Entries(usersByStep), StepCmp)
  }

  /** The per-step rows are the map's entries, each once, in ascending step order. */
  lemma StepRowsAscending(usersByStep: Counts<int>)
    requires |usersByStep.counts| == |usersByStep.keys|
    ensures multiset(StepRows(usersByStep)) == multiset(Entries(usersByStep))
    ensures forall i, j :: 0 <= i < j < |StepRows(usersByStep)| ==> StepRows(usersByStep)[i].step <= StepRows(usersByStep)[j].step
  {
    var es := Entries(usersByStep);
    Sorting.SortByPermutation(es, StepCmp);
    assert Sorting.TotalPreorder(StepCmp, es);
    Sorting.SortBySorted(es, StepCmp);
    var rows := StepRows(usersByStep);
    forall i, j | 0 <= i < j < |rows|
      ensures rows[i].step <= rows[j].step
    {
      assert StepCmp(rows[i], rows[j]) <= 0;
    }
  }
}
