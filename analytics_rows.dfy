/**
 * The rows the dashboard's analytics hooks read from the `leads` and
 * `funnel_events` tables, already fetched for the chosen date range.
 *
 * Every nullable column is represented by the value that behaves like null
 * under the hooks' tests: "" for text, 0 for numbers and false for
 * booleans. The hooks only ever test these columns for truthiness
 * (`lead.utm_source || 'Direct'`, `if (lead.aceite_final)`,
 * `lead.completed_steps || 0`) or compare them with non-empty literals,
 * and under those tests null and the stand-in agree.
 */
module AnalyticsRows {

  /** A `leads` row, with the columns the analytics hooks select. */
  datatype LeadRow = LeadRow(
    modalidadeCompra: string,
    aceiteFinal: bool,
    totalTimeSeconds: int,
    completedSteps: int,
    utmSource: string,
    utmCampaign: string,
    utmContent: string,
    utmTerm: string,
    /** `new Date(created_at).toISOString().split('T')[0]`: the UTC day, "YYYY-MM-DD". */
    createdDay: string)

  /**
   * A `funnel_events` row joined with its lead's purchase method.
   * `timestamp` is the event time in milliseconds.
   */
  datatype EventRow = EventRow(
    leadId: string,
    stepNumber: int,
    eventType: string,
    timeOnStepSeconds: int,
    timestamp: int,
    modalidadeCompra: string)

  // ---------------------------------------------------------------------
  // Counts and ratios shared by the reports

  /** `part / whole * 100`, and 0 when there is no whole. */
  function Rate(part: int, whole: int): real {
    if whole > 0 then (part as real / whole as real) * 100.0 else 0.0
  }

  /** `(whole - part) / whole * 100`, and 0 when there is no whole. */
  function DropOff(part: int, whole: int): real {
    if whole > 0 then ((whole - part) as real / whole as real) * 100.0 else 0.0
  }

  /** `total / count`, and 0 when nothing was counted. */
  function Average(total: int, count: int): real {
    if count > 0 then total as real / count as real else 0.0
  }

  /** The leads that accepted the final terms. */
  function Conversions(leads: seq<LeadRow>): (c: nat)
    ensures c <= |leads|
  {
    if leads == [] then 0
    else Conversions(leads[..|leads| - 1]) + (if leads[|leads| - 1].aceiteFinal then 1 else 0)
  }

  /** The total funnel time of the leads that have one. */
  function TotalTime(leads: seq<LeadRow>): int {
    if leads == [] then 0
    else TotalTime(leads[..|leads| - 1]) + leads[|leads| - 1].totalTimeSeconds
  }

  /** One more row adds its own conversion and time. */
  lemma RowsSnoc(m: seq<LeadRow>, x: LeadRow)
    ensures Conversions(m + [x]) == Conversions(m) + (if x.aceiteFinal then 1 else 0)
    ensures TotalTime(m + [x]) == TotalTime(m) + x.totalTimeSeconds
  {
    assert (m + [x])[..|m|] == m;
  }

  /**
   * Against a non-zero count, completion and drop-off add up to 100;
   * against zero both are 0; and a part no larger than the whole gives a
   * rate between 0 and 100.
   */
  lemma RatesComplement(part: nat, whole: nat)
    ensures whole > 0 ==> Rate(part, whole) + DropOff(part, whole) == 100.0
    ensures whole == 0 ==> Rate(part, whole) == 0.0 && DropOff(part, whole) == 0.0
    ensures part <= whole ==> 0.0 <= Rate(part, whole) <= 100.0 && 0.0 <= DropOff(part, whole) <= 100.0
  {
    if whole > 0 {
      var p, w := part as real, whole as real;
      assert p / w + (w - p) / w == 1.0;
      if part <= whole {
        assert p / w <= 1.0;
        assert (w - p) / w <= 1.0;
      }
    }
  }
}
