/**
 * The campaign table: one row per campaign, with the average time as
 * minutes and seconds and a badge for the conversion rate.
 */
module UtmTable {
  import opened Text
  import CampaignAnalytics

  /** `Math.trunc`: rounding toward zero. */
  function Trunc(x: real): int {
    if x >= 0.0 then x.Floor else -((-x).Floor)
  }

  /** JavaScript's `%` on numbers: the remainder takes the sign of the dividend. */
  function JsRem(x: real, d: real): real
    requires d != 0.0
  {
    x - d * (Trunc(x / d) as real)
  }

  /** `formatTime`: `${Math.floor(s / 60)}:${Math.floor(s % 60)}` with the seconds padded to two digits. */
  function FormatTime(seconds: real): string {
    var minutes := (seconds / 60.0).Floor;
    var remainingSeconds := JsRem(seconds, 60.0).Floor;
    IntToString(minutes) + ":" + PadStartZero(IntToString(remainingSeconds), 2)
  }

  lemma TwoDigits(n: nat)
    requires n < 100
    ensures |PadStartZero(NatToString(n), 2)| == 2
  {
    if n >= 10 {
      assert NatToString(n) == NatToString(n / 10) + [DigitChar(n % 10)];
    }
  }

  lemma FloorSplit(seconds: real)
    requires seconds >= 0.0
    ensures (seconds / 60.0).Floor == seconds.Floor / 60
    ensures JsRem(seconds, 60.0).Floor == seconds.Floor % 60
  {
    var f := seconds.Floor;
    var q, r := f / 60, f % 60;
    assert f == 60 * q + r && 0 <= r < 60;
    assert (q as real) * 60.0 <= seconds < (q as real) * 60.0 + 60.0;
    assert q as real <= seconds / 60.0 < q as real + 1.0;
    assert Trunc(seconds / 60.0) == q;
    assert JsRem(seconds, 60.0) == seconds - 60.0 * (q as real);
    assert r as real <= seconds - 60.0 * (q as real) < r as real + 1.0;
  }

  /**
   * For a time of `seconds` >= 0 the text is the whole minutes, a colon,
   * and the remaining whole seconds (under 60) as two digits.
   */
  lemma FormatTimeShape(seconds: real)
    requires seconds >= 0.0
    ensures var m, s := seconds.Floor / 60, seconds.Floor % 60;
      0 <= s < 60 && m * 60 + s == seconds.Floor
      && FormatTime(seconds) == NatToString(m) + ":" + PadStartZero(NatToString(s), 2)
      && |PadStartZero(NatToString(s), 2)| == 2
  {
    FloorSplit(seconds);
    TwoDigits(seconds.Floor % 60);
  }

  datatype RateBadge = RateBadge(variant: string, text: string)

  /** `getConversionRateBadge`. */
  function ConversionRateBadge(rate: real): RateBadge {
    if rate >= 20.0 then RateBadge("default", "Excelente")
    else if rate >= 10.0 then RateBadge("secondary", "Bom")
    else if rate >= 5.0 then RateBadge("outline", "Regular")
    else RateBadge("destructive", "Baixo")
  }

  /** The order of the badge labels, worst first. */
  function Rank(b: RateBadge): nat {
    match b.text
    case "Excelente" => 3
    case "Bom" => 2
    case "Regular" => 1
    case _ => 0
  }

  /** The four tiers, each a half-open band of rates. */
  lemma BadgeTiers(rate: real)
    ensures ConversionRateBadge(rate).text == "Excelente" <==> rate >= 20.0
    ensures ConversionRateBadge(rate).text == "Bom" <==> 10.0 <= rate < 20.0
    ensures ConversionRateBadge(rate).text == "Regular" <==> 5.0 <= rate < 10.0
    ensures ConversionRateBadge(rate).text == "Baixo" <==> rate < 5.0
  {
  }

  /** A higher rate never gets a worse badge. */
  lemma BadgeMonotone(low: real, high: real)
    requires low <= high
    ensures Rank(ConversionRateBadge(low)) <= Rank(ConversionRateBadge(high))
  {
  }

  /** A row of the table. */
  datatype UtmRow = UtmRow(
    source: string,
    campaign: string,
    content: string,
    term: string,
    leads: nat,
    conversions: nat,
    rate: real,
    avgTime: string,
    badge: RateBadge)

  function RowOf(c: CampaignAnalytics.CampaignData): UtmRow {
    UtmRow(c.utmSource, c.utmCampaign, c.utmContent, c.utmTerm, c.totalLeads, c.conversions,
           c.conversionRate, FormatTime(c.avgTimeSeconds), ConversionRateBadge(c.conversionRate))
  }

  /** The table body: `data.map(...)`. */
  function Rows(data: seq<CampaignAnalytics.CampaignData>): (rows: seq<UtmRow>)
    ensures |rows| == |data|
    ensures forall i :: 0 <= i < |data| ==> rows[i] == RowOf(data[i])
  {
    if data == [] then [] else [RowOf(data[0])] + Rows(data[1..])
  }
}
