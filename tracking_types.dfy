/**
 * The records the attribution code passes around and stores: the
 * first-touch UTM set, the tracking record built on the first visit, the
 * funnel events appended at each step, and the nullable UTM record of the
 * second tracker. Form data, which the source passes as untyped objects,
 * is a map from field name to text; an absent key is an absent field.
 */
module TrackingTypes {
  import opened Text

  /** A form record: field name to value. */
  type Fields = map<string, string>

  /** `obj.key || ''` on a form record: the value, or '' when absent. */
  function FieldOr(f: Fields, key: string): (v: string)
    ensures key in f ==> v == f[key]
    ensures key !in f ==> v == ""
  {
    if key in f then f[key] else ""
  }

  /** Whether a field of a form record is truthy: present and non-empty. */
  predicate Filled(f: Fields, key: string) {
    key in f && f[key] != ""
  }

  /** The seven attribution fields of `UTMParams`; '' when unknown. */
  datatype UTMParams = UTMParams(
    utmSource: string,
    utmMedium: string,
    utmCampaign: string,
    utmContent: string,
    utmTerm: string,
    fbclid: string,
    fbSource: string)

  /** `Partial<UTMParams>`: the keys an object actually carries. */
  datatype PartialUtms = PartialUtms(
    utmSource: Option<string>,
    utmMedium: Option<string>,
    utmCampaign: Option<string>,
    utmContent: Option<string>,
    utmTerm: Option<string>,
    fbclid: Option<string>,
    fbSource: Option<string>)

  /** `TrackingData`: the UTM set plus what was known on arrival. */
  datatype TrackingData = TrackingData(
    utms: UTMParams,
    timestampAcesso: string,
    userAgent: string,
    referrer: string,
    pageUrl: string,
    sessionId: string)

  /** What an event carries as `form_data`. */
  datatype Payload =
    | NoPayload
    | FormPayload(fields: Fields)
    /** The submitted form with the `utm_tracking` block added. */
    | Enriched(form: Fields, utmTracking: UTMParams)
    /** The redirect record: the target URL and the enriched form. */
    | RedirectPayload(redirectUrl: string, finalData: Payload)
    /** A backward move or an edit: the two steps, the reason or edited field, and when. */
    | Navigation(fromStep: int, toStep: int, detail: string, timestamp: string)

  /** `FunnelEvent`: the event name, when, at which step, with which UTMs and data. */
  datatype FunnelEvent = FunnelEvent(
    event: string,
    timestamp: string,
    step: int,
    utmData: UTMParams,
    formData: Payload,
    timeOnStep: int)

  /** The second tracker's record: every field may be null. */
  datatype UtmRecord = UtmRecord(
    utmSource: Option<string>,
    utmMedium: Option<string>,
    utmCampaign: Option<string>,
    utmContent: Option<string>,
    utmTerm: Option<string>,
    fbclid: Option<string>,
    fbCampaignId: Option<string>,
    fbAdId: Option<string>,
    fbAdsetId: Option<string>)
}
