/**
 * The browser's `localStorage` and `sessionStorage`, as two maps from key
 * to what is stored under it. A JSON document is stored as the typed value
 * it encodes, so that `JSON.parse(JSON.stringify(x))` is `x`; a clock
 * reading stored with `toString` is kept as its number.
 */
module Storage {
  import opened TrackingTypes

  datatype Stored =
    | Plain(text: string)
    | Millis(ms: int)
    | TrackingJson(data: TrackingData)
    | EventsJson(events: seq<FunnelEvent>)
    | UtmsJson(utms: UTMParams)
    | RedirectJson(partial: PartialUtms)
    | RecordJson(record: UtmRecord)
    | FieldsJson(fields: Fields)
    /** Text that `JSON.parse` rejects. */
    | Malformed

  /** Both storage areas of one browser tab. */
  class Browser {
    var local: map<string, Stored>
    var session: map<string, Stored>

    constructor (local: map<string, Stored>, session: map<string, Stored>)
      ensures this.local == local && this.session == session
    {
      this.local := local;
      this.session := session;
    }
  }
}
