/**
 * The second attribution tracker: the raw UTM parameters of the landing
 * URL with Facebook campaign, ad set and ad ids pulled out of names of the
 * form `name_123`, a per-browser session id, and the record kept in
 * `localStorage` under 'utm_data'.
 */
module UtmTracker {
  import opened Text
  import opened TrackingTypes
  import opened Storage
  import opened UrlParams

  const SessionIdKey: string := "tracking_session_id"
  const UtmDataKey: string := "utm_data"
  const CapturedAtKey: string := "utm_captured_at"

  /** The length of the longest all-digit suffix of `s`. */
  function DigitSuffixLen(s: string): (n: nat)
    ensures n <= |s|
    ensures AllDigits(s[|s| - n..])
    ensures n < |s| ==> !IsDigit(s[|s| - n - 1])
  {
    if s == [] || !IsDigit(s[|s| - 1]) then 0
    else
      var front := s[..|s| - 1];
      var m := DigitSuffixLen(front);
      assert s[|s| - (m + 1)..] == front[|front| - m..] + [s[|s| - 1]];
      m + 1
  }

  /** `_(\d+)$` matches with `id` as its group: `s` ends in '_' followed by the digits `id`. */
  predicate IdSuffix(s: string, id: string) {
    |id| >= 1 && AllDigits(id) && |id| < |s| && s[|s| - |id| - 1] == '_' && s[|s| - |id|..] == id
  }

  /** `extractIdFromString(str, /_(\d+)$/)`: null for a falsy string or no match. */
  function ExtractIdFromString(s: Option<string>): Option<string> {
    if s.None? || s.value == "" then None
    else
      var str := s.value;
      var n := DigitSuffixLen(str);
      var k := |str| - n;
      if n >= 1 && k >= 1 && str[k - 1] == '_' then Some(str[k..]) else None
  }

  /** A digit suffix that is preceded by a non-digit is the longest one. */
  lemma {:induction false} DigitSuffixLenExact(s: string, m: nat)
    requires m <= |s| && AllDigits(s[|s| - m..])
    requires m < |s| ==> !IsDigit(s[|s| - m - 1])
    ensures DigitSuffixLen(s) == m
  {
    if m > 0 {
      var front := s[..|s| - 1];
      assert IsDigit(s[|s| - 1]) by {
        assert s[|s| - m..][m - 1] == s[|s| - 1];
      }
      assert front[|front| - (m - 1)..] == s[|s| - m..][..m - 1];
      if m - 1 < |front| {
        assert front[|front| - (m - 1) - 1] == s[|s| - m - 1];
      }
      DigitSuffixLenExact(front, m - 1);
    }
  }

  /**
   * The id extracted is exactly the digit run after a final '_': the
   * function returns `id` iff the string ends in '_' followed by `id`,
   * a non-empty run of digits.
   */
  lemma ExtractIdCharacterised(s: Option<string>, id: string)
    ensures ExtractIdFromString(s) == Some(id) <==> s.Some? && IdSuffix(s.value, id)
  {
    if s.Some? && IdSuffix(s.value, id) {
      DigitSuffixLenExact(s.value, |id|);
    }
  }

  /** A string with no trailing digit run after '_' (or no string at all) yields null. */
  lemma ExtractIdNone(s: Option<string>)
    ensures ExtractIdFromString(s).None? <==> s.None? || forall id :: !IdSuffix(s.value, id)
  {
    if s.Some? && ExtractIdFromString(s).Some? {
      ExtractIdCharacterised(s, ExtractIdFromString(s).value);
    }
    if s.Some? && ExtractIdFromString(s).None? {
      forall id | IdSuffix(s.value, id)
        ensures false
      {
        ExtractIdCharacterised(s, id);
      }
    }
  }

  datatype FacebookIds = FacebookIds(fbCampaignId: Option<string>, fbAdsetId: Option<string>, fbAdId: Option<string>)

  /** `a || b` where `a` is either null or a non-empty string. */
  function FirstSome(a: Option<string>, b: Option<string>): Option<string> {
    if a.Some? then a else b
  }

  /**
   * `extractFacebookIDs`: an id embedded in the campaign, content or term
   * wins over the explicit parameter, which is used only when nothing is
   * embedded.
   */
  function ExtractFacebookIds(u: UtmRecord): (ids: FacebookIds)
    ensures ExtractIdFromString(u.utmCampaign).Some? ==> ids.fbCampaignId == ExtractIdFromString(u.utmCampaign)
    ensures ExtractIdFromString(u.utmCampaign).None? ==> ids.fbCampaignId == u.fbCampaignId
    ensures ExtractIdFromString(u.utmContent).Some? ==> ids.fbAdsetId == ExtractIdFromString(u.utmContent)
    ensures ExtractIdFromString(u.utmContent).None? ==> ids.fbAdsetId == u.fbAdsetId
    ensures ExtractIdFromString(u.utmTerm).Some? ==> ids.fbAdId == ExtractIdFromString(u.utmTerm)
    ensures ExtractIdFromString(u.utmTerm).None? ==> ids.fbAdId == u.fbAdId
  {
    FacebookIds(
      FirstSome(ExtractIdFromString(u.utmCampaign), u.fbCampaignId),
      FirstSome(ExtractIdFromString(u.utmContent), u.fbAdsetId),
      FirstSome(ExtractIdFromString(u.utmTerm), u.fbAdId))
  }

  /** The nine raw parameters, each null when absent. */
  function BasicUtms(ps: ParamList): UtmRecord {
    UtmRecord(
      Get(ps, "utm_source"), Get(ps, "utm_medium"), Get(ps, "utm_campaign"), Get(ps, "utm_content"),
      Get(ps, "utm_term"), Get(ps, "fbclid"), Get(ps, "fb_campaign_id"), Get(ps, "fb_ad_id"), Get(ps, "fb_adset_id"))
  }

  /**
   * `extractUTMFromURL`: the raw UTM and click-id values pass through
   * unchanged; only the three Facebook ids may differ from the raw
   * parameters, and they differ only by an id embedded in a name.
   */
  function ExtractUTMFromURL(ps: ParamList): (r: UtmRecord)
    ensures r.utmSource == Get(ps, "utm_source") && r.utmMedium == Get(ps, "utm_medium")
    ensures r.utmCampaign == Get(ps, "utm_campaign") && r.utmContent == Get(ps, "utm_content")
    ensures r.utmTerm == Get(ps, "utm_term") && r.fbclid == Get(ps, "fbclid")
    ensures r.fbCampaignId == FirstSome(ExtractIdFromString(Get(ps, "utm_campaign")), Get(ps, "fb_campaign_id"))
    ensures r.fbAdsetId == FirstSome(ExtractIdFromString(Get(ps, "utm_content")), Get(ps, "fb_adset_id"))
    ensures r.fbAdId == FirstSome(ExtractIdFromString(Get(ps, "utm_term")), Get(ps, "fb_ad_id"))
  {
    var basic := BasicUtms(ps);
    var ids := ExtractFacebookIds(basic);
    basic.(fbCampaignId := ids.fbCampaignId, fbAdId := ids.fbAdId, fbAdsetId := ids.fbAdsetId)
  }

  /** `Object.values(u).some(value => value !== null)`: an empty string counts as present. */
  predicate AnyNonNull(u: UtmRecord) {
    u.utmSource.Some? || u.utmMedium.Some? || u.utmCampaign.Some? || u.utmContent.Some? || u.utmTerm.Some?
    || u.fbclid.Some? || u.fbCampaignId.Some? || u.fbAdId.Some? || u.fbAdsetId.Some?
  }

  /** Every UTM parameter in the URL, even an empty one, makes the URL record count. */
  lemma {:induction false} UrlRecordPresentIff(ps: ParamList)
    ensures AnyNonNull(ExtractUTMFromURL(ps)) <==>
      Has(ps, "utm_source") || Has(ps, "utm_medium") || Has(ps, "utm_campaign") || Has(ps, "utm_content")
      || Has(ps, "utm_term") || Has(ps, "fbclid") || Has(ps, "fb_campaign_id") || Has(ps, "fb_ad_id")
      || Has(ps, "fb_adset_id")
  {
    var r := ExtractUTMFromURL(ps);
    if Has(ps, "fb_campaign_id") {
      assert r.fbCampaignId.Some?;
    }
    if Has(ps, "fb_ad_id") {
      assert r.fbAdId.Some?;
    }
    if Has(ps, "fb_adset_id") {
      assert r.fbAdsetId.Some?;
    }
    if r.fbCampaignId.Some? && !Has(ps, "fb_campaign_id") {
      assert ExtractIdFromString(Get(ps, "utm_campaign")).Some?;
    }
  }

  /** The session id in storage, when it is truthy. */
  function StoredSessionId(local: map<string, Stored>): Option<string> {
    if SessionIdKey in local && local[SessionIdKey].Plain? && local[SessionIdKey].text != "" then
      Some(local[SessionIdKey].text)
    else None
  }

  /**
   * `getOrCreateSessionId`: the stored id if there is one; otherwise a new
   * 'session_…' id, stored. `suffix` stands for the random and clock part.
   */
  method GetOrCreateSessionId(b: Browser, suffix: string) returns (sessionId: string)
    modifies b
    ensures StoredSessionId(old(b.local)).Some? ==>
      sessionId == StoredSessionId(old(b.local)).value && b.local == old(b.local)
    ensures StoredSessionId(old(b.local)).None? ==>
      sessionId == "session_" + suffix && b.local == old(b.local)[SessionIdKey := Plain(sessionId)]
    ensures StoredSessionId(b.local) == Some(sessionId)
    ensures b.session == old(b.session)
  {
    var stored := StoredSessionId(b.local);
    if stored.None? {
      sessionId := "session_" + suffix;
      b.local := b.local[SessionIdKey := Plain(sessionId)];
    } else {
      sessionId := stored.value;
    }
  }

  /** `getStoredUTMData`: the parsed record, or null when nothing (or nothing readable) is stored. */
  function GetStoredUTMData(local: map<string, Stored>): Option<UtmRecord> {
    if UtmDataKey in local && local[UtmDataKey].RecordJson? then Some(local[UtmDataKey].record) else None
  }

  /** `storeUTMData`: the record and the capture time. */
  method StoreUTMData(b: Browser, u: UtmRecord, nowIso: string)
    modifies b
    ensures b.local == old(b.local)[UtmDataKey := RecordJson(u)][CapturedAtKey := Plain(nowIso)]
    ensures GetStoredUTMData(b.local) == Some(u)
    ensures b.session == old(b.session)
  {
    b.local := b.local[UtmDataKey := RecordJson(u)];
    b.local := b.local[CapturedAtKey := Plain(nowIso)];
  }

  /** `clearUTMData`. */
  method ClearUTMData(b: Browser)
    modifies b
    ensures b.local == old(b.local) - {UtmDataKey, CapturedAtKey}
    ensures GetStoredUTMData(b.local) == None
    ensures b.session == old(b.session)
  {
    b.local := b.local - {UtmDataKey};
    b.local := b.local - {CapturedAtKey};
  }

  /** `{}`: the record with every field absent. */
  const EmptyRecord: UtmRecord := UtmRecord(None, None, None, None, None, None, None, None, None)

  /** `hasUTMData`. */
  predicate HasUTMData(ps: ParamList, local: map<string, Stored>) {
    AnyNonNull(ExtractUTMFromURL(ps))
    || (GetStoredUTMData(local).Some? && AnyNonNull(GetStoredUTMData(local).value))
  }

  /** What `getCurrentUTMData` returns: the URL record if any field is there, else the stored one, else `{}`. */
  function CurrentUTMData(ps: ParamList, local: map<string, Stored>): UtmRecord {
    var url := ExtractUTMFromURL(ps);
    if AnyNonNull(url) then url
    else if GetStoredUTMData(local).Some? then GetStoredUTMData(local).value
    else EmptyRecord
  }

  /** `getCurrentUTMData`: a URL record that counts is stored and returned; otherwise nothing is written. */
  method GetCurrentUTMData(b: Browser, ps: ParamList, nowIso: string) returns (u: UtmRecord)
    modifies b
    ensures u == CurrentUTMData(ps, old(b.local))
    ensures AnyNonNull(ExtractUTMFromURL(ps)) ==>
      b.local == old(b.local)[UtmDataKey := RecordJson(u)][CapturedAtKey := Plain(nowIso)]
    ensures !AnyNonNull(ExtractUTMFromURL(ps)) ==> b.local == old(b.local)
    ensures b.session == old(b.session)
  {
    var urlUTM := ExtractUTMFromURL(ps);
    if AnyNonNull(urlUTM) {
      StoreUTMData(b, urlUTM, nowIso);
      return urlUTM;
    }
    var stored := GetStoredUTMData(b.local);
    u := if stored.Some? then stored.value else EmptyRecord;
  }

  /** `hasUTMData` answers exactly whether `getCurrentUTMData` would return a record with some field set. */
  lemma HasUTMDataIffCurrentHasField(ps: ParamList, local: map<string, Stored>)
    ensures HasUTMData(ps, local) <==> AnyNonNull(CurrentUTMData(ps, local))
  {
  }

  /** After `getCurrentUTMData` stores a URL record, reading the store gives that record back. */
  lemma StoredThenCurrent(ps: ParamList, local: map<string, Stored>, nowIso: string)
    requires AnyNonNull(ExtractUTMFromURL(ps))
    ensures var after := local[UtmDataKey := RecordJson(ExtractUTMFromURL(ps))][CapturedAtKey := Plain(nowIso)];
      GetStoredUTMData(after) == Some(ExtractUTMFromURL(ps))
  {
    assert UtmDataKey != CapturedAtKey by {
      assert UtmDataKey[4] != CapturedAtKey[4];
    }
  }
}
