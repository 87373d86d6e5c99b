/**
 * First-touch attribution for the funnel: reading the UTM parameters from
 * the query, the hash and a Facebook redirect URL, classifying the traffic
 * source from the URL, user agent and referrer, the fallback and
 * precedence rules between URL, redirect data and session-stored UTMs,
 * and the funnel events appended to `localStorage` at each step.
 *
 * Everything the browser supplies is a parameter: the page's query (raw and
 * parsed), the parameters of the URL carried in `u`, the part of the hash
 * after '?', the referrer, the user agent and the clock.
 */
module Tracking {
  import opened Text
  import opened TrackingTypes
  import opened Storage
  import opened UrlParams

  const TrackingDataKey: string := "fb_tracking_data"
  const FunnelEventsKey: string := "fb_funnel_events"
  const StepStartKey: string := "fb_step_start_time"
  const SessionStartKey: string := "fb_session_start"
  const StoredUtmsKey: string := "stored_utm_params"
  const RedirectKey: string := "fb_redirect_tracking"
  const FormBackupKey: string := "form_data_backup"

  /**
   * What the page knows when it runs. `query` is `search` parsed;
   * `decodedU` is the parsed query of the URL held in a non-empty `u`
   * parameter, `None` when there is none or it does not decode;
   * `hashQuery` is the parsed text after '?' in the hash, `None` when the
   * hash has no '?'.
   */
  datatype Env = Env(
    search: string,
    query: ParamList,
    decodedU: Option<ParamList>,
    hashQuery: Option<ParamList>,
    href: string,
    referrer: string,
    userAgent: string,
    now: int,
    nowIso: string)

  // ---------------------------------------------------------------------
  // getAllUrlParams

  /** `params.get(name)` truthy: present and non-empty. */
  predicate Truthy(ps: ParamList, name: string) {
    GetOr(ps, name) != ""
  }

  /**
   * `extra.forEach((value, key) => { if (!ps.has(key) && key !== skip) ps.set(key, value) })`:
   * the pairs of `extra` whose name `ps` lacks, first occurrence winning.
   */
  function MergeMissing(ps: ParamList, extra: ParamList, skip: Option<string>): ParamList {
    if extra == [] then ps
    else
      var acc := MergeMissing(ps, extra[..|extra| - 1], skip);
      var (k, v) := extra[|extra| - 1];
      if !Has(acc, k) && skip != Some(k) then Set(acc, k, v) else acc
  }

  lemma {:induction false} GetSnoc(ps: ParamList, k: string, v: string, n: string)
    ensures Get(ps + [(k, v)], n) == if Has(ps, n) then Get(ps, n) else if k == n then Some(v) else None
  {
    if ps != [] {
      assert (ps + [(k, v)])[1..] == ps[1..] + [(k, v)];
      GetSnoc(ps[1..], k, v, n);
    }
  }

  /**
   * A name `ps` already has keeps its value; a missing name that is not
   * skipped takes its first value in `extra`.
   */
  lemma {:induction false} MergeMissingGet(ps: ParamList, extra: ParamList, skip: Option<string>, n: string)
    ensures Get(MergeMissing(ps, extra, skip), n)
         == if Has(ps, n) || skip == Some(n) then Get(ps, n) else Get(extra, n)
  {
    if extra != [] {
      var front := extra[..|extra| - 1];
      var acc := MergeMissing(ps, front, skip);
      var (k, v) := extra[|extra| - 1];
      MergeMissingGet(ps, front, skip, n);
      assert extra == front + [(k, v)];
      GetSnoc(front, k, v, n);
      if !Has(acc, k) && skip != Some(k) {
        SetAbsentAppends(acc, k, v);
        GetSnoc(acc, k, v, n);
        if k == n {
          MergeMissingGet(ps, front, skip, k);
        }
      }
    }
  }

  /** The Facebook step: copy a truthy `fbclid` from the `u` URL, with facebook/social when `utm_source` is falsy. */
  function FacebookStage(query: ParamList, decoded: ParamList): ParamList {
    var fb := GetOr(decoded, "fbclid");
    if fb == "" then query
    else
      var ps := Set(query, "fbclid", fb);
      if !Truthy(ps, "utm_source") then Set(Set(ps, "utm_source", "facebook"), "utm_medium", "social")
      else ps
  }

  /** The query after the `u` step: the Facebook step, then the `u` URL's other parameters where missing. */
  function AfterU(query: ParamList, decodedU: Option<ParamList>): ParamList {
    if decodedU.Some? then MergeMissing(FacebookStage(query, decodedU.value), decodedU.value, Some("fbclid"))
    else query
  }

  /** `getAllUrlParams`: the query, then the `u` URL's parameters, then the hash's. */
  function AllUrlParams(query: ParamList, decodedU: Option<ParamList>, hashQuery: Option<ParamList>): ParamList {
    var afterU := AfterU(query, decodedU);
    if hashQuery.Some? then MergeMissing(afterU, hashQuery.value, None) else afterU
  }

  /** One `forEach` merge, as the source runs it. */
  method MergeInto(urlParams0: ParamList, extra: ParamList, skip: Option<string>) returns (urlParams: ParamList)
    ensures urlParams == MergeMissing(urlParams0, extra, skip)
  {
    urlParams := urlParams0;
    for i := 0 to |extra|
      invariant urlParams == MergeMissing(urlParams0, extra[..i], skip)
    {
      assert extra[..i + 1][..i] == extra[..i];
      var (key, value) := extra[i];
      if !Has(urlParams, key) && skip != Some(key) {
        urlParams := Set(urlParams, key, value);
      }
    }
    assert extra[..|extra|] == extra;
  }

  method GetAllUrlParams(query: ParamList, decodedU: Option<ParamList>, hashQuery: Option<ParamList>)
    returns (urlParams: ParamList)
    ensures urlParams == AllUrlParams(query, decodedU, hashQuery)
  {
    urlParams := query;
    if decodedU.Some? {
      var decodedParams := decodedU.value;
      var fbclid := GetOr(decodedParams, "fbclid");
      if fbclid != "" {
        urlParams := Set(urlParams, "fbclid", fbclid);
        if GetOr(urlParams, "utm_source") == "" {
          urlParams := Set(urlParams, "utm_source", "facebook");
          urlParams := Set(urlParams, "utm_medium", "social");
        }
      }
      urlParams := MergeInto(urlParams, decodedParams, Some("fbclid"));
    }
    if hashQuery.Some? {
      urlParams := MergeInto(urlParams, hashQuery.value, None);
    }
  }

  /**
   * Precedence of the merge: the hash and the `u` URL never overwrite a
   * query parameter, except that a truthy `fbclid` from the `u` URL is
   * always set, and with it facebook/social when `utm_source` is falsy.
   */
  lemma UrlParamsPrecedence(query: ParamList, decodedU: Option<ParamList>, hashQuery: Option<ParamList>, n: string)
    ensures Has(query, n) && n != "fbclid" && n != "utm_source" && n != "utm_medium" ==>
      Get(AllUrlParams(query, decodedU, hashQuery), n) == Get(query, n)
    ensures Truthy(query, "utm_source") ==>
      Get(AllUrlParams(query, decodedU, hashQuery), "utm_source") == Get(query, "utm_source")
    ensures (decodedU.None? || !Truthy(decodedU.value, "fbclid")) && Has(query, n) ==>
      Get(AllUrlParams(query, decodedU, hashQuery), n) == Get(query, n)
    ensures decodedU.Some? && Truthy(decodedU.value, "fbclid") ==>
      Get(AllUrlParams(query, decodedU, hashQuery), "fbclid") == Get(decodedU.value, "fbclid")
    ensures decodedU.Some? && Truthy(decodedU.value, "fbclid") && !Truthy(query, "utm_source") ==>
      Get(AllUrlParams(query, decodedU, hashQuery), "utm_source") == Some("facebook")
      && Get(AllUrlParams(query, decodedU, hashQuery), "utm_medium") == Some("social")
  {
    AllUrlParamsGet(query, decodedU, hashQuery, n);
    AllUrlParamsGet(query, decodedU, hashQuery, "fbclid");
    AllUrlParamsGet(query, decodedU, hashQuery, "utm_source");
    AllUrlParamsGet(query, decodedU, hashQuery, "utm_medium");
    if decodedU.Some? {
      FacebookStageGet(query, decodedU.value, n);
      FacebookStageGet(query, decodedU.value, "fbclid");
      FacebookStageGet(query, decodedU.value, "utm_source");
      FacebookStageGet(query, decodedU.value, "utm_medium");
    }
  }

  lemma FacebookStageGet(query: ParamList, decoded: ParamList, n: string)
    ensures Get(FacebookStage(query, decoded), n)
         == if !Truthy(decoded, "fbclid") then Get(query, n)
            else if n == "fbclid" then Get(decoded, "fbclid")
            else if n == "utm_source" && !Truthy(query, "utm_source") then Some("facebook")
            else if n == "utm_medium" && !Truthy(query, "utm_source") then Some("social")
            else Get(query, n)
  {
    var fb := GetOr(decoded, "fbclid");
    if fb != "" {
      var ps := Set(query, "fbclid", fb);
      assert Get(ps, "utm_source") == Get(query, "utm_source");
    }
  }

  /** How a name reads after the whole merge, one stage at a time. */
  lemma AllUrlParamsGet(query: ParamList, decodedU: Option<ParamList>, hashQuery: Option<ParamList>, n: string)
    ensures Has(AfterU(query, decodedU), n) ==>
      Get(AllUrlParams(query, decodedU, hashQuery), n) == Get(AfterU(query, decodedU), n)
    ensures decodedU.None? ==> AfterU(query, decodedU) == query
    ensures decodedU.Some? && (Has(FacebookStage(query, decodedU.value), n) || n == "fbclid") ==>
      Get(AfterU(query, decodedU), n) == Get(FacebookStage(query, decodedU.value), n)
  {
    if hashQuery.Some? {
      MergeMissingGet(AfterU(query, decodedU), hashQuery.value, None, n);
    }
    if decodedU.Some? {
      MergeMissingGet(FacebookStage(query, decodedU.value), decodedU.value, Some("fbclid"), n);
    }
  }

  // ---------------------------------------------------------------------
  // detectTrafficSource

  datatype TrafficSource = TrafficSource(source: string, medium: string, isSocial: bool)

  /** The networks `detectTrafficSource` flags as social. */
  predicate SocialNetwork(source: string) {
    source == "facebook" || source == "instagram" || source == "twitter"
    || source == "linkedin" || source == "youtube"
  }

  /**
   * `detectTrafficSource`: the first matching rule, on the lower-cased
   * URL, user agent and referrer.
   */
  function DetectTrafficSource(href: string, userAgent: string, referrer: string): (t: TrafficSource)
    ensures t.isSocial <==> SocialNetwork(t.source)
    ensures Contains(ToLower(href), "fbclid") ==> t == TrafficSource("facebook", "paid_social", true)
  {
    var ua := ToLower(userAgent);
    var ref := ToLower(referrer);
    var url := ToLower(href);
    if Contains(url, "fbclid") || Contains(url, "facebook.com") || Contains(url, "fb.com") then
      TrafficSource("facebook", "paid_social", true)
    else if Contains(ua, "fban") || Contains(ua, "fbav") || Contains(ua, "fb_iab") then
      TrafficSource("facebook", "mobile_app", true)
    else if Contains(ua, "instagram") then
      TrafficSource("instagram", "mobile_app", true)
    else if Contains(ref, "facebook.com") || Contains(ref, "m.facebook.com") || Contains(ref, "fb.com") then
      TrafficSource("facebook", "referral", true)
    else if Contains(ref, "instagram.com") || Contains(ref, "l.instagram.com") then
      TrafficSource("instagram", "referral", true)
    else if Contains(ref, "t.co") || Contains(ref, "twitter.com") || Contains(ref, "x.com") then
      TrafficSource("twitter", "referral", true)
    else if Contains(ref, "linkedin.com") then
      TrafficSource("linkedin", "referral", true)
    else if Contains(ref, "youtube.com") then
      TrafficSource("youtube", "referral", true)
    else if Contains(ref, "monjaslim.site") then
      TrafficSource("site_oficial", "referral", false)
    else if ref == "" then
      TrafficSource("direct", "none", false)
    else
      TrafficSource("referral", "website", false)
  }

  /**
   * With no Facebook marker in the URL and no in-app user agent, an empty
   * referrer means direct traffic.
   */
  lemma {:induction false} EmptyReferrerIsDirect(href: string, userAgent: string)
    requires !Contains(ToLower(href), "fbclid") && !Contains(ToLower(href), "facebook.com") && !Contains(ToLower(href), "fb.com")
    requires !Contains(ToLower(userAgent), "fban") && !Contains(ToLower(userAgent), "fbav")
    requires !Contains(ToLower(userAgent), "fb_iab") && !Contains(ToLower(userAgent), "instagram")
    ensures DetectTrafficSource(href, userAgent, "") == TrafficSource("direct", "none", false)
  {
    assert ToLower("") == "";
  }

  // ---------------------------------------------------------------------
  // getParamValue

  const SourceAliases: seq<string> := ["utm_source", "source", "ref"]
  const MediumAliases: seq<string> := ["utm_medium", "medium"]
  const CampaignAliases: seq<string> := ["utm_campaign", "campaign"]
  const ContentAliases: seq<string> := ["utm_content", "content", "ad"]
  const TermAliases: seq<string> := ["utm_term", "term", "keyword"]

  /** A value `getParamValue` accepts: present, non-empty, and not the text 'null' or 'undefined'. */
  predicate Usable(v: Option<string>) {
    v.Some? && v.value != "" && v.value != "null" && v.value != "undefined"
  }

  /** The first usable value among the aliases, or ''. */
  function FirstUsable(ps: ParamList, aliases: seq<string>): (r: string)
    ensures r == "" <==> forall i :: 0 <= i < |aliases| ==> !Usable(Get(ps, aliases[i]))
    ensures r != "" ==> exists i :: 0 <= i < |aliases| && Get(ps, aliases[i]) == Some(r)
                          && forall j :: 0 <= j < i ==> !Usable(Get(ps, aliases[j]))
  {
    if aliases == [] then ""
    else if Usable(Get(ps, aliases[0])) then Get(ps, aliases[0]).value
    else
      var r := FirstUsable(ps, aliases[1..]);
      assert forall i :: 1 <= i < |aliases| ==> aliases[i] == aliases[1..][i - 1];
      r
  }

  /** `getParamValue`: try the aliases in order and return the first usable value. */
  method GetParamValue(ps: ParamList, variations: seq<string>) returns (value: string)
    ensures value == FirstUsable(ps, variations)
  {
    for i := 0 to |variations|
      invariant FirstUsable(ps, variations) == FirstUsable(ps, variations[i..])
    {
      assert variations[i..][1..] == variations[i + 1..];
      var v := Get(ps, variations[i]);
      if Usable(v) {
        return v.value;
      }
    }
    return "";
  }

  // ---------------------------------------------------------------------
  // extractUTMParams

  /** The record built from the URL parameters before any fallback. */
  function FromParams(ps: ParamList): UTMParams {
    UTMParams(
      FirstUsable(ps, SourceAliases), FirstUsable(ps, MediumAliases), FirstUsable(ps, CampaignAliases),
      FirstUsable(ps, ContentAliases), FirstUsable(ps, TermAliases),
      GetOr(ps, "fbclid"), GetOr(ps, "fb_source"))
  }

  /** The `utmParams` literal of `extractUTMParams`: five alias lookups and the two raw Facebook fields. */
  method ReadUtmParams(urlParams: ParamList) returns (utmParams: UTMParams)
    ensures utmParams == FromParams(urlParams)
  {
    var source := GetParamValue(urlParams, SourceAliases);
    var medium := GetParamValue(urlParams, MediumAliases);
    var campaign := GetParamValue(urlParams, CampaignAliases);
    var content := GetParamValue(urlParams, ContentAliases);
    var term := GetParamValue(urlParams, TermAliases);
    utmParams := UTMParams(source, medium, campaign, content, term, GetOr(urlParams, "fbclid"), GetOr(urlParams, "fb_source"));
  }

  /** `hasEmptyUTMs`, as written. */
  predicate HasEmptyUTMs(search: string) {
    Contains(search, "utm_source=&") || Contains(search, "utm_source=")
  }

  lemma {:induction false} ContainsLonger(s: string, sub: string, longer: string)
    requires Contains(s, longer) && StartsWith(longer, sub)
    ensures Contains(s, sub)
  {
    var i := ContainsIndex(s, longer);
    assert s[i..i + |sub|] == longer[..|sub|];
    ContainsAt(s, sub, i);
  }

  /**
   * The first test of `hasEmptyUTMs` adds nothing: the flag is set whenever
   * 'utm_source=' occurs anywhere in the query, with a value or without.
   */
  lemma HasEmptyUTMsIsAnyUtmSource(search: string)
    ensures HasEmptyUTMs(search) <==> Contains(search, "utm_source=")
  {
    if Contains(search, "utm_source=&") {
      ContainsLonger(search, "utm_source=", "utm_source=&");
    }
  }

  /** `{...utms, ...partial}`. */
  function MergePartial(p: UTMParams, q: PartialUtms): (r: UTMParams)
  {
    UTMParams(
      if q.utmSource.Some? then q.utmSource.value else p.utmSource,
      if q.utmMedium.Some? then q.utmMedium.value else p.utmMedium,
      if q.utmCampaign.Some? then q.utmCampaign.value else p.utmCampaign,
      if q.utmContent.Some? then q.utmContent.value else p.utmContent,
      if q.utmTerm.Some? then q.utmTerm.value else p.utmTerm,
      if q.fbclid.Some? then q.fbclid.value else p.fbclid,
      if q.fbSource.Some? then q.fbSource.value else p.fbSource)
  }

  /** `hasValidUTM`: any of the five UTM fields, or `fbclid`, is non-empty. */
  predicate HasValidUTM(p: UTMParams) {
    p.utmSource != "" || p.utmMedium != "" || p.utmCampaign != "" || p.utmContent != ""
    || p.utmTerm != "" || p.fbclid != ""
  }

  /**
   * The fallback step: the fbclid-only branch, then the detection fallback
   * when the query mentions `utm_source=` or nothing valid was found.
   */
  function Fallback(p: UTMParams, hasEmpty: bool, detected: TrafficSource): (r: UTMParams)
    ensures p.utmSource != "" ==> r.utmSource == p.utmSource
    ensures p.utmMedium != "" ==> r.utmMedium == p.utmMedium
    ensures r.utmCampaign == p.utmCampaign && r.utmContent == p.utmContent
    ensures r.utmTerm == p.utmTerm && r.fbclid == p.fbclid
    ensures hasEmpty || !HasValidUTM(p) ==> r.fbSource == (if detected.isSocial then "social_fallback" else "")
    ensures !hasEmpty && HasValidUTM(p) ==> r == p
  {
    if p.fbclid != "" && !HasValidUTM(p) then
      p.(utmSource := "facebook", utmMedium := "paid_social", fbSource := "facebook_ads")
    else if hasEmpty || !HasValidUTM(p) then
      p.(utmSource := if p.utmSource != "" then p.utmSource else detected.source,
         utmMedium := if p.utmMedium != "" then p.utmMedium else detected.medium,
         fbSource := if detected.isSocial then "social_fallback" else "")
    else p
  }

  /** The fbclid-only branch cannot run: a non-empty `fbclid` already makes the UTMs valid. */
  lemma FbclidBranchUnreachable(p: UTMParams)
    ensures !(p.fbclid != "" && !HasValidUTM(p))
  {
  }

  /** The redirect data waiting in session storage, if readable. */
  function StoredRedirect(session: map<string, Stored>): Option<PartialUtms> {
    if RedirectKey in session && session[RedirectKey].RedirectJson? then Some(session[RedirectKey].partial)
    else None
  }

  /** `getStoredUTMs`. */
  function StoredUtms(session: map<string, Stored>): Option<UTMParams> {
    if StoredUtmsKey in session && session[StoredUtmsKey].UtmsJson? then Some(session[StoredUtmsKey].utms)
    else None
  }

  /** The URL record with the redirect data merged in: what `hasValidUTM` judges. */
  function Merged(env: Env, redirect: Option<PartialUtms>): UTMParams {
    var p := FromParams(AllUrlParams(env.query, env.decodedU, env.hashQuery));
    if redirect.Some? then MergePartial(p, redirect.value) else p
  }

  /** The result of `extractUTMParams`, given what session storage held. */
  function Extracted(env: Env, redirect: Option<PartialUtms>, stored: Option<UTMParams>): UTMParams {
    var p := Merged(env, redirect);
    var valid := HasValidUTM(p);
    var q := Fallback(p, HasEmptyUTMs(env.search), DetectTrafficSource(env.href, env.userAgent, env.referrer));
    if stored.Some? && !valid then stored.value else q
  }

  /**
   * Stored UTMs win only when nothing valid came from the URL or the
   * redirect data (judged before the fallback); otherwise they are ignored.
   */
  lemma StoredPrecedence(env: Env, redirect: Option<PartialUtms>, stored: UTMParams)
    ensures !HasValidUTM(Merged(env, redirect)) ==> Extracted(env, redirect, Some(stored)) == stored
    ensures HasValidUTM(Merged(env, redirect)) ==> Extracted(env, redirect, Some(stored)) == Extracted(env, redirect, None)
  {
  }

  /**
   * A non-empty source or medium from the URL or the redirect data always
   * survives when nothing is stored, even under the `utm_source=` fallback.
   */
  lemma FallbackKeepsExplicitUtms(env: Env, redirect: Option<PartialUtms>)
    ensures Merged(env, redirect).utmSource != "" ==> Extracted(env, redirect, None).utmSource == Merged(env, redirect).utmSource
    ensures Merged(env, redirect).utmMedium != "" ==> Extracted(env, redirect, None).utmMedium == Merged(env, redirect).utmMedium
  {
  }

  /** The session storage after the redirect data has been read: removed if it was read. */
  function AfterConsume(session: map<string, Stored>): map<string, Stored> {
    if StoredRedirect(session).Some? then session - {RedirectKey} else session
  }

  /** Reading the redirect data leaves the stored UTMs alone. */
  lemma ConsumeKeepsStoredUtms(session: map<string, Stored>)
    ensures StoredUtms(AfterConsume(session)) == StoredUtms(session)
  {
    assert StoredUtmsKey != RedirectKey by {
      assert StoredUtmsKey[0] != RedirectKey[0];
    }
  }

  /**
   * `checkStoredFacebookData`: read the redirect data and remove it; data
   * that does not parse stays where it is.
   */
  method CheckStoredFacebookData(b: Browser) returns (data: Option<PartialUtms>)
    modifies b
    ensures data == StoredRedirect(old(b.session))
    ensures b.session == AfterConsume(old(b.session)) && b.local == old(b.local)
    ensures StoredRedirect(b.session) == None
  {
    if RedirectKey in b.session && b.session[RedirectKey].RedirectJson? {
      data := Some(b.session[RedirectKey].partial);
      b.session := b.session - {RedirectKey};
    } else {
      data := None;
    }
  }

  /**
   * Session storage after `extractUTMParams`: the redirect data consumed,
   * and the result written back when the URL or redirect data was valid.
   */
  function SessionAfterExtract(env: Env, session: map<string, Stored>): map<string, Stored> {
    var redirect := StoredRedirect(session);
    var consumed := AfterConsume(session);
    if HasValidUTM(Merged(env, redirect))
    then consumed[StoredUtmsKey := UtmsJson(Extracted(env, redirect, StoredUtms(session)))]
    else consumed
  }

  /** `extractUTMParams`. */
  method ExtractUTMParams(b: Browser, env: Env) returns (utmParams: UTMParams)
    modifies b
    ensures utmParams == Extracted(env, StoredRedirect(old(b.session)), StoredUtms(old(b.session)))
    ensures b.session == SessionAfterExtract(env, old(b.session))
    ensures b.local == old(b.local)
  {
    var urlParams := GetAllUrlParams(env.query, env.decodedU, env.hashQuery);
    utmParams := ReadUtmParams(urlParams);
    var hasEmptyUTMs := HasEmptyUTMs(env.search);

    ghost var redirect := StoredRedirect(b.session);
    ghost var storedBefore := StoredUtms(b.session);
    var storedFacebookData := CheckStoredFacebookData(b);
    if storedFacebookData.Some? {
      utmParams := MergePartial(utmParams, storedFacebookData.value);
    }
    assert utmParams == Merged(env, redirect);
    var hasValidUTM := HasValidUTM(utmParams);
    utmParams := Fallback(utmParams, hasEmptyUTMs, DetectTrafficSource(env.href, env.userAgent, env.referrer));

    ConsumeKeepsStoredUtms(old(b.session));
    var storedUTMs := StoredUtms(b.session);
    if storedUTMs.Some? && !hasValidUTM {
      utmParams := storedUTMs.value;
    } else if hasValidUTM {
      b.session := b.session[StoredUtmsKey := UtmsJson(utmParams)];
    }
  }

  /** `processFacebookRedirect`: keep the Facebook attribution for after the redirect, and redirect. */
  method ProcessFacebookRedirect(b: Browser, query: ParamList, decodedU: Option<ParamList>) returns (redirected: bool)
    modifies b
    ensures redirected <==> decodedU.Some?
    ensures decodedU.Some? && Truthy(decodedU.value, "fbclid") ==>
      b.session == old(b.session)[RedirectKey := RedirectJson(RedirectData(query, GetOr(decodedU.value, "fbclid")))]
    ensures !(decodedU.Some? && Truthy(decodedU.value, "fbclid")) ==> b.session == old(b.session)
    ensures b.local == old(b.local)
  {
    if decodedU.None? {
      return false;
    }
    var fbclid := GetOr(decodedU.value, "fbclid");
    if fbclid != "" {
      b.session := b.session[RedirectKey := RedirectJson(RedirectData(query, fbclid))];
    }
    return true;
  }

  /** The attribution `processFacebookRedirect` stores: Facebook paid social, with the campaign or 'facebook_ads'. */
  function RedirectData(query: ParamList, fbclid: string): (d: PartialUtms)
    ensures d.utmSource == Some("facebook") && d.utmMedium == Some("paid_social") && d.fbclid == Some(fbclid)
    ensures d.utmCampaign.Some? && d.utmCampaign.value != ""
  {
    var campaign := GetOr(query, "utm_campaign");
    PartialUtms(Some("facebook"), Some("paid_social"), Some(if campaign != "" then campaign else "facebook_ads"),
                None, None, Some(fbclid), Some("facebook_redirect"))
  }

  /**
   * Redirect data is honoured on the landing page: with no stored UTMs and
   * a truthy click id, the extracted record carries the redirect's source,
   * medium and click id.
   */
  lemma RedirectDataWins(env: Env, query: ParamList, fbclid: string)
    requires fbclid != ""
    ensures var e := Extracted(env, Some(RedirectData(query, fbclid)), None);
      e.utmSource == "facebook" && e.utmMedium == "paid_social" && e.fbclid == fbclid
  {
    var p := Merged(env, Some(RedirectData(query, fbclid)));
    assert p.utmSource == "facebook" && p.utmMedium == "paid_social" && p.fbclid == fbclid;
  }

  // ---------------------------------------------------------------------
  // Storage helpers and funnel events

  /** `getTrackingData`. */
  function GetTrackingData(local: map<string, Stored>): Option<TrackingData> {
    if TrackingDataKey in local && local[TrackingDataKey].TrackingJson? then Some(local[TrackingDataKey].data)
    else None
  }

  /** `getFunnelEvents`: the stored list, or empty. */
  function GetFunnelEvents(local: map<string, Stored>): seq<FunnelEvent> {
    if FunnelEventsKey in local && local[FunnelEventsKey].EventsJson? then local[FunnelEventsKey].events
    else []
  }

  /** The stored step start, when there is one. */
  function StepStart(local: map<string, Stored>): Option<int> {
    if StepStartKey in local && local[StepStartKey].Millis? then Some(local[StepStartKey].ms) else None
  }

  /** `createTrackingData`: the extracted UTMs plus the arrival details; the session id is generated outside. */
  method CreateTrackingData(b: Browser, env: Env, sessionId: string) returns (data: TrackingData)
    modifies b
    ensures data == TrackingData(Extracted(env, StoredRedirect(old(b.session)), StoredUtms(old(b.session))),
                                 env.nowIso, env.userAgent, env.referrer, env.href, sessionId)
    ensures b.local == old(b.local) && b.session == SessionAfterExtract(env, old(b.session))
  {
    var utms := ExtractUTMParams(b, env);
    data := TrackingData(utms, env.nowIso, env.userAgent, env.referrer, env.href, sessionId);
  }

  method SaveTrackingData(b: Browser, data: TrackingData)
    modifies b
    ensures b.local == old(b.local)[TrackingDataKey := TrackingJson(data)] && b.session == old(b.session)
    ensures GetTrackingData(b.local) == Some(data)
  {
    b.local := b.local[TrackingDataKey := TrackingJson(data)];
  }

  method SaveFunnelEvents(b: Browser, events: seq<FunnelEvent>)
    modifies b
    ensures b.local == old(b.local)[FunnelEventsKey := EventsJson(events)] && b.session == old(b.session)
    ensures GetFunnelEvents(b.local) == events
  {
    b.local := b.local[FunnelEventsKey := EventsJson(events)];
  }

  /** The event `trackFunnelEvent` records. */
  function EventFor(eventType: string, step: int, formData: Payload, data: TrackingData,
                    start: Option<int>, now: int, nowIso: string): (e: FunnelEvent)
    ensures e.utmData == data.utms && e.step == step && e.event == eventType
    ensures e.timeOnStep == if start.Some? then now - start.value else 0
  {
    FunnelEvent(eventType, nowIso, step, data.utms, formData,
                if start.Some? then now - start.value else 0)
  }

  /** Local storage after `trackFunnelEvent`. */
  function AfterTrack(local: map<string, Stored>, eventType: string, step: int, formData: Payload,
                      now: int, nowIso: string): map<string, Stored> {
    var data := GetTrackingData(local);
    if data.None? then local
    else
      var e := EventFor(eventType, step, formData, data.value, StepStart(local), now, nowIso);
      local[FunnelEventsKey := EventsJson(GetFunnelEvents(local) + [e])][StepStartKey := Millis(now)]
  }

  /**
   * What a tracked event leaves behind: without tracking data nothing
   * changes; otherwise the earlier events are still there, in order,
   * followed by exactly one new event, the step clock reads `now`, and the
   * tracking record is untouched.
   */
  lemma TrackAppendsOne(local: map<string, Stored>, eventType: string, step: int, formData: Payload, now: int, nowIso: string)
    ensures GetTrackingData(local).None? ==> AfterTrack(local, eventType, step, formData, now, nowIso) == local
    ensures GetTrackingData(local).Some? ==>
      var after := AfterTrack(local, eventType, step, formData, now, nowIso);
      GetFunnelEvents(after) == GetFunnelEvents(local)
        + [EventFor(eventType, step, formData, GetTrackingData(local).value, StepStart(local), now, nowIso)]
      && StepStart(after) == Some(now) && GetTrackingData(after) == GetTrackingData(local)
  {
  }

  /**
   * `trackFunnelEvent`: nothing without tracking data; otherwise one event
   * appended after the stored ones, and the step clock restarted at `now`.
   */
  method TrackFunnelEvent(b: Browser, eventType: string, step: int, formData: Payload, now: int, nowIso: string)
    modifies b
    ensures b.local == AfterTrack(old(b.local), eventType, step, formData, now, nowIso)
    ensures b.session == old(b.session)
  {
    var trackingData := GetTrackingData(b.local);
    if trackingData.None? {
      return;
    }
    var stepStartTime := StepStart(b.local);
    var timeOnStep := if stepStartTime.Some? then now - stepStartTime.value else 0;
    var event := FunnelEvent(eventType, nowIso, step, trackingData.value.utms, formData, timeOnStep);
    var existingEvents := GetFunnelEvents(b.local);
    SaveFunnelEvents(b, existingEvents + [event]);
    b.local := b.local[StepStartKey := Millis(now)];
  }

  /** `startStepTiming`. */
  method StartStepTiming(b: Browser, now: int)
    modifies b
    ensures b.local == old(b.local)[StepStartKey := Millis(now)] && b.session == old(b.session)
  {
    b.local := b.local[StepStartKey := Millis(now)];
  }

  /** `Math.floor(a / b)` for a positive divisor: Dafny's division rounds down when `b > 0`. */
  function FloorDiv(a: int, b: int): int
    requires b > 0
  {
    a / b
  }

  /** JavaScript's `a % b`: the remainder takes the sign of the dividend. */
  function JsRem(a: int, b: int): (r: int)
    requires b > 0
    ensures a >= 0 ==> 0 <= r < b
    ensures a < 0 ==> -b < r <= 0
  {
    if a >= 0 then a % b else -((-a) % b)
  }

  /** `getTotalSessionTime`: '0s' with no start; otherwise 'Xm Ys' when X > 0, else 'Ys'. */
  function TotalSessionTime(local: map<string, Stored>, now: int): string {
    if SessionStartKey !in local || !local[SessionStartKey].Millis? then "0s"
    else
      var totalMs := now - local[SessionStartKey].ms;
      var minutes := FloorDiv(totalMs, 60000);
      var seconds := FloorDiv(JsRem(totalMs, 60000), 1000);
      if minutes > 0 then IntToString(minutes) + "m " + IntToString(seconds) + "s"
      else IntToString(seconds) + "s"
  }

  /**
   * For a clock that has not gone backwards, the seconds part is 0..59 and
   * the minutes part is shown exactly when a full minute has passed.
   */
  lemma {:induction false} SessionTimeShape(start: int, now: int)
    requires now >= start
    ensures var totalMs := now - start;
      var minutes := FloorDiv(totalMs, 60000);
      var seconds := FloorDiv(JsRem(totalMs, 60000), 1000);
      0 <= seconds < 60 && minutes >= 0 && minutes * 60000 + seconds * 1000 <= totalMs < minutes * 60000 + seconds * 1000 + 1000
      && (minutes > 0 <==> totalMs >= 60000)
  {
    var totalMs := now - start;
    var r := JsRem(totalMs, 60000);
    assert r == totalMs % 60000;
    assert totalMs == (totalMs / 60000) * 60000 + r;
    assert r == (r / 1000) * 1000 + r % 1000;
  }

  /** `initializeSessionTiming`: set the session start unless one is there. */
  method InitializeSessionTiming(b: Browser, now: int)
    modifies b
    ensures SessionStartKey in old(b.local) && old(b.local)[SessionStartKey] != Plain("") ==> b.local == old(b.local)
    ensures !(SessionStartKey in old(b.local) && old(b.local)[SessionStartKey] != Plain("")) ==>
      b.local == old(b.local)[SessionStartKey := Millis(now)]
    ensures SessionStartKey in b.local && b.local[SessionStartKey] != Plain("")
    ensures b.session == old(b.session)
  {
    if !(SessionStartKey in b.local && b.local[SessionStartKey] != Plain("")) {
      b.local := b.local[SessionStartKey := Millis(now)];
    }
  }

  /** `clearTrackingData`: the four tracking keys and the stored UTMs are removed; nothing else. */
  method ClearTrackingData(b: Browser)
    modifies b
    ensures b.local == old(b.local) - {TrackingDataKey, FunnelEventsKey, StepStartKey, SessionStartKey}
    ensures b.session == old(b.session) - {StoredUtmsKey}
    ensures GetTrackingData(b.local) == None && GetFunnelEvents(b.local) == [] && TotalSessionTime(b.local, 0) == "0s"
  {
    b.local := b.local - {TrackingDataKey, FunnelEventsKey, StepStartKey, SessionStartKey};
    b.session := b.session - {StoredUtmsKey};
  }

  /** `getFormDataBackup`. */
  function GetFormDataBackup(local: map<string, Stored>): Option<Fields> {
    if FormBackupKey in local && local[FormBackupKey].FieldsJson? then Some(local[FormBackupKey].fields) else None
  }

  method SaveFormDataBackup(b: Browser, formData: Fields)
    modifies b
    ensures b.local == old(b.local)[FormBackupKey := FieldsJson(formData)] && b.session == old(b.session)
    ensures GetFormDataBackup(b.local) == Some(formData)
  {
    b.local := b.local[FormBackupKey := FieldsJson(formData)];
  }

  method ClearFormDataBackup(b: Browser)
    modifies b
    ensures b.local == old(b.local) - {FormBackupKey} && b.session == old(b.session)
    ensures GetFormDataBackup(b.local) == None
  {
    b.local := b.local - {FormBackupKey};
  }

  // ---------------------------------------------------------------------
  // formatTrackingForSubmission

  datatype ConversionData = ConversionData(
    totalTime: string, completedSteps: nat, finalAction: string, conversionValue: string)

  datatype Submission = Submission(
    leadData: Fields, trackingData: TrackingData, funnelEvents: seq<FunnelEvent>, conversionData: ConversionData)

  /** The number of events whose name starts with 'step_'. */
  function CountStepEvents(events: seq<FunnelEvent>): (n: nat)
    ensures n <= |events|
  {
    if events == [] then 0
    else CountStepEvents(events[..|events| - 1]) + (if StartsWith(events[|events| - 1].event, "step_") then 1 else 0)
  }

  lemma {:induction false} CountStepEventsAppend(a: seq<FunnelEvent>, b: seq<FunnelEvent>)
    ensures CountStepEvents(a + b) == CountStepEvents(a) + CountStepEvents(b)
    decreases |b|
  {
    if b == [] {
      assert a + b == a;
    } else {
      var b' := b[..|b| - 1];
      assert (a + b)[..|a + b| - 1] == a + b';
      assert (a + b)[|a + b| - 1] == b[|b| - 1];
      CountStepEventsAppend(a, b');
      assert CountStepEvents(a + b) == CountStepEvents(a + b') + (if StartsWith(b[|b| - 1].event, "step_") then 1 else 0);
      assert CountStepEvents(b) == CountStepEvents(b') + (if StartsWith(b[|b| - 1].event, "step_") then 1 else 0);
    }
  }

  /**
   * `formatTrackingForSubmission`: null without tracking data; otherwise
   * the lead, the tracking record, the events and the conversion summary.
   */
  function FormatTrackingForSubmission(local: map<string, Stored>, leadData: Fields, finalAction: string, now: int)
    : (r: Option<Submission>)
    ensures r.Some? <==> GetTrackingData(local).Some?
    ensures r.Some? ==> (r.value.funnelEvents == GetFunnelEvents(local)
      && r.value.conversionData.completedSteps <= |GetFunnelEvents(local)|
      && r.value.conversionData.conversionValue == FieldOr(leadData, "precoTratamento"))
  {
    var trackingData := GetTrackingData(local);
    var events := GetFunnelEvents(local);
    if trackingData.None? then None
    else Some(Submission(leadData, trackingData.value, events,
      ConversionData(TotalSessionTime(local, now), CountStepEvents(events), finalAction,
                     FieldOr(leadData, "precoTratamento"))))
  }

  /**
   * 'step_back' and 'step_edit' events also start with 'step_', so each
   * one is counted as a completed step.
   */
  lemma {:induction false} BackNavigationCountsAsStep(events: seq<FunnelEvent>, e: FunnelEvent)
    requires e.event == "step_back" || e.event == "step_edit"
    ensures CountStepEvents(events + [e]) == CountStepEvents(events) + 1
  {
    assert (events + [e])[..|events|] == events;
    assert e.event[..5] == "step_";
  }
}
