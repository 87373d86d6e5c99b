/**
 * The hooks that drive the attribution tracker from the wizard: the
 * once-per-page initialisation (first visit or continued session), the
 * step tracker with its per-step validation and step-3 retry, the
 * submission tracker and the navigation events.
 *
 * Timers are not modelled: a scheduled attempt is taken to run, and the
 * attempts of one chain share the form data the effect captured.
 */
module UseUtmTracking {
  import opened Text
  import opened TrackingTypes
  import opened Storage
  import opened Tracking

  // ---------------------------------------------------------------------
  // validateFormData / isValidData

  /** The fields `validateFormData` keeps at steps 1 to 4. */
  function StepKeys(step: int): set<string> {
    if step == 1 then {"modalidadeCompra"}
    else if step == 2 then {"nome", "email", "telefone"}
    else if step == 3 then {"tipoTratamento", "precoTratamento", "modalidadeCompra"}
    else if step == 4 then {"dataAgendamento", "horarioAgendamento"}
    else {}
  }

  /** `{ k: formData.k || '' }` for each kept field. */
  function Project(f: Fields, keys: set<string>): (r: Fields)
    ensures r.Keys == keys
    ensures forall k :: k in keys ==> r[k] == FieldOr(f, k)
  {
    map k | k in keys :: FieldOr(f, k)
  }

  /**
   * `validateFormData`: `{}` for missing data; at steps 1 to 4 the step's
   * fields with '' defaults; at any other step the data unchanged.
   */
  function ValidateFormData(step: int, formData: Option<Fields>): (r: Fields)
    ensures formData.None? ==> r == map[]
    ensures formData.Some? && 1 <= step <= 4 ==>
      (r.Keys == StepKeys(step) && forall k :: k in r ==> r[k] == FieldOr(formData.value, k))
    ensures formData.Some? && !(1 <= step <= 4) ==> r == formData.value
  {
    if formData.None? then map[]
    else if 1 <= step <= 4 then Project(formData.value, StepKeys(step))
    else formData.value
  }

  /** `isValidData`: the step's required fields are truthy; steps without requirements pass. */
  predicate IsValidData(step: int, data: Option<Fields>) {
    if data.None? then false
    else
      var d := data.value;
      if step == 1 then Filled(d, "modalidadeCompra")
      else if step == 2 then Filled(d, "nome") && Filled(d, "email")
      else if step == 3 then Filled(d, "tipoTratamento") && Filled(d, "precoTratamento")
      else if step == 4 then Filled(d, "dataAgendamento") || Filled(d, "horarioAgendamento")
      else true
  }

  /** What each step needs of the raw form data for the tracker to call it complete. */
  predicate StepComplete(step: int, formData: Option<Fields>) {
    if step == 1 then formData.Some? && Filled(formData.value, "modalidadeCompra")
    else if step == 2 then formData.Some? && Filled(formData.value, "nome") && Filled(formData.value, "email")
    else if step == 3 then formData.Some? && Filled(formData.value, "tipoTratamento") && Filled(formData.value, "precoTratamento")
    else if step == 4 then formData.Some? && (Filled(formData.value, "dataAgendamento") || Filled(formData.value, "horarioAgendamento"))
    else true
  }

  /**
   * Validation after projection judges the raw data: the projected record
   * passes exactly when the raw data has the step's required fields. The
   * phone is not required at step 2, and at step 5 or beyond even missing
   * data passes, because `{}` is an object.
   */
  lemma ValidatedIffComplete(step: int, formData: Option<Fields>)
    ensures IsValidData(step, Some(ValidateFormData(step, formData))) <==> StepComplete(step, formData)
  {
    if formData.Some? && 1 <= step <= 4 {
      var v := ValidateFormData(step, formData);
      forall k | k in StepKeys(step)
        ensures Filled(v, k) <==> Filled(formData.value, k)
      {
      }
    }
  }

  /**
   * The wizard stores the schedule as 'diaAgenda' and 'horarioAgenda', but
   * step 4 is judged on 'dataAgendamento' and 'horarioAgendamento': wizard
   * data never passes step-4 validation, however complete.
   */
  lemma WizardScheduleNeverValid(f: Fields)
    requires "dataAgendamento" !in f && "horarioAgendamento" !in f
    ensures !IsValidData(4, Some(ValidateFormData(4, Some(f))))
  {
    ValidatedIffComplete(4, Some(f));
  }

  /** `getDelay`. */
  function GetDelay(step: int): (ms: nat)
    ensures step == 3 ==> ms == 300
    ensures step == 4 ==> ms == 200
    ensures step == 5 ==> ms == 250
    ensures step != 3 && step != 4 && step != 5 ==> ms == 100
  {
    if step == 3 then 300 else if step == 4 then 200 else if step == 5 then 250 else 100
  }

  /** `eventMap[step]`: only steps 1 to 5 have an event type, and each one starts with 'step_'. */
  function EventType(step: int): (e: Option<string>)
    ensures e.Some? <==> 1 <= step <= 5
    ensures e.Some? ==> StartsWith(e.value, "step_")
  {
    if step == 1 then Some("step_1_modalidade")
    else if step == 2 then Some("step_2_dados_pessoais")
    else if step == 3 then Some("step_3_tratamento")
    else if step == 4 then Some("step_4_agendamento")
    else if step == 5 then Some("step_5_revisao")
    else None
  }

  // ---------------------------------------------------------------------
  // useStepTracking

  /** The number of attempts the retry makes: three at an incomplete step 3, otherwise one. */
  function Attempts(step: int, formData: Option<Fields>): nat {
    if step == 3 && !IsValidData(3, Some(ValidateFormData(3, formData))) then 3 else 1
  }

  /**
   * `attemptTracking`: validate, and either track or (at step 3 only, up
   * to the third attempt) try again. The data is the same on every
   * attempt, so a retry never turns an invalid record into a valid one;
   * every chain ends in exactly one tracked event.
   */
  method AttemptTracking(b: Browser, eventType: string, currentStep: int, formData: Option<Fields>, now: int, nowIso: string)
    returns (attempts: nat)
    modifies b
    ensures attempts == Attempts(currentStep, formData)
    ensures 1 <= attempts <= 3 && (currentStep != 3 ==> attempts == 1)
    ensures b.local == AfterTrack(old(b.local), eventType, currentStep,
                                  FormPayload(ValidateFormData(currentStep, formData)), now, nowIso)
    ensures b.session == old(b.session)
  {
    var attempt := 1;
    var validatedData := ValidateFormData(currentStep, formData);
    while !(IsValidData(currentStep, Some(validatedData)) || attempt > 2) && currentStep == 3 && attempt <= 2
      invariant 1 <= attempt <= 3
      invariant validatedData == ValidateFormData(currentStep, formData)
      invariant attempt > 1 ==> currentStep == 3 && !IsValidData(3, Some(validatedData))
      decreases 3 - attempt
    {
      attempt := attempt + 1;
      validatedData := ValidateFormData(currentStep, formData);
    }
    TrackFunnelEvent(b, eventType, currentStep, FormPayload(validatedData), now, nowIso);
    attempts := attempt;
  }

  /**
   * The step tracker of `useStepTracking`. When a step has an event type
   * the effect returns before recording the step, so `previousStep` is
   * only ever set for steps without one.
   */
  class StepTracker {
    var previousStep: int
    var isTracking: bool

    constructor ()
      ensures previousStep == 0 && !isTracking
    {
      previousStep := 0;
      isTracking := false;
    }

    /** The effect for `currentStep` and `formData`, with its timer run to the end. */
    method OnStep(b: Browser, currentStep: int, formData: Option<Fields>, now: int, nowIso: string)
      modifies this, b
      ensures currentStep != old(previousStep) && 1 <= currentStep <= 5 ==>
        b.local == AfterTrack(old(b.local), EventType(currentStep).value, currentStep,
                              FormPayload(ValidateFormData(currentStep, formData)), now, nowIso)
      ensures !(currentStep != old(previousStep) && 1 <= currentStep <= 5) ==> b.local == old(b.local)
      ensures previousStep == if currentStep != old(previousStep) && currentStep > 5 then currentStep else old(previousStep)
      ensures currentStep != old(previousStep) && 1 <= currentStep <= 5 ==> !isTracking
      ensures !(currentStep != old(previousStep) && 1 <= currentStep <= 5) ==> isTracking == old(isTracking)
      ensures b.session == old(b.session)
    {
      if currentStep != previousStep && currentStep > 0 {
        var eventType := EventType(currentStep);
        if eventType.Some? {
          isTracking := true;
          var _ := AttemptTracking(b, eventType.value, currentStep, formData, now, nowIso);
          isTracking := false;
          return;
        }
        previousStep := currentStep;
      }
    }
  }

  // ---------------------------------------------------------------------
  // useUTMTracking

  /**
   * A continued session: the stored record takes the URL's UTMs only when
   * their source is non-empty and differs from the stored source.
   */
  function ContinuedData(existing: TrackingData, current: UTMParams): (r: TrackingData)
    ensures current.utmSource != "" && current.utmSource != existing.utms.utmSource ==> r == existing.(utms := current)
    ensures !(current.utmSource != "" && current.utmSource != existing.utms.utmSource) ==> r == existing
    ensures r.sessionId == existing.sessionId && r.timestampAcesso == existing.timestampAcesso
  {
    if current.utmSource != "" && current.utmSource != existing.utms.utmSource then existing.(utms := current)
    else existing
  }

  /** Continuing again with the same URL changes nothing more. */
  lemma ContinuedDataIdempotent(existing: TrackingData, current: UTMParams)
    ensures ContinuedData(ContinuedData(existing, current), current) == ContinuedData(existing, current)
  {
  }

  /** The state of `useUTMTracking`. */
  class UtmTrackingHook {
    var initialized: bool
    var trackingData: Option<TrackingData>
    var isReady: bool

    constructor ()
      ensures !initialized && trackingData == None && !isReady
    {
      initialized := false;
      trackingData := None;
      isReady := false;
    }

    /**
     * The mount effect: only once; on a first visit build, save and time
     * the tracking record and track the page view; in a continued session
     * update the stored UTMs as `ContinuedData` says.
     */
    method Initialize(b: Browser, env: Env, newSessionId: string)
      modifies this, b
      ensures old(initialized) ==>
        (trackingData == old(trackingData) && isReady == old(isReady)
         && b.local == old(b.local) && b.session == old(b.session))
      ensures !old(initialized) && GetTrackingData(old(b.local)).None? ==>
        trackingData == Some(FirstVisitData(env, newSessionId, old(b.session)))
      ensures !old(initialized) && GetTrackingData(old(b.local)).Some? ==>
        trackingData == Some(ContinuedData(GetTrackingData(old(b.local)).value,
                                           Extracted(env, StoredRedirect(old(b.session)), StoredUtms(old(b.session)))))
      ensures !old(initialized) ==>
        (isReady && GetTrackingData(b.local) == trackingData && b.session == SessionAfterExtract(env, old(b.session)))
      ensures initialized
    {
      if initialized {
        return;
      }
      initialized := true;
      var existingData := GetTrackingData(b.local);
      var data: TrackingData;
      if existingData.None? {
        data := FirstVisit(b, env, newSessionId);
      } else {
        data := ContinueSession(b, env, existingData.value);
      }
      trackingData := Some(data);
      isReady := true;
    }
  }

  /** The record a first visit creates, given the session storage it found. */
  function FirstVisitData(env: Env, newSessionId: string, session: map<string, Stored>): TrackingData {
    TrackingData(Extracted(env, StoredRedirect(session), StoredUtms(session)),
                 env.nowIso, env.userAgent, env.referrer, env.href, newSessionId)
  }

  /**
   * The first-visit branch of the mount effect: create and save the record,
   * start the session clock, and track the page view at step 0.
   */
  method FirstVisit(b: Browser, env: Env, newSessionId: string) returns (data: TrackingData)
    modifies b
    ensures data == FirstVisitData(env, newSessionId, old(b.session))
    ensures GetTrackingData(b.local) == Some(data)
    ensures GetFunnelEvents(b.local) == GetFunnelEvents(old(b.local))
      + [EventFor("page_view", 0, NoPayload, data, StepStart(old(b.local)), env.now, env.nowIso)]
    ensures StepStart(b.local) == Some(env.now)
    ensures b.session == SessionAfterExtract(env, old(b.session))
  {
    ghost var local0 := b.local;
    data := CreateTrackingData(b, env, newSessionId);
    SaveTrackingData(b, data);
    ghost var saved := b.local;
    RecordKeyKept(local0, TrackingJson(data));
    InitializeSessionTiming(b, env.now);
    ghost var timed := b.local;
    OtherKeysKept(saved, SessionStartKey, Millis(env.now));
    assert GetTrackingData(timed) == Some(data)
      && GetFunnelEvents(timed) == GetFunnelEvents(local0) && StepStart(timed) == StepStart(local0);
    TrackFunnelEvent(b, "page_view", 0, NoPayload, env.now, env.nowIso);
    TrackAppendsOne(timed, "page_view", 0, NoPayload, env.now, env.nowIso);
    ghost var tracked := b.local;
    StartStepTiming(b, env.now);
    OtherKeysKept(tracked, StepStartKey, Millis(env.now));
  }

  /** Writing the session-start or step-start key leaves the record and the events as they were. */
  lemma OtherKeysKept(local: map<string, Stored>, key: string, v: Stored)
    requires key == SessionStartKey || key == StepStartKey
    ensures GetTrackingData(local[key := v]) == GetTrackingData(local)
    ensures GetFunnelEvents(local[key := v]) == GetFunnelEvents(local)
    ensures key == SessionStartKey ==> StepStart(local[key := v]) == StepStart(local)
  {
  }

  /** Writing the tracking record leaves the events and the step clock as they were. */
  lemma RecordKeyKept(local: map<string, Stored>, v: Stored)
    ensures GetFunnelEvents(local[TrackingDataKey := v]) == GetFunnelEvents(local)
    ensures StepStart(local[TrackingDataKey := v]) == StepStart(local)
  {
  }

  /** The continued-session branch of the mount effect. */
  method ContinueSession(b: Browser, env: Env, existing: TrackingData) returns (data: TrackingData)
    modifies b
    ensures data == ContinuedData(existing, Extracted(env, StoredRedirect(old(b.session)), StoredUtms(old(b.session))))
    ensures b.local == if data == existing then old(b.local) else old(b.local)[TrackingDataKey := TrackingJson(data)]
    ensures b.session == SessionAfterExtract(env, old(b.session))
  {
    data := existing;
    var currentUTMs := ExtractUTMParams(b, env);
    if currentUTMs.utmSource != "" && currentUTMs.utmSource != data.utms.utmSource {
      data := data.(utms := currentUTMs);
      SaveTrackingData(b, data);
    }
  }

  // ---------------------------------------------------------------------
  // useSubmissionTracking / useNavigationTracking

  /** `utm_tracking`: the stored record's seven fields, each '' when there is no record. */
  function SubmissionUtms(data: Option<TrackingData>): (u: UTMParams)
    ensures data.Some? ==> u == data.value.utms
    ensures data.None? ==> u == UTMParams("", "", "", "", "", "", "")
  {
    if data.Some? then data.value.utms else UTMParams("", "", "", "", "", "", "")
  }

  /**
   * `trackSubmission`: a 'form_submit' event with the enriched form, then a
   * 'redirect_to_site' event only when a redirect URL is given.
   */
  method TrackSubmission(b: Browser, formData: Fields, redirectUrl: Option<string>, now: int, nowIso: string)
    returns (ok: bool)
    modifies b
    ensures ok
    ensures var enriched := Enriched(formData, SubmissionUtms(GetTrackingData(old(b.local))));
      var submitted := AfterTrack(old(b.local), "form_submit", 5, enriched, now, nowIso);
      b.local == if redirectUrl.Some? && redirectUrl.value != ""
                 then AfterTrack(submitted, "redirect_to_site", 5, RedirectPayload(redirectUrl.value, enriched), now, nowIso)
                 else submitted
    ensures b.session == old(b.session)
  {
    var trackingData := GetTrackingData(b.local);
    var enrichedFormData := Enriched(formData, SubmissionUtms(trackingData));
    TrackFunnelEvent(b, "form_submit", 5, enrichedFormData, now, nowIso);
    if redirectUrl.Some? && redirectUrl.value != "" {
      TrackFunnelEvent(b, "redirect_to_site", 5, RedirectPayload(redirectUrl.value, enrichedFormData), now, nowIso);
    }
    return true;
  }

  /**
   * With a tracking record in place, a submission adds one event, or two
   * when it redirects, and the first carries the record's UTMs.
   */
  lemma SubmissionEventCount(local: map<string, Stored>, formData: Fields, redirectUrl: Option<string>, now: int, nowIso: string)
    requires GetTrackingData(local).Some?
    ensures var enriched := Enriched(formData, SubmissionUtms(GetTrackingData(local)));
      var submitted := AfterTrack(local, "form_submit", 5, enriched, now, nowIso);
      var after := if redirectUrl.Some? && redirectUrl.value != ""
                   then AfterTrack(submitted, "redirect_to_site", 5, RedirectPayload(redirectUrl.value, enriched), now, nowIso)
                   else submitted;
      |GetFunnelEvents(after)| == |GetFunnelEvents(local)| + (if redirectUrl.Some? && redirectUrl.value != "" then 2 else 1)
      && GetFunnelEvents(after)[|GetFunnelEvents(local)|].formData == Enriched(formData, GetTrackingData(local).value.utms)
  {
    var enriched := Enriched(formData, SubmissionUtms(GetTrackingData(local)));
    TrackAppendsOne(local, "form_submit", 5, enriched, now, nowIso);
    var submitted := AfterTrack(local, "form_submit", 5, enriched, now, nowIso);
    if redirectUrl.Some? && redirectUrl.value != "" {
      TrackAppendsOne(submitted, "redirect_to_site", 5, RedirectPayload(redirectUrl.value, enriched), now, nowIso);
      assert GetFunnelEvents(submitted)[|GetFunnelEvents(local)|].formData == enriched;
    }
  }

  /** `trackStepBack`: a 'step_back' event at the step left, with the reason or 'user_back_navigation'. */
  method TrackStepBack(b: Browser, fromStep: int, toStep: int, reason: string, now: int, nowIso: string)
    modifies b
    ensures b.local == AfterTrack(old(b.local), "step_back", fromStep,
      Navigation(fromStep, toStep, if reason != "" then reason else "user_back_navigation", nowIso), now, nowIso)
    ensures b.session == old(b.session)
  {
    var navigationData := Navigation(fromStep, toStep, if reason != "" then reason else "user_back_navigation", nowIso);
    TrackFunnelEvent(b, "step_back", fromStep, navigationData, now, nowIso);
  }

  /** `trackStepEdit`: a 'step_edit' event at the step left, with the edited field or 'unknown'. */
  method TrackStepEdit(b: Browser, fromStep: int, toStep: int, fieldEdited: string, now: int, nowIso: string)
    modifies b
    ensures b.local == AfterTrack(old(b.local), "step_edit", fromStep,
      Navigation(fromStep, toStep, if fieldEdited != "" then fieldEdited else "unknown", nowIso), now, nowIso)
    ensures b.session == old(b.session)
  {
    var editData := Navigation(fromStep, toStep, if fieldEdited != "" then fieldEdited else "unknown", nowIso);
    TrackFunnelEvent(b, "step_edit", fromStep, editData, now, nowIso);
  }
}
