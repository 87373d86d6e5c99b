/**
 * The CEP modal of the purchase-method step: the visitor types a CEP, the
 * modal asks the ViaCEP service about it and decides whether the address
 * is served by delivery. The service's answer is an input of the model.
 */
module CepValidationModal {
  import opened Text
  import opened TrackingTypes
  import opened Storage
  import opened Tracking
  import opened Cep

  /** What the modal shows after a lookup. */
  datatype ValidationResult = ValidationResult(isValid: bool, city: Option<string>, message: string)

  const NotFoundMessage := "CEP não encontrado." + " Verifique o CEP informado."

  /** `city?.toLowerCase().includes('divinópolis')`: false when the service gave no city. */
  predicate CityIsDivinopolis(city: Option<string>) {
    city.Some? && Contains(ToLower(city.value), "divinópolis")
  }

  /** A missing city interpolated into a template literal reads 'undefined'. */
  function CityText(city: Option<string>): string {
    if city.Some? then city.value else "undefined"
  }

  /**
   * The verdict reported to the caller: none when the CEP does not exist;
   * the city test or the range test when the service answered; the range
   * test alone when the lookup failed.
   */
  function Verdict(cleanCep: string, response: ViaCepResponse): (v: Option<bool>)
    ensures v.None? <==> response.NotFound?
    ensures response.Found? ==> v == Some(CityIsDivinopolis(response.localidade) || IsValidDivinopolisCEP(cleanCep))
    ensures response.Failed? ==> v == Some(IsValidDivinopolisCEP(cleanCep))
  {
    match response
    case NotFound => None
    case Found(_, _, city) => Some(CityIsDivinopolis(city) || IsValidDivinopolisCEP(cleanCep))
    case Failed => Some(IsValidDivinopolisCEP(cleanCep))
  }

  /** The result shown for each answer of the service. */
  function ResultFor(cleanCep: string, response: ViaCepResponse): ValidationResult {
    match response
    case NotFound => ValidationResult(false, None, NotFoundMessage)
    case Found(_, _, city) =>
      var ok := CityIsDivinopolis(city) || IsValidDivinopolisCEP(cleanCep);
      ValidationResult(ok, city,
        if ok then "✅ Ótimo! Atendemos sua região" else "❌ Infelizmente não atendemos " + CityText(city) + " ainda")
    case Failed =>
      var ok := IsValidDivinopolisCEP(cleanCep);
      ValidationResult(ok, None, if ok then "✅ CEP válido para entrega" else "❌ CEP fora da área de atendimento")
  }

  /**
   * The shown result agrees with the reported verdict, a non-existent CEP
   * is shown as rejected, and the message opens with a check mark exactly
   * when the CEP is accepted.
   */
  lemma ResultAgreesWithVerdict(cleanCep: string, response: ViaCepResponse)
    ensures var r := ResultFor(cleanCep, response);
      (Verdict(cleanCep, response).Some? ==> r.isValid == Verdict(cleanCep, response).value)
      && (response.NotFound? ==> !r.isValid && r.message == NotFoundMessage)
      && |r.message| > 0 && (r.message[0] == '✅' <==> r.isValid)
  {
    var r := ResultFor(cleanCep, response);
    match response
    case NotFound =>
      assert r.message[0] == "CEP não encontrado."[0] == 'C';
    case Found(_, _, city) =>
      if !r.isValid {
        var refusal := "❌ Infelizmente não atendemos ";
        assert r.message == refusal + CityText(city) + " ainda";
        assert r.message[0] == refusal[0] == '❌';
      } else {
        assert r.message[0] == '✅';
      }
    case Failed =>
      assert r.message[0] == (if r.isValid then '✅' else '❌');
  }

  /**
   * The city test only widens the range test: an in-range CEP is accepted
   * whenever the service answers, and a Divinópolis address is accepted
   * even out of range; but a CEP the service does not know is refused even
   * in range.
   */
  lemma RangeOrCityAccepted(cleanCep: string, response: ViaCepResponse)
    ensures IsValidDivinopolisCEP(cleanCep) && !response.NotFound? ==> Verdict(cleanCep, response) == Some(true)
    ensures response.Found? && CityIsDivinopolis(response.localidade) ==> Verdict(cleanCep, response) == Some(true)
    ensures response.NotFound? ==> !ResultFor(cleanCep, response).isValid
  {
  }

  /** The data logged with a blocked delivery: the city only when the service gave one. */
  function BlockedFields(cleanCep: string, city: Option<string>): Fields {
    if city.Some? then map["cep" := cleanCep, "city" := city.value] else map["cep" := cleanCep]
  }

  /** Local storage after a lookup: the request is logged, then a failure or a refusal. */
  function AfterValidate(local: map<string, Stored>, cleanCep: string, response: ViaCepResponse,
                         now: int, nowIso: string): map<string, Stored> {
    var requested := AfterTrack(local, "cep_validation_requested", 1, FormPayload(map["cep" := cleanCep]), now, nowIso);
    match response
    case NotFound =>
      AfterTrack(requested, "cep_validation_failed", 1,
                 FormPayload(map["cep" := cleanCep, "reason" := "cep_not_found"]), now, nowIso)
    case Found(_, _, city) =>
      if CityIsDivinopolis(city) || IsValidDivinopolisCEP(cleanCep) then requested
      else AfterTrack(requested, "delivery_blocked_invalid_cep", 1, FormPayload(BlockedFields(cleanCep, city)), now, nowIso)
    case Failed =>
      if IsValidDivinopolisCEP(cleanCep) then requested
      else AfterTrack(requested, "delivery_blocked_invalid_cep", 1,
                      FormPayload(map["cep" := cleanCep, "reason" := "api_error_fallback"]), now, nowIso)
  }

  /** With tracking data present, a lookup logs two events when it refuses and one when it accepts. */
  lemma AfterValidateEventCount(local: map<string, Stored>, cleanCep: string, response: ViaCepResponse,
                                now: int, nowIso: string)
    requires GetTrackingData(local).Some?
    ensures |GetFunnelEvents(AfterValidate(local, cleanCep, response, now, nowIso))|
      == |GetFunnelEvents(local)| + (if ResultFor(cleanCep, response).isValid then 1 else 2)
  {
    var requested := AfterTrack(local, "cep_validation_requested", 1, FormPayload(map["cep" := cleanCep]), now, nowIso);
    TrackAppendsOne(local, "cep_validation_requested", 1, FormPayload(map["cep" := cleanCep]), now, nowIso);
    assert GetTrackingData(requested) == GetTrackingData(local);
    match response
    case NotFound =>
      TrackAppendsOne(requested, "cep_validation_failed", 1,
                      FormPayload(map["cep" := cleanCep, "reason" := "cep_not_found"]), now, nowIso);
    case Found(_, _, city) =>
      TrackAppendsOne(requested, "delivery_blocked_invalid_cep", 1, FormPayload(BlockedFields(cleanCep, city)), now, nowIso);
    case Failed =>
      TrackAppendsOne(requested, "delivery_blocked_invalid_cep", 1,
                      FormPayload(map["cep" := cleanCep, "reason" := "api_error_fallback"]), now, nowIso);
  }

  /** The state of the `CEPValidationModal` component. */
  class CepModal {
    var cep: string
    var isLoading: bool
    var validationResult: Option<ValidationResult>

    constructor (initialCep: string)
      ensures cep == initialCep && !isLoading && validationResult.None?
    {
      cep := initialCep;
      isLoading := false;
      validationResult := None;
    }

    /** Typing in the field stores the masked value. */
    method SetCepInput(value: string)
      modifies this
      ensures cep == FormatCep(value)
      ensures DigitsOf(cep) == DigitsOf(value)
      ensures isLoading == old(isLoading) && validationResult == old(validationResult)
    {
      cep := FormatCep(value);
      FormatCepKeepsDigits(value);
    }

    /**
     * `validateCEP`. A CEP without exactly eight digits only raises the
     * 'CEP incompleto' toast. Otherwise the request is logged, the result
     * for the service's answer is shown, the outcome logged, and the caller
     * told the typed CEP and the verdict, unless the CEP does not exist.
     */
    method ValidateCEP(b: Browser, response: ViaCepResponse, now: int, nowIso: string)
      returns (toast: Option<(string, string)>, callback: Option<(string, bool)>)
      modifies this, b
      ensures |DigitsOf(old(cep))| != 8 ==>
        toast == Some(("CEP incompleto", "Digite o CEP completo para continuar")) && callback.None?
        && b.local == old(b.local) && isLoading == old(isLoading) && validationResult == old(validationResult)
      ensures |DigitsOf(old(cep))| == 8 ==>
        toast.None? && !isLoading
        && validationResult == Some(ResultFor(DigitsOf(old(cep)), response))
        && b.local == AfterValidate(old(b.local), DigitsOf(old(cep)), response, now, nowIso)
        && callback == (var v := Verdict(DigitsOf(old(cep)), response); if v.Some? then Some((old(cep), v.value)) else None)
      ensures cep == old(cep) && b.session == old(b.session)
    {
      var cleanCep := DigitsOf(cep);
      if |cleanCep| != 8 {
        toast := Some(("CEP incompleto", "Digite o CEP completo para continuar"));
        callback := None;
        return;
      }
      toast := None;
      isLoading := true;
      TrackFunnelEvent(b, "cep_validation_requested", 1, FormPayload(map["cep" := cleanCep]), now, nowIso);
      var isValidRange := IsValidDivinopolisCEP(cleanCep);
      match response {
        case NotFound =>
          validationResult := Some(ValidationResult(false, None, NotFoundMessage));
          TrackFunnelEvent(b, "cep_validation_failed", 1,
                           FormPayload(map["cep" := cleanCep, "reason" := "cep_not_found"]), now, nowIso);
          callback := None;
        case Found(_, _, city) =>
          var isDivinopolis := CityIsDivinopolis(city) || isValidRange;
          validationResult := Some(ValidationResult(isDivinopolis, city,
            if isDivinopolis then "✅ Ótimo! Atendemos sua região"
            else "❌ Infelizmente não atendemos " + CityText(city) + " ainda"));
          if !isDivinopolis {
            TrackFunnelEvent(b, "delivery_blocked_invalid_cep", 1, FormPayload(BlockedFields(cleanCep, city)), now, nowIso);
          }
          callback := Some((cep, isDivinopolis));
        case Failed =>
          validationResult := Some(ValidationResult(isValidRange, None,
            if isValidRange then "✅ CEP válido para entrega" else "❌ CEP fora da área de atendimento"));
          callback := Some((cep, isValidRange));
          if !isValidRange {
            TrackFunnelEvent(b, "delivery_blocked_invalid_cep", 1,
                             FormPayload(map["cep" := cleanCep, "reason" := "api_error_fallback"]), now, nowIso);
          }
      }
      isLoading := false;
    }

    /** The data logged with a redirect: the typed CEP's digits, and the city when one is shown. */
    function RedirectFields(): Fields
      reads this
    {
      var base := map["source" := "cep_validation_modal", "cep" := DigitsOf(cep)];
      if validationResult.Some? && validationResult.value.city.Some? then base["city" := validationResult.value.city.value]
      else base
    }

    /**
     * `handleRedirectToSite`: logs the redirect, then reports the special
     * pair ('site-oficial', true) to the caller, which closes the modal.
     */
    method HandleRedirectToSite(b: Browser, now: int, nowIso: string) returns (callback: (string, bool))
      modifies b
      ensures callback == ("site-oficial", true)
      ensures b.local == AfterTrack(old(b.local), "redirected_to_official_site", 1, FormPayload(RedirectFields()), now, nowIso)
      ensures b.session == old(b.session)
    {
      TrackFunnelEvent(b, "redirected_to_official_site", 1, FormPayload(RedirectFields()), now, nowIso);
      callback := ("site-oficial", true);
    }

    /** `handleTryAgain`: an empty field and no result. */
    method HandleTryAgain()
      modifies this
      ensures cep == "" && validationResult.None? && isLoading == old(isLoading)
    {
      cep := "";
      validationResult := None;
    }
  }
}
