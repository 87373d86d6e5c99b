/**
 * The purchase-method step: buying on the official site (Sedex delivery)
 * skips to the treatment step, while paying on delivery is allowed only
 * for a CEP inside the Divinópolis range, checked at once when the form
 * already holds a full CEP and through the CEP modal otherwise.
 *
 * The component's `updateData` and `onNext` callbacks are its results
 * here: the patch it would merge into the form and the step it would go to.
 */
module PurchaseMethodStep {
  import opened Text
  import opened TrackingTypes
  import opened Storage
  import opened Tracking
  import opened Cep
  import opened FormWizard

  const SiteSedex := "site-sedex"
  const PagarEntrega := "pagar-entrega"

  /** `data.cep || ''`, and whether it holds exactly eight digits. */
  function CurrentCep(data: FormRecord): string {
    FieldOr(data.fields, "cep")
  }

  predicate HasFullCep(data: FormRecord) {
    var c := CurrentCep(data);
    c != "" && |DigitsOf(c)| == 8
  }

  /** The patch that records the purchase method. */
  function ModalityPatch(choice: string): FormPatch {
    FieldsPatch(map["modalidadeCompra" := choice])
  }

  datatype CepStatus = CepStatus(hasValidCEP: bool, cep: string)

  /**
   * `getCurrentCEPStatus`: a full CEP is reported as it is, valid when it is
   * in range; anything else is reported as no CEP, never valid.
   */
  function GetCurrentCEPStatus(data: FormRecord): (r: CepStatus)
    ensures r.hasValidCEP <==> |DigitsOf(CurrentCep(data))| == 8 && IsValidDivinopolisCEP(CurrentCep(data))
    ensures r.cep == if |DigitsOf(CurrentCep(data))| == 8 then CurrentCep(data) else ""
  {
    var currentCep := CurrentCep(data);
    if HasFullCep(data) then CepStatus(IsValidDivinopolisCEP(currentCep), currentCep)
    else CepStatus(false, "")
  }

  /** A valid status is exactly a CEP whose eight digits start 3550 and then 0 to 7. */
  lemma CepStatusPrefix(data: FormRecord)
    ensures var d := DigitsOf(CurrentCep(data));
      GetCurrentCEPStatus(data).hasValidCEP <==>
        (|d| == 8 && d[0] == '3' && d[1] == '5' && d[2] == '5' && d[3] == '0' && '0' <= d[4] <= '7')
  {
    if |DigitsOf(CurrentCep(data))| == 8 {
      DivinopolisPrefix(CurrentCep(data));
    }
  }

  /** `handleCEPValidated`'s form update: modality and CEP when accepted, nothing otherwise. */
  function ValidatedPatch(cep: string, isValid: bool): (p: Option<FormPatch>)
    ensures p.Some? <==> isValid
    ensures isValid ==> p.value.fields == map["modalidadeCompra" := PagarEntrega, "cep" := cep]
  {
    if isValid then Some(FieldsPatch(map["modalidadeCompra" := PagarEntrega, "cep" := cep])) else None
  }

  /**
   * The CEP modal's "buy on the official site" button reports
   * ('site-oficial', true). This step takes that as an accepted CEP: the
   * form ends up with pay-on-delivery and the CEP 'site-oficial', a value
   * with no digits that the range check itself rejects.
   */
  lemma SiteOficialStoredAsCep(data: FormRecord)
    ensures var after := Merge(data, ValidatedPatch("site-oficial", true).value);
      CurrentCep(after) == "site-oficial" && FieldOr(after.fields, "modalidadeCompra") == PagarEntrega
      && !IsValidDivinopolisCEP(CurrentCep(after))
      && GetCurrentCEPStatus(after) == CepStatus(false, "")
  {
    var s := "site-oficial";
    assert forall i :: 0 <= i < |s| ==> !IsDigit(s[i]);
    DigitsOfNoDigit(s);
    var p := ValidatedPatch(s, true).value;
    var after := Merge(data, p);
    assert "cep" in p.fields && p.fields["cep"] == s;
    assert "modalidadeCompra" in p.fields && p.fields["modalidadeCompra"] == PagarEntrega;
    assert CurrentCep(after) == s;
    assert DigitsOf(CurrentCep(after)) == "";
  }

  /** The state of the `PurchaseMethodStep` component. */
  class PurchaseMethod {
    var showCEPModal: bool
    var showRedirectModal: bool
    var cepValidated: bool
    var isValidForDelivery: bool

    constructor ()
      ensures !showCEPModal && !showRedirectModal && !cepValidated && !isValidForDelivery
    {
      showCEPModal := false;
      showRedirectModal := false;
      cepValidated := false;
      isValidForDelivery := false;
    }

    /**
     * `handleSelectMethod`. Sedex records the method and jumps to step 3
     * whatever the CEP. Pay-on-delivery with a full CEP in range records
     * the method and goes to step 2; with a full CEP out of range it logs
     * the blocked delivery and opens the redirect dialog, recording nothing;
     * without a full CEP it only opens the CEP modal. Any other method does
     * nothing.
     */
    method HandleSelectMethod(b: Browser, data: FormRecord, choice: string, now: int, nowIso: string)
      returns (patch: Option<FormPatch>, target: Option<int>)
      modifies this, b
      ensures choice == SiteSedex ==>
        patch == Some(ModalityPatch(SiteSedex)) && target == Some(3) && b.local == old(b.local)
        && showCEPModal == old(showCEPModal) && showRedirectModal == old(showRedirectModal)
      ensures choice == PagarEntrega && HasFullCep(data) && IsValidDivinopolisCEP(CurrentCep(data)) ==>
        patch == Some(ModalityPatch(PagarEntrega)) && target == Some(2) && b.local == old(b.local)
        && showCEPModal == old(showCEPModal) && showRedirectModal == old(showRedirectModal)
      ensures choice == PagarEntrega && HasFullCep(data) && !IsValidDivinopolisCEP(CurrentCep(data)) ==>
        patch.None? && target.None? && showRedirectModal && showCEPModal == old(showCEPModal)
        && b.local == AfterTrack(old(b.local), "delivery_blocked_invalid_cep", 1,
                                 FormPayload(map["cep" := DigitsOf(CurrentCep(data)), "context" := "existing_cep"]),
                                 now, nowIso)
      ensures choice == PagarEntrega && !HasFullCep(data) ==>
        patch.None? && target.None? && showCEPModal && showRedirectModal == old(showRedirectModal)
        && b.local == old(b.local)
      ensures choice != SiteSedex && choice != PagarEntrega ==>
        patch.None? && target.None? && b.local == old(b.local)
        && showCEPModal == old(showCEPModal) && showRedirectModal == old(showRedirectModal)
      ensures cepValidated == old(cepValidated) && isValidForDelivery == old(isValidForDelivery)
      ensures b.session == old(b.session)
    {
      patch, target := None, None;
      if choice == SiteSedex {
        patch, target := Some(ModalityPatch(choice)), Some(3);
        return;
      }
      if choice == PagarEntrega {
        var currentCep := CurrentCep(data);
        if currentCep != "" && |DigitsOf(currentCep)| == 8 {
          var isValid := IsValidDivinopolisCEP(currentCep);
          if isValid {
            patch, target := Some(ModalityPatch(choice)), Some(2);
          } else {
            TrackFunnelEvent(b, "delivery_blocked_invalid_cep", 1,
                             FormPayload(map["cep" := DigitsOf(currentCep), "context" := "existing_cep"]), now, nowIso);
            showRedirectModal := true;
          }
        } else {
          showCEPModal := true;
        }
      }
    }

    /**
     * `handleCEPValidated`: the verdict is remembered and the CEP modal
     * closes; an accepted CEP is recorded with pay-on-delivery and the
     * wizard goes to step 2, a rejected one opens the redirect dialog.
     */
    method HandleCEPValidated(cep: string, isValid: bool) returns (patch: Option<FormPatch>, target: Option<int>)
      modifies this
      ensures cepValidated && isValidForDelivery == isValid && !showCEPModal
      ensures patch == ValidatedPatch(cep, isValid)
      ensures target == if isValid then Some(2) else None
      ensures showRedirectModal == (old(showRedirectModal) || !isValid)
    {
      cepValidated := true;
      isValidForDelivery := isValid;
      patch := ValidatedPatch(cep, isValid);
      if isValid {
        showCEPModal := false;
        target := Some(2);
      } else {
        showCEPModal := false;
        showRedirectModal := true;
        target := None;
      }
    }

    /** `handleRedirectToSite`: logs the redirect at step 1 and closes the dialog. */
    method HandleRedirectToSite(b: Browser, now: int, nowIso: string)
      modifies this, b
      ensures b.local == AfterTrack(old(b.local), "redirected_to_official_site", 1,
                                    FormPayload(map["source" := "purchase_method_redirect_modal"]), now, nowIso)
      ensures !showRedirectModal
      ensures showCEPModal == old(showCEPModal) && cepValidated == old(cepValidated)
      ensures isValidForDelivery == old(isValidForDelivery) && b.session == old(b.session)
    {
      TrackFunnelEvent(b, "redirected_to_official_site", 1,
                       FormPayload(map["source" := "purchase_method_redirect_modal"]), now, nowIso);
      showRedirectModal := false;
    }
  }
}
