/**
 * The treatment step: four kits of the product, one of them highlighted,
 * with the chosen kit and its price text recorded in the form.
 */
module TreatmentStep {
  import opened Text
  import opened TrackingTypes
  import opened FormWizard

  datatype Kit = Kit(
    id: string,
    name: string,
    description: string,
    originalPrice: string,
    installments: string,
    pixPrice: string,
    popular: bool)

  /** `treatments`, in the order they are shown. */
  const Treatments: seq<Kit> := [
    Kit("3-potes", "3 Potes", "Tratamento mais vendido", "R$997,00", "12x R$33,08", "R$397,00", false),
    Kit("5-potes", "5 Potes", "Máximo resultado", "R$1.712,00", "12x R$45,58", "R$547,00", true),
    Kit("2-potes", "2 Potes", "Para iniciantes", "R$697,00", "12x R$24,75", "R$297,00", false),
    Kit("1-pote", "1 Pote", "Para testar", "R$397,00", "12x R$16,41", "R$197,00", false)]

  /** The kit preselected when the form holds none. */
  const DefaultTreatment := "5-potes"

  /** `list.find(t => t.id === id)`: the first kit with that id, if any. */
  function Find(list: seq<Kit>, id: string): (r: Option<Kit>)
    ensures r.None? <==> forall k :: 0 <= k < |list| ==> list[k].id != id
    ensures r.Some? ==>
      r.value.id == id &&
      exists k :: 0 <= k < |list| && list[k] == r.value && forall k' :: 0 <= k' < k ==> list[k'].id != id
  {
    if list == [] then None
    else if list[0].id == id then Some(list[0])
    else
      var rest := Find(list[1..], id);
      if rest.Some? then
        var k :| 0 <= k < |list[1..]| && list[1..][k] == rest.value && rest.value.id == id
                 && forall k' :: 0 <= k' < k ==> list[1..][k'].id != id;
        assert list[k + 1] == rest.value;
        Some(rest.value)
      else None
  }

  /** The price text recorded with a kit: instalments, then the Pix price. */
  function PriceText(t: Kit): string {
    t.installments + " ou " + t.pixPrice + " no Pix"
  }

  /** No two kits share an id, and exactly one, the default, is marked popular. */
  lemma TreatmentTable()
    ensures forall i, j :: 0 <= i < j < |Treatments| ==> Treatments[i].id != Treatments[j].id
    ensures forall i :: 0 <= i < |Treatments| ==> (Treatments[i].popular <==> Treatments[i].id == DefaultTreatment)
    ensures exists i :: 0 <= i < |Treatments| && Treatments[i].id == DefaultTreatment
  {
    assert "3-potes"[0] == '3' && "5-potes"[0] == '5' && "2-potes"[0] == '2' && "1-pote"[0] == '1';
    assert Treatments[1].id == DefaultTreatment;
  }

  /** Each id on the table finds its own kit. */
  lemma FindEachTreatment(i: nat)
    requires i < |Treatments|
    ensures Find(Treatments, Treatments[i].id) == Some(Treatments[i])
  {
    TreatmentTable();
    var r := Find(Treatments, Treatments[i].id);
    var k :| 0 <= k < |Treatments| && Treatments[k] == r.value && r.value.id == Treatments[i].id;
    assert k == i;
  }

  /** The state of the `TreatmentStep` component. */
  class TreatmentChoice {
    var selectedTreatment: string
    var error: string

    /** The selection starts from the form's kit, or the popular kit when it has none. */
    constructor (data: FormRecord)
      ensures selectedTreatment == if FieldOr(data.fields, "tipoTratamento") != "" then FieldOr(data.fields, "tipoTratamento") else DefaultTreatment
      ensures error == ""
    {
      var stored := FieldOr(data.fields, "tipoTratamento");
      selectedTreatment := if stored != "" then stored else DefaultTreatment;
      error := "";
    }

    /**
     * `handleTreatmentSelect`: a kit on the table is selected and recorded
     * with its price text, and the error cleared; an unknown id changes nothing.
     */
    method HandleTreatmentSelect(treatmentId: string) returns (patch: Option<FormPatch>)
      modifies this
      ensures Find(Treatments, treatmentId).None? ==>
        patch.None? && selectedTreatment == old(selectedTreatment) && error == old(error)
      ensures Find(Treatments, treatmentId).Some? ==>
        selectedTreatment == treatmentId && error == ""
        && patch == Some(FieldsPatch(map["tipoTratamento" := treatmentId,
                                         "precoTratamento" := PriceText(Find(Treatments, treatmentId).value)]))
    {
      var treatment := Find(Treatments, treatmentId);
      if treatment.Some? {
        selectedTreatment := treatmentId;
        patch := Some(FieldsPatch(map["tipoTratamento" := treatmentId,
                                      "precoTratamento" := PriceText(treatment.value)]));
        error := "";
      } else {
        patch := None;
      }
    }

    /** `handleNext`: without a selection the error is shown and the wizard stays. */
    method HandleNext() returns (advance: bool)
      modifies this
      ensures advance <==> selectedTreatment != ""
      ensures !advance ==> error == "Selecione um tratamento para continuar"
      ensures advance ==> error == old(error)
      ensures selectedTreatment == old(selectedTreatment)
    {
      if selectedTreatment == "" {
        error := "Selecione um tratamento para continuar";
        advance := false;
        return;
      }
      advance := true;
    }
  }

  /**
   * The preselected kit is only shown, not recorded: a visitor who goes on
   * without clicking a kit leaves the step with no kit in the form.
   */
  method AdvanceWithoutChoice(data: FormRecord) returns (advance: bool)
    requires FieldOr(data.fields, "tipoTratamento") == ""
    ensures advance
  {
    var step := new TreatmentChoice(data);
    advance := step.HandleNext();
  }
}
