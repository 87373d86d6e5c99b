/**
 * The lead-capture wizard: four steps (personal data, treatment,
 * scheduling, review), the form record merged field by field as the steps
 * update it, submission, and the reset for a new form.
 */
module FormWizard {
  import opened Text
  import opened TrackingTypes

  /** The form: its text fields by name, and the final acceptance box. */
  datatype FormRecord = FormRecord(fields: Fields, aceiteFinal: bool)

  /** `Partial<FormData>`: the text fields supplied, and the box if supplied. */
  datatype FormPatch = FormPatch(fields: Fields, aceiteFinal: Option<bool>)

  const TextFields: set<string> := {
    "nome", "telefone", "email", "cep", "rua", "bairro", "cidade", "numero", "complemento",
    "tipoTratamento", "precoTratamento", "diaAgenda", "horarioAgenda"}

  /** `initialFormData`: every text field '' and the box unticked. */
  const InitialFormData: FormRecord := FormRecord(map k | k in TextFields :: "", false)

  lemma InitialFormDataShape()
    ensures InitialFormData.fields.Keys == TextFields && !InitialFormData.aceiteFinal
    ensures forall k :: k in TextFields ==> InitialFormData.fields[k] == ""
  {
  }

  /** `{ ...prev, ...newData }`: exactly the supplied fields change, to the supplied values. */
  function Merge(f: FormRecord, p: FormPatch): (r: FormRecord)
    ensures r.fields.Keys == f.fields.Keys + p.fields.Keys
    ensures forall k :: k in p.fields ==> r.fields[k] == p.fields[k]
    ensures forall k :: k in f.fields && k !in p.fields ==> r.fields[k] == f.fields[k]
    ensures r.aceiteFinal == if p.aceiteFinal.Some? then p.aceiteFinal.value else f.aceiteFinal
  {
    FormRecord(f.fields + p.fields, if p.aceiteFinal.Some? then p.aceiteFinal.value else f.aceiteFinal)
  }

  /** A patch with only text fields. */
  function FieldsPatch(fields: Fields): FormPatch {
    FormPatch(fields, None)
  }

  /** Two updates in a row are one update with the later values winning. */
  function Then(p: FormPatch, q: FormPatch): FormPatch {
    FormPatch(p.fields + q.fields, if q.aceiteFinal.Some? then q.aceiteFinal else p.aceiteFinal)
  }

  lemma MergeThen(f: FormRecord, p: FormPatch, q: FormPatch)
    ensures Merge(Merge(f, p), q) == Merge(f, Then(p, q))
  {
    assert (f.fields + p.fields) + q.fields == f.fields + (p.fields + q.fields);
  }

  const StepCount: nat := 4

  /** `nextStep`: forward unless at the last step. */
  function Next(step: int): int {
    if step < StepCount then step + 1 else step
  }

  /** `prevStep`: back unless at the first step. */
  function Prev(step: int): int {
    if step > 1 then step - 1 else step
  }

  datatype Move = Forward | Back

  /** The step after a sequence of Next/Prev moves. */
  function Run(step: int, moves: seq<Move>): int {
    if moves == [] then step
    else
      var s := Run(step, moves[..|moves| - 1]);
      if moves[|moves| - 1] == Forward then Next(s) else Prev(s)
  }

  /** From any step in 1..4, moving forward and back never leaves 1..4. */
  lemma {:induction false} RunStaysInRange(step: int, moves: seq<Move>)
    requires 1 <= step <= StepCount
    ensures 1 <= Run(step, moves) <= StepCount
  {
    if moves != [] {
      RunStaysInRange(step, moves[..|moves| - 1]);
    }
  }

  /** Enough forward moves reach the review step from anywhere in range, and no further. */
  lemma {:induction false} ForwardReachesLast(step: int, n: nat)
    requires 1 <= step <= StepCount
    ensures Run(step, seq(n, _ => Forward)) == if step + n <= StepCount then step + n else StepCount
  {
    if n > 0 {
      var moves := seq(n, _ => Forward);
      assert moves[..n - 1] == seq(n - 1, _ => Forward);
      ForwardReachesLast(step, n - 1);
    }
  }

  /** What the wizard shows. */
  datatype Screen = Success | PersonalData | Treatment | Scheduling | Review | Blank

  /** `renderCurrentStep`: one screen per step 1..4, and nothing for any other step. */
  function RenderCurrentStep(step: int): (s: Screen)
    ensures s == Blank <==> !(1 <= step <= StepCount)
    ensures s != Success
  {
    if step == 1 then PersonalData
    else if step == 2 then Treatment
    else if step == 3 then Scheduling
    else if step == 4 then Review
    else Blank
  }

  /** The state of the `FormWizard` component. */
  class Wizard {
    var currentStep: int
    var formData: FormRecord
    var isSubmitting: bool
    var isSuccess: bool

    constructor ()
      ensures currentStep == 1 && formData == InitialFormData && !isSubmitting && !isSuccess
    {
      currentStep := 1;
      formData := InitialFormData;
      isSubmitting := false;
      isSuccess := false;
    }

    /** The screen shown: the success message once submitted, else the current step's. */
    function View(): Screen
      reads this
    {
      if isSuccess then Success else RenderCurrentStep(currentStep)
    }

    method UpdateFormData(newData: FormPatch)
      modifies this
      ensures formData == Merge(old(formData), newData)
      ensures currentStep == old(currentStep) && isSubmitting == old(isSubmitting) && isSuccess == old(isSuccess)
    {
      formData := Merge(formData, newData);
    }

    method NextStep()
      modifies this
      ensures currentStep == Next(old(currentStep))
      ensures 1 <= old(currentStep) <= StepCount ==> 1 <= currentStep <= StepCount
      ensures formData == old(formData) && isSubmitting == old(isSubmitting) && isSuccess == old(isSuccess)
    {
      if currentStep < StepCount {
        currentStep := currentStep + 1;
      }
    }

    method PrevStep()
      modifies this
      ensures currentStep == Prev(old(currentStep))
      ensures 1 <= old(currentStep) <= StepCount ==> 1 <= currentStep <= StepCount
      ensures formData == old(formData) && isSubmitting == old(isSubmitting) && isSuccess == old(isSuccess)
    {
      if currentStep > 1 {
        currentStep := currentStep - 1;
      }
    }

    /** `goToStep`: any number is taken as it is. */
    method GoToStep(step: int)
      modifies this
      ensures currentStep == step
      ensures formData == old(formData) && isSubmitting == old(isSubmitting) && isSuccess == old(isSuccess)
    {
      currentStep := step;
    }

    /** The part of `handleSubmit` before the simulated send: the form is marked as submitting. */
    method HandleSubmitStart()
      modifies this
      ensures isSubmitting
      ensures currentStep == old(currentStep) && formData == old(formData) && isSuccess == old(isSuccess)
    {
      isSubmitting := true;
    }

    /**
     * The part after the send settles: success on completion, an error toast
     * if it was rejected, and in both cases no longer submitting.
     */
    method HandleSubmitSettle(rejected: bool) returns (toast: Option<(string, string)>)
      modifies this
      ensures !isSubmitting
      ensures isSuccess == (old(isSuccess) || !rejected)
      ensures toast.Some? <==> rejected
      ensures rejected ==> toast == Some(("Erro", "Houve um problema ao enviar seus dados. Tente novamente."))
      ensures currentStep == old(currentStep) && formData == old(formData)
    {
      if !rejected {
        isSuccess := true;
        toast := None;
      } else {
        toast := Some(("Erro", "Houve um problema ao enviar seus dados. Tente novamente."));
      }
      isSubmitting := false;
    }

    /** `handleNewForm`: back to the initial form at step 1. */
    method HandleNewForm()
      modifies this
      ensures !isSuccess && formData == InitialFormData && currentStep == 1
      ensures isSubmitting == old(isSubmitting)
      ensures View() == PersonalData
    {
      isSuccess := false;
      formData := InitialFormData;
      currentStep := 1;
    }
  }
}
