/**
 * The personal-data step: the phone and CEP input masks, the phone and
 * e-mail formats, the address lookup that fills street, district and city
 * from the CEP, and the validation that gates the next step.
 */
module PersonalDataStep {
  import opened Text
  import opened TrackingTypes
  import opened Cep
  import opened FormWizard

  /** `formatPhone`: the digits masked as '(xx) xxxxx-xxxx' as far as they go. */
  function FormatPhone(value: string): (r: string)
    ensures var n := DigitsOf(value);
      (|n| <= 2 ==> r == n)
      && (3 <= |n| <= 7 ==> r == "(" + n[..2] + ") " + n[2..])
      && (8 <= |n| <= 11 ==> r == "(" + n[..2] + ") " + n[2..7] + "-" + n[7..])
      && (|n| > 11 ==> r == value[..if |value| < 15 then |value| else 15])
  {
    var numbers := DigitsOf(value);
    if |numbers| <= 11 then
      if |numbers| <= 2 then numbers
      else if |numbers| <= 7 then "(" + numbers[..2] + ") " + numbers[2..]
      else "(" + numbers[..2] + ") " + numbers[2..7] + "-" + numbers[7..]
    else value[..if |value| < 15 then |value| else 15]
  }

  /** `validatePhone`: exactly '(' two digits ') ' five digits '-' four digits. */
  predicate ValidatePhone(phone: string) {
    |phone| == 15 && phone[0] == '(' && IsDigit(phone[1]) && IsDigit(phone[2]) && phone[3] == ')' && phone[4] == ' '
    && AllDigits(phone[5..10]) && phone[10] == '-' && AllDigits(phone[11..])
  }

  /** The mask's length: each group of digits plus the punctuation around it. */
  lemma FormatPhoneLength(value: string)
    requires |DigitsOf(value)| <= 11
    ensures var n := |DigitsOf(value)|;
      |FormatPhone(value)| == if n <= 2 then n else if n <= 7 then n + 3 else n + 4
  {
  }

  /**
   * With at most eleven digits the masked phone passes the format check
   * exactly when there are eleven digits: a number with 8 to 10 digits is
   * masked into something the validation still refuses.
   */
  lemma FormatPhoneValidIffEleven(value: string)
    requires |DigitsOf(value)| <= 11
    ensures ValidatePhone(FormatPhone(value)) <==> |DigitsOf(value)| == 11
  {
    var n := DigitsOf(value);
    FormatPhoneLength(value);
    if |n| == 11 {
      var r := FormatPhone(value);
      assert r == "(" + n[..2] + ") " + n[2..7] + "-" + n[7..];
      assert r[1] == n[0] && r[2] == n[1];
      assert r[5..10] == n[2..7];
      assert r[11..] == n[7..];
    }
  }

  /** The digits of a phone in the format are its three digit groups, in order. */
  lemma PhoneDigits(phone: string)
    requires ValidatePhone(phone)
    ensures DigitsOf(phone) == phone[1..3] + phone[5..10] + phone[11..]
  {
    var p1, p3, p5 := phone[1..3], phone[5..10], phone[11..];
    assert DigitsOf(phone[..3]) == p1 by {
      assert phone[..3] == phone[..1] + p1 && AllDigits(p1);
      DigitsOfNoDigit(phone[..1]);
      DigitsOfAppend(phone[..1], p1);
    }
    assert DigitsOf(phone[..5]) == p1 by {
      assert phone[..5] == phone[..3] + phone[3..5];
      DigitsOfNoDigit(phone[3..5]);
      DigitsOfAppend(phone[..3], phone[3..5]);
    }
    assert DigitsOf(phone[..10]) == p1 + p3 by {
      assert phone[..10] == phone[..5] + p3;
      DigitsOfAppend(phone[..5], p3);
    }
    assert DigitsOf(phone[..11]) == p1 + p3 by {
      assert phone[..11] == phone[..10] + phone[10..11];
      DigitsOfNoDigit(phone[10..11]);
      DigitsOfAppend(phone[..10], phone[10..11]);
    }
    assert phone == phone[..11] + p5;
    DigitsOfAppend(phone[..11], p5);
  }

  /** Re-masking a phone already in the format leaves it as it is. */
  lemma FormatPhoneKeepsValid(phone: string)
    requires ValidatePhone(phone)
    ensures FormatPhone(phone) == phone
  {
    PhoneDigits(phone);
    var n := DigitsOf(phone);
    assert n[..2] == phone[1..3] && n[2..7] == phone[5..10] && n[7..] == phone[11..];
    assert phone == "(" + phone[1..3] + ") " + phone[5..10] + "-" + phone[11..];
  }

  /** `[^\s@]`: neither white space nor '@'. */
  predicate PlainChar(c: char) {
    !IsWhitespace(c) && c != '@'
  }

  /** `[^\s@]+`. */
  predicate Plain(s: string) {
    |s| > 0 && forall k :: 0 <= k < |s| ==> PlainChar(s[k])
  }

  /** The e-mail pattern matched with its '@' at `i` and the chosen '.' at `j`. */
  predicate EmailAt(email: string, i: int, j: int) {
    0 < i < j < |email| && email[i] == '@' && email[j] == '.'
    && Plain(email[..i]) && Plain(email[i + 1..j]) && Plain(email[j + 1..])
  }

  /** `validateEmail`: the whole text matches `^[^\s@]+@[^\s@]+\.[^\s@]+$`. */
  predicate ValidateEmail(email: string) {
    exists i, j | 0 < i < j < |email| :: EmailAt(email, i, j)
  }

  /** Any three non-empty plain parts make a valid address `local@host.tld`. */
  lemma EmailFromParts(local: string, host: string, tld: string)
    requires Plain(local) && Plain(host) && Plain(tld)
    ensures ValidateEmail(local + "@" + host + "." + tld)
  {
    var e := local + "@" + host + "." + tld;
    var i, j := |local|, |local| + 1 + |host|;
    assert e[..i] == local && e[i + 1..j] == host && e[j + 1..] == tld;
    assert EmailAt(e, i, j);
  }

  /**
   * A valid address has no white space and exactly one '@', which is
   * neither its first nor its last character.
   */
  lemma ValidEmailShape(email: string)
    requires ValidateEmail(email)
    ensures forall k :: 0 <= k < |email| ==> !IsWhitespace(email[k])
    ensures exists i :: 0 < i < |email| - 1 && email[i] == '@'
                        && forall k :: 0 <= k < |email| && email[k] == '@' ==> k == i
  {
    var i, j :| 0 < i < j < |email| && EmailAt(email, i, j);
    assert Plain(email[..i]) && Plain(email[i + 1..j]) && Plain(email[j + 1..]);
    forall k | 0 <= k < |email| && k != i
      ensures PlainChar(email[k])
    {
      if k < i {
        assert email[..i][k] == email[k];
      } else if k < j {
        assert email[i + 1..j][k - i - 1] == email[k];
      } else if k > j {
        assert email[j + 1..][k - j - 1] == email[k];
      } else {
        assert email[k] == '.';
      }
    }
  }

  /** The address fields a found CEP fills in; a field the service left out becomes ''. */
  function AddressPatch(logradouro: Option<string>, bairro: Option<string>, localidade: Option<string>): (p: FormPatch)
    ensures p.fields.Keys == {"rua", "bairro", "cidade"} && p.aceiteFinal.None?
    ensures p.fields["rua"] == (if logradouro.Some? then logradouro.value else "")
    ensures p.fields["bairro"] == (if bairro.Some? then bairro.value else "")
    ensures p.fields["cidade"] == (if localidade.Some? then localidade.value else "")
  {
    FieldsPatch(map["rua" := if logradouro.Some? then logradouro.value else "",
                    "bairro" := if bairro.Some? then bairro.value else "",
                    "cidade" := if localidade.Some? then localidade.value else ""])
  }

  /** Typing in the CEP field stores the masked value; a lookup follows when it holds eight digits. */
  function CepChange(value: string): (r: (FormPatch, bool))
    ensures r.0 == FieldsPatch(map["cep" := FormatCep(value)])
    ensures r.1 <==> |DigitsOf(value)| == 8
  {
    FormatCepKeepsDigits(value);
    var formattedCep := FormatCep(value);
    (FieldsPatch(map["cep" := formattedCep]), |DigitsOf(formattedCep)| == 8)
  }

  /**
   * The step's error record. Its keys can only be the five checked fields,
   * so it is kept as one optional message per field; an absent key is `None`.
   */
  datatype Errors = Errors(
    nome: Option<string>,
    telefone: Option<string>,
    email: Option<string>,
    cep: Option<string>,
    numero: Option<string>)

  const NoErrors := Errors(None, None, None, None, None)

  /** The validation of a required field: its message when the value is blank. */
  function Required(value: string, message: string): (r: Option<string>)
    ensures r.Some? <==> IsBlank(value)
    ensures r.Some? ==> r.value == message
  {
    if IsBlank(value) then Some(message) else None
  }

  /** The phone's check: required first, then the format. */
  function TelefoneError(telefone: string): (r: Option<string>)
    ensures r.Some? <==> IsBlank(telefone) || !ValidatePhone(telefone)
    ensures r.Some? ==> r.value == if IsBlank(telefone) then "Telefone é obrigatório" else "Formato: (xx) xxxxx-xxxx"
  {
    if IsBlank(telefone) then Some("Telefone é obrigatório")
    else if !ValidatePhone(telefone) then Some("Formato: (xx) xxxxx-xxxx")
    else None
  }

  /** The e-mail's check: required first, then the format. */
  function EmailError(email: string): (r: Option<string>)
    ensures r.Some? <==> IsBlank(email) || !ValidateEmail(email)
    ensures r.Some? ==> r.value == if IsBlank(email) then "Email é obrigatório" else "Email inválido"
  {
    if IsBlank(email) then Some("Email é obrigatório")
    else if !ValidateEmail(email) then Some("Email inválido")
    else None
  }

  /** The state of the `PersonalDataStep` component. */
  class PersonalData {
    var isLoadingCep: bool
    var errors: Errors

    constructor ()
      ensures !isLoadingCep && errors == NoErrors
    {
      isLoadingCep := false;
      errors := NoErrors;
    }

    /**
     * `validateForm`: an error for each required field left blank, and for
     * a phone or e-mail not in its format; the street, district, city and
     * complement are never checked. The form passes when there is no error.
     */
    method ValidateForm(data: FormRecord) returns (ok: bool)
      modifies this
      ensures errors.nome.Some? <==> IsBlank(FieldOr(data.fields, "nome"))
      ensures errors.telefone.Some? <==>
        IsBlank(FieldOr(data.fields, "telefone")) || !ValidatePhone(FieldOr(data.fields, "telefone"))
      ensures errors.email.Some? <==>
        IsBlank(FieldOr(data.fields, "email")) || !ValidateEmail(FieldOr(data.fields, "email"))
      ensures errors.cep.Some? <==> IsBlank(FieldOr(data.fields, "cep"))
      ensures errors.numero.Some? <==> IsBlank(FieldOr(data.fields, "numero"))
      ensures errors.nome.Some? ==> errors.nome.value == "Nome é obrigatório"
      ensures errors.telefone.Some? ==> (errors.telefone.value ==
        if IsBlank(FieldOr(data.fields, "telefone")) then "Telefone é obrigatório" else "Formato: (xx) xxxxx-xxxx")
      ensures errors.email.Some? ==> (errors.email.value ==
        if IsBlank(FieldOr(data.fields, "email")) then "Email é obrigatório" else "Email inválido")
      ensures errors.cep.Some? ==> errors.cep.value == "CEP é obrigatório"
      ensures errors.numero.Some? ==> errors.numero.value == "Número é obrigatório"
      ensures ok <==> errors == NoErrors
      ensures isLoadingCep == old(isLoadingCep)
    {
      var newErrors := Errors(
        Required(FieldOr(data.fields, "nome"), "Nome é obrigatório"),
        TelefoneError(FieldOr(data.fields, "telefone")),
        EmailError(FieldOr(data.fields, "email")),
        Required(FieldOr(data.fields, "cep"), "CEP é obrigatório"),
        Required(FieldOr(data.fields, "numero"), "Número é obrigatório"));
      errors := newErrors;
      ok := newErrors == NoErrors;
    }

    /** `handleNext`: the wizard moves on only when the form passes. */
    method HandleNext(data: FormRecord) returns (advance: bool)
      modifies this
      ensures advance <==> errors == NoErrors
      ensures advance ==> !IsBlank(FieldOr(data.fields, "nome")) && ValidatePhone(FieldOr(data.fields, "telefone"))
                          && ValidateEmail(FieldOr(data.fields, "email"))
      ensures isLoadingCep == old(isLoadingCep)
    {
      advance := ValidateForm(data);
    }

    /**
     * `handleCepSearch`: nothing unless the CEP has eight digits; otherwise
     * the lookup's answer either fills the address or raises a toast, and
     * the spinner is off afterwards.
     */
    method HandleCepSearch(cep: string, response: ViaCepResponse)
      returns (patch: Option<FormPatch>, toast: Option<(string, string)>)
      modifies this
      ensures |DigitsOf(cep)| != 8 ==> patch.None? && toast.None? && isLoadingCep == old(isLoadingCep)
      ensures |DigitsOf(cep)| == 8 ==> !isLoadingCep && toast.Some?
      ensures |DigitsOf(cep)| == 8 && response.NotFound? ==>
        patch.None? && toast == Some(("CEP não encontrado", "Verifique o CEP informado."))
      ensures |DigitsOf(cep)| == 8 && response.Found? ==>
        patch == Some(AddressPatch(response.logradouro, response.bairro, response.localidade))
        && toast == Some(("Endereço encontrado!", "Dados preenchidos automaticamente."))
      ensures |DigitsOf(cep)| == 8 && response.Failed? ==>
        patch.None? && toast == Some(("Erro", "Não foi possível buscar o CEP."))
      ensures errors == old(errors)
    {
      patch, toast := None, None;
      var cleanCep := DigitsOf(cep);
      if |cleanCep| != 8 {
        return;
      }
      isLoadingCep := true;
      match response {
        case NotFound =>
          toast := Some(("CEP não encontrado", "Verifique o CEP informado."));
        case Found(logradouro, bairro, localidade) =>
          patch := Some(AddressPatch(logradouro, bairro, localidade));
          toast := Some(("Endereço encontrado!", "Dados preenchidos automaticamente."));
        case Failed =>
          toast := Some(("Erro", "Não foi possível buscar o CEP."));
      }
      isLoadingCep := false;
    }
  }
}
