/**
 * The status dialog of the delivery dashboard: four edit fields loaded from
 * the lead, and the `updates` object it hands back on save. A payment or
 * delivery date is added only on the first transition to 'paid' or
 * 'delivered'; the clock reading is a parameter.
 */
module StatusUpdateModal {
  import opened Text
  import opened Leads

  /** The four `useState` fields of the dialog. */
  datatype Edits = Edits(
    paymentStatus: string,
    deliveryStatus: string,
    paymentNotes: string,
    deliveryNotes: string)

  /** `s || fallback` on a nullable text column. */
  function OrElse(s: string, fallback: string): (r: string)
    ensures s != "" ==> r == s
    ensures s == "" ==> r == fallback
  {
    if s != "" then s else fallback
  }

  /** What the effect loads from a lead: statuses default to 'pending', notes to ''. */
  function InitialEdits(lead: Lead): (e: Edits)
    ensures e.paymentStatus != "" && e.deliveryStatus != ""
    ensures lead.paymentStatus != "" ==> e.paymentStatus == lead.paymentStatus
    ensures lead.paymentStatus == "" ==> e.paymentStatus == "pending"
    ensures lead.deliveryStatus != "" ==> e.deliveryStatus == lead.deliveryStatus
    ensures lead.deliveryStatus == "" ==> e.deliveryStatus == "pending"
    ensures e.paymentNotes == lead.paymentNotes && e.deliveryNotes == lead.deliveryNotes
  {
    Edits(OrElse(lead.paymentStatus, "pending"), OrElse(lead.deliveryStatus, "pending"),
          OrElse(lead.paymentNotes, ""), OrElse(lead.deliveryNotes, ""))
  }

  /**
   * The `updates` object built by `handleUpdate` for `lead` from the edits,
   * at time `now`: the four edited fields always, unchanged, and a date
   * exactly on the first transition into 'paid' or 'delivered'.
   */
  function UpdateFor(lead: Lead, e: Edits, now: string): (u: StatusUpdate)
    ensures u.paymentStatus == Some(e.paymentStatus) && u.deliveryStatus == Some(e.deliveryStatus)
    ensures u.paymentNotes == Some(e.paymentNotes) && u.deliveryNotes == Some(e.deliveryNotes)
    ensures u.paymentDate.Some? <==> e.paymentStatus == "paid" && lead.paymentStatus != "paid"
    ensures u.deliveryDate.Some? <==> e.deliveryStatus == "delivered" && lead.deliveryStatus != "delivered"
    ensures u.paymentDate.Some? ==> u.paymentDate.value == now
    ensures u.deliveryDate.Some? ==> u.deliveryDate.value == now
  {
    StatusUpdate(
      Some(e.paymentStatus), Some(e.deliveryStatus), Some(e.paymentNotes), Some(e.deliveryNotes),
      if e.paymentStatus == "paid" && lead.paymentStatus != "paid" then Some(now) else None,
      if e.deliveryStatus == "delivered" && lead.deliveryStatus != "delivered" then Some(now) else None)
  }

  /**
   * Opening the dialog on a lead and saving without touching anything sends
   * back the lead's own statuses and notes, and never a date: a paid lead
   * already reads 'paid', and any other lead reads something else than 'paid'.
   */
  lemma ResaveAddsNoDate(lead: Lead, now: string)
    ensures UpdateFor(lead, InitialEdits(lead), now).paymentDate == None
    ensures UpdateFor(lead, InitialEdits(lead), now).deliveryDate == None
    ensures UpdateFor(lead, InitialEdits(lead), now).paymentNotes == Some(lead.paymentNotes)
    ensures UpdateFor(lead, InitialEdits(lead), now).deliveryNotes == Some(lead.deliveryNotes)
  {
  }

  /** `formatAddress`: the non-empty parts of `rua, numero, bairro, cidade`, joined with ', '. */
  function FormatAddress(lead: Lead): (r: string)
  {
    Join(NonEmpty([lead.rua, lead.numero, lead.bairro, lead.cidade]), ", ")
  }

  /** Every non-empty address part shows up in the text, and the text is empty only when all parts are. */
  lemma FormatAddressParts(lead: Lead)
    ensures lead.rua != "" ==> Contains(FormatAddress(lead), lead.rua)
    ensures lead.numero != "" ==> Contains(FormatAddress(lead), lead.numero)
    ensures lead.bairro != "" ==> Contains(FormatAddress(lead), lead.bairro)
    ensures lead.cidade != "" ==> Contains(FormatAddress(lead), lead.cidade)
    ensures FormatAddress(lead) == "" <==> lead.rua == "" && lead.numero == "" && lead.bairro == "" && lead.cidade == ""
  {
    var parts := [lead.rua, lead.numero, lead.bairro, lead.cidade];
    var kept := NonEmpty(parts);
    JoinEmpty(kept, ", ");
    forall x | x in parts && x != ""
      ensures Contains(FormatAddress(lead), x)
    {
      assert x in kept;
      var k :| 0 <= k < |kept| && kept[k] == x;
      JoinContains(kept, ", ", k);
    }
    if kept == [] {
      forall x | x in parts
        ensures x == ""
      {
        assert x !in kept;
      }
      assert parts[1] in parts && parts[2] in parts && parts[3] in parts;
    } else {
      assert kept[0] in parts && kept[0] != "";
    }
  }

  /**
   * The dialog. `lead` is the prop (`None` when no lead is selected); the
   * four fields are its state.
   */
  class Dialog {
    var lead: Option<Lead>
    var edits: Edits

    /** The state starts as four empty strings, with whatever lead is passed. */
    constructor (lead: Option<Lead>)
      ensures this.lead == lead && edits == Edits("", "", "", "")
    {
      this.lead := lead;
      edits := Edits("", "", "", "");
    }

    /** The effect on a change of lead: load its values when there is one, otherwise keep the state. */
    method LoadLead(l: Option<Lead>)
      modifies this
      ensures lead == l
      ensures l.Some? ==> edits == InitialEdits(l.value)
      ensures l.None? ==> edits == old(edits)
    {
      lead := l;
      if l.Some? {
        edits := InitialEdits(l.value);
      }
    }

    /** The user edits one of the four fields. */
    method Edit(e: Edits)
      modifies this
      ensures edits == e && lead == old(lead)
    {
      edits := e;
    }

    /**
     * `handleUpdate`: nothing without a lead; otherwise the one `onUpdate`
     * call, with the lead's id and the update built from the edits.
     */
    method HandleUpdate(now: string) returns (call: Option<(string, StatusUpdate)>)
      ensures lead.None? ==> call == None
      ensures lead.Some? ==> call == Some((lead.value.id, UpdateFor(lead.value, edits, now)))
    {
      if lead.None? {
        return None;
      }
      var l := lead.value;
      var paymentDate: Option<string> := None;
      var deliveryDate: Option<string> := None;
      if edits.paymentStatus == "paid" && l.paymentStatus != "paid" {
        paymentDate := Some(now);
      }
      if edits.deliveryStatus == "delivered" && l.deliveryStatus != "delivered" {
        deliveryDate := Some(now);
      }
      var updates := StatusUpdate(Some(edits.paymentStatus), Some(edits.deliveryStatus),
                                  Some(edits.paymentNotes), Some(edits.deliveryNotes),
                                  paymentDate, deliveryDate);
      call := Some((l.id, updates));
    }
  }
}
