/**
 * Shipping labels for the thermal printer: the address lines, the status
 * labels, one label per lead, and the guard that refuses to print nothing.
 * A label is modelled by the values the template interpolates; the markup
 * and stylesheet around them are fixed text.
 */
module ThermalPrint {
  import opened Text
  import opened Leads

  datatype AddressLines = AddressLines(address: string, district: string, cep: string)

  /** `formatAddress`: street and number joined by ', ', district and city by ' - ', and the CEP line. */
  function FormatAddress(lead: Lead): (r: AddressLines)
    ensures r.cep == (if lead.cep != "" then "CEP: " + lead.cep else "")
  {
    AddressLines(
      Join(NonEmpty([lead.rua, lead.numero]), ", "),
      Join(NonEmpty([lead.bairro, lead.cidade]), " - "),
      if lead.cep != "" then "CEP: " + lead.cep else "")
  }

  /** Each line shows every non-empty value it is built from, and is blank only when all of them are empty. */
  lemma FormatAddressLines(lead: Lead)
    ensures lead.rua != "" ==> Contains(FormatAddress(lead).address, lead.rua)
    ensures lead.numero != "" ==> Contains(FormatAddress(lead).address, lead.numero)
    ensures lead.bairro != "" ==> Contains(FormatAddress(lead).district, lead.bairro)
    ensures lead.cidade != "" ==> Contains(FormatAddress(lead).district, lead.cidade)
    ensures FormatAddress(lead).address == "" <==> lead.rua == "" && lead.numero == ""
    ensures FormatAddress(lead).district == "" <==> lead.bairro == "" && lead.cidade == ""
  {
    PairLine(lead.rua, lead.numero, ", ");
    PairLine(lead.bairro, lead.cidade, " - ");
  }

  /** Two values joined after dropping the empty ones. */
  lemma PairLine(a: string, b: string, sep: string)
    ensures a != "" ==> Contains(Join(NonEmpty([a, b]), sep), a)
    ensures b != "" ==> Contains(Join(NonEmpty([a, b]), sep), b)
    ensures Join(NonEmpty([a, b]), sep) == "" <==> a == "" && b == ""
  {
    var kept := NonEmpty([a, b]);
    JoinEmpty(kept, sep);
    forall x | x in [a, b] && x != ""
      ensures Contains(Join(kept, sep), x)
    {
      assert x in kept;
      var k :| 0 <= k < |kept| && kept[k] == x;
      JoinContains(kept, sep, k);
    }
    if kept == [] {
      assert a !in kept && b !in kept;
    } else {
      assert kept[0] in [a, b] && kept[0] != "";
    }
  }

  /** `getStatusLabel`: the Portuguese label of a payment or delivery status; 'Pendente' for any other value, null included. */
  function StatusLabel(status: string): (shown: string)
    ensures status == "paid" ==> shown == "Pago"
    ensures status == "unpaid" ==> shown == "Não Pago"
    ensures status == "delivered" ==> shown == "Entregue"
    ensures status == "failed" ==> shown == "Falhou"
    ensures shown == "Pendente" <==> status != "paid" && status != "unpaid" && status != "delivered" && status != "failed"
  {
    match status
    case "paid" => "Pago"
    case "unpaid" => "Não Pago"
    case "delivered" => "Entregue"
    case "failed" => "Falhou"
    case _ => "Pendente"
  }

  /** What one thermal label shows. `createdAt` is printed through the locale date format. */
  datatype Label = Label(
    name: string,
    phone: string,
    address: AddressLines,
    product: string,
    price: string,
    payment: string,
    delivery: string,
    createdAt: int)

  /** The label of one lead: a missing name, phone, product or price reads 'N/A'. */
  function LabelOf(lead: Lead): (l: Label)
    ensures l.name == (if lead.nome != "" then lead.nome else "N/A")
    ensures l.phone == (if lead.telefone != "" then lead.telefone else "N/A")
    ensures l.product == (if lead.tipoTratamento != "" then lead.tipoTratamento else "N/A")
    ensures l.price == (if lead.precoTratamento != "" then lead.precoTratamento else "N/A")
    ensures l.address == FormatAddress(lead)
    ensures l.payment == StatusLabel(lead.paymentStatus) && l.delivery == StatusLabel(lead.deliveryStatus)
  {
    Label(
      if lead.nome != "" then lead.nome else "N/A",
      if lead.telefone != "" then lead.telefone else "N/A",
      FormatAddress(lead),
      if lead.tipoTratamento != "" then lead.tipoTratamento else "N/A",
      if lead.precoTratamento != "" then lead.precoTratamento else "N/A",
      StatusLabel(lead.paymentStatus),
      StatusLabel(lead.deliveryStatus),
      lead.createdAt)
  }

  /** The labels of `generatePrintHTML`, in the order of the leads. */
  function Labels(leads: seq<Lead>): (ls: seq<Label>)
    ensures |ls| == |leads|
    ensures forall i :: 0 <= i < |leads| ==> ls[i] == LabelOf(leads[i])
  {
    if leads == [] then [] else [LabelOf(leads[0])] + Labels(leads[1..])
  }

  /** Printing two batches one after the other gives the labels of the whole list. */
  lemma {:induction false} LabelsAppend(a: seq<Lead>, b: seq<Lead>)
    ensures Labels(a + b) == Labels(a) + Labels(b)
  {
    if a != [] {
      assert (a + b)[1..] == a[1..] + b;
      LabelsAppend(a[1..], b);
    } else {
      assert a + b == b;
    }
  }

  /** A toast: title, description, and whether it is shown as an error. */
  datatype Toast = Toast(title: string, description: string, destructive: bool)

  /**
   * `printLabels`: an error toast and no window for an empty list; an error
   * toast when the browser blocks the pop-up; otherwise the labels go to the
   * print window and the toast reports how many.
   */
  function PrintLabels(leads: seq<Lead>, popupAllowed: bool): (r: (Toast, Option<seq<Label>>))
    ensures leads == [] ==> r.1 == None && r.0.destructive
    ensures r.1.Some? <==> leads != [] && popupAllowed
    ensures r.1.Some? ==> r.1.value == Labels(leads) && !r.0.destructive
  {
    if |leads| == 0 then
      (Toast("Erro", "Nenhum pedido selecionado para impressão", true), None)
    else if !popupAllowed then
      (Toast("Erro na Impressão",
             "Não foi possível abrir a janela de impressão. Verifique se popups estão permitidos.", true),
       None)
    else
      (Toast("Sucesso", NatToString(|leads|) + " etiqueta(s) enviada(s) para impressão", false),
       Some(Labels(leads)))
  }
}
