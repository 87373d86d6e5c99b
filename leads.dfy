/**
 * The `leads` row as the delivery dashboard reads it (the columns of
 * `leads.Row` the core touches). A nullable text column is a `string`, with
 * "" standing for null: every use the core makes of these columns is a
 * truthiness test (`lead.cidade || ...`, `.filter(Boolean)`) or a comparison
 * with a non-empty literal, under which null and "" behave alike.
 * `created_at` is the parsed timestamp in milliseconds.
 */
module Leads {
  import opened Text

  datatype Lead = Lead(
    id: string,
    nome: string,
    telefone: string,
    email: string,
    cep: string,
    rua: string,
    numero: string,
    bairro: string,
    cidade: string,
    createdAt: int,
    paymentStatus: string,
    deliveryStatus: string,
    paymentNotes: string,
    deliveryNotes: string,
    tipoTratamento: string,
    precoTratamento: string)

  /** `leads.map(lead => lead.id)`. */
  function Ids(leads: seq<Lead>): (ids: seq<string>)
    ensures |ids| == |leads|
    ensures forall i :: 0 <= i < |leads| ==> ids[i] == leads[i].id
  {
    seq(|leads|, i requires 0 <= i < |leads| => leads[i].id)
  }

  /**
   * The `updates` object handed to `updateLeadStatus`: each column it may
   * carry, `None` when the object has no such key. Dates are ISO strings
   * taken from the clock at the moment of the update.
   */
  datatype StatusUpdate = StatusUpdate(
    paymentStatus: Option<string>,
    deliveryStatus: Option<string>,
    paymentNotes: Option<string>,
    deliveryNotes: Option<string>,
    paymentDate: Option<string>,
    deliveryDate: Option<string>)
}
