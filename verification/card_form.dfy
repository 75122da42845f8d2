/**
 The aggregate card form as the tokenization handler sees it. The form itself
 (its per-field state and how emptiness and validity are computed) lives in a
 collaborator; the handler only asks it three questions, and this module keeps
 exactly the answers.
 */
module CardForm {

  /** The fixed set of hosted field keys. */
  datatype FieldKey = Number | Cvv | ExpirationDate | ExpirationMonth | ExpirationYear | PostalCode

  /** Raw field values returned by `getCardData`; opaque to the handler. */
  datatype CardData = CardData(values: map<FieldKey, string>)

  /** The form's answers at the moment a tokenization request is handled:
      `isEmpty()`, `invalidFieldKeys()` (in the form's own order) and
      `getCardData()`. */
  datatype Snapshot = Snapshot(isEmpty: bool, invalidFieldKeys: seq<FieldKey>, cardData: CardData)

  /** A form the handler may send to the gateway: not empty and with no invalid field. */
  predicate Tokenizable(form: Snapshot) {
    !form.isEmpty && |form.invalidFieldKeys| == 0
  }
}
