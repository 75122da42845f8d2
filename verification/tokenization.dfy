/**
 The tokenization handler of the hosted-fields coordinating frame.

 One run of the handler has two halves. The local decision looks at the card
 form and the caller's options and either answers at once (the form is empty
 or has invalid fields) or builds exactly one gateway request. When a request
 was sent, the transport callback later classifies the client's outcome into
 one reply and one analytics event. The client call itself is not modelled:
 its outcome is a parameter.
 */
module Tokenization {

  import opened Wrappers
  import opened JsValues
  import opened CardForm
  import opened HostedFieldsErrors
  import opened Effects

  const TokenizeMethod := "post"
  const TokenizeEndpoint := "payment_methods/credit_cards"
  const MetaSource := "hosted-fields"
  const TokenizationFailedEvent := "custom.hosted-fields.tokenization.failed"
  const TokenizationSucceededEvent := "custom.hosted-fields.tokenization.succeeded"

  /** One element of the gateway's `creditCards` array. Fields other than the
      four the handler copies are kept in `otherFields`. */
  datatype CreditCardRecord = CreditCardRecord(
    nonce: string,
    details: JsValue,
    description: string,
    cardType: string,
    otherFields: map<string, JsValue>)

  datatype TokenizeResponse = TokenizeResponse(creditCards: seq<CreditCardRecord>)

  /** What the client's callback receives: an error with the HTTP status when
      there was one (`None` stands for JavaScript's `undefined`), or a response. */
  datatype TransportOutcome =
    | TransportFailure(err: ClientError, status: Option<int>)
    | TransportSuccess(response: TokenizeResponse)

  /** The client promises a non-empty `creditCards` array on success. */
  predicate WellFormedOutcome(outcome: TransportOutcome) {
    outcome.TransportSuccess? ==> |outcome.response.creditCards| > 0
  }

  /** `normalizeCreditCardFields`: maps raw field values to the gateway's
      credit-card schema. A collaborator, so a parameter here. */
  type Normalizer = CardData -> map<string, JsValue>

  /** The local decision: an immediate reply, or the one request to send. */
  datatype Decision = ReplyNow(reply: Reply) | SendRequest(request: ClientRequest)

  /** The caller asked for vaulting: its options are an object whose `vault`
      field is the boolean `true`. Any other options, absent ones included,
      do not ask for it. */
  predicate AsksToVault(options: JsValue) {
    options.JObject? && "vault" in options.fields && options.fields["vault"] == JBool(true)
  }

  /** `(options || {}).vault === true`, the value of `creditCard.options.validate`. */
  function ValidateFlag(options: JsValue): (validate: bool)
    ensures validate <==> AsksToVault(options)
    ensures options == JUndefined ==> !validate
  {
    Vault(Or(options, JObject(map[]))) == JBool(true)
  }

  /** The local half of the handler. */
  function Decide(form: Snapshot, options: JsValue, normalize: Normalizer): (d: Decision)
    ensures d.SendRequest? <==> Tokenizable(form)
    ensures form.isEmpty ==> d == ReplyNow(ErrorReply(HostedFieldsError(FieldsEmpty, NoDetails)))
    ensures !form.isEmpty && |form.invalidFieldKeys| > 0 ==>
      d == ReplyNow(ErrorReply(HostedFieldsError(FieldsInvalid, InvalidFieldKeys(form.invalidFieldKeys))))
    ensures d.ReplyNow? ==> d.reply.ErrorReply? && IsLocal(d.reply.error)
    ensures d.SendRequest? ==>
      && d.request.httpMethod == "post"
      && d.request.endpoint == "payment_methods/credit_cards"
      && d.request.data.meta.source == "hosted-fields"
    ensures d.SendRequest? ==>
      var card := d.request.data.creditCard;
      var normalized := normalize(form.cardData);
      && card.Keys == normalized.Keys + {"options"}
      && card["options"] == JObject(map["validate" := JBool(AsksToVault(options))])
      && forall k :: k in normalized && k != "options" ==> card[k] == normalized[k]
  {
    var isEmpty := form.isEmpty;
    var invalidFieldKeys := form.invalidFieldKeys;
    var isValid := |invalidFieldKeys| == 0;
    if isEmpty then
      ReplyNow(ErrorReply(HostedFieldsError(FieldsEmpty, NoDetails)))
    else if isValid then
      var creditCardDetails := normalize(form.cardData)["options" := JObject(map["validate" := JBool(ValidateFlag(options))])];
      SendRequest(ClientRequest(TokenizeMethod, TokenizeEndpoint, RequestData(Meta(MetaSource), creditCardDetails)))
    else
      ReplyNow(ErrorReply(HostedFieldsError(FieldsInvalid, InvalidFieldKeys(invalidFieldKeys))))
  }

  /** JavaScript's `status < bound` for a status that may be `undefined`:
      `undefined` converts to NaN, and every comparison with NaN is false. */
  predicate StatusBelow(status: Option<int>, bound: int) {
    status.Some? && status.value < bound
  }

  /** The error half of the transport callback: the error to reply with. */
  function ClassifyError(err: ClientError, status: Option<int>): (e: ReplyError)
    ensures e == PassThrough(err) <==> status == Some(403)
    ensures e.HostedFieldsError? ==> e.details == OriginalError(err)
    ensures e.HostedFieldsError? && e.code == FailedTokenization <==>
      status.Some? && status.value != 403 && status.value < 500
    ensures e.HostedFieldsError? && e.code == TokenizationNetworkError <==>
      status.None? || status.value >= 500
    ensures !IsLocal(e)
    ensures OriginalErrorOf(e) == Some(err)
  {
    if status == Some(403) then
      PassThrough(err)
    else if StatusBelow(status, 500) then
      HostedFieldsError(FailedTokenization, OriginalError(err))
    else
      HostedFieldsError(TokenizationNetworkError, OriginalError(err))
  }

  /** The transport callback. A success whose `creditCards` is empty makes
      `creditCards[0].nonce` throw before anything is replied. */
  function OnTransportResult(outcome: TransportOutcome): (effects: seq<Effect>)
    ensures Requests(effects) == []
    ensures |Replies(effects)| == 1 <==> WellFormedOutcome(outcome)
    ensures WellFormedOutcome(outcome) ==>
      |effects| == 2 && effects[0].Replied? && effects[1].Logged?
    ensures outcome.TransportFailure? ==>
      && effects[0] == Replied(ErrorReply(ClassifyError(outcome.err, outcome.status)))
      && Events(effects) == [TokenizationFailedEvent]
    ensures outcome.TransportFailure? ==> forall r :: r in Replies(effects) ==> r.ErrorReply?
    ensures outcome.TransportSuccess? && WellFormedOutcome(outcome) ==>
      var first := outcome.response.creditCards[0];
      && effects[0].Replied? && effects[0].reply.CardReply?
      && effects[0].reply.card.nonce == first.nonce
      && effects[0].reply.card.details == first.details
      && effects[0].reply.card.description == first.description
      && effects[0].reply.card.cardType == first.cardType
      && Events(effects) == [TokenizationSucceededEvent]
    ensures !WellFormedOutcome(outcome) ==> Replies(effects) == [] && Events(effects) == []
  {
    match outcome
    case TransportFailure(err, status) =>
      var error := ClassifyError(err, status);
      [Replied(ErrorReply(error)), Logged(TokenizationFailedEvent)]
    case TransportSuccess(response) =>
      if |response.creditCards| == 0 then
        [Threw("TypeError: reading nonce of undefined")]
      else
        var first := response.creditCards[0];
        var tokenizedCard := TokenizedCard(first.nonce, first.details, first.description, first.cardType);
        [Replied(CardReply(tokenizedCard)), Logged(TokenizationSucceededEvent)]
  }

  /** One complete handler run: the local decision, then, when a request was
      sent, the callback applied to the given outcome. The outcome is ignored
      when no request is sent. */
  function Handle(form: Snapshot, options: JsValue, normalize: Normalizer, outcome: TransportOutcome): (trace: seq<Effect>)
    ensures |Requests(trace)| == if Tokenizable(form) then 1 else 0
    ensures Tokenizable(form) ==> trace[0].Sent?
    ensures !Tokenizable(form) ==> |trace| == 1 && trace[0].Replied? && Events(trace) == []
    ensures |Replies(trace)| == 1 <==> !Tokenizable(form) || WellFormedOutcome(outcome)
    ensures |Events(trace)| == if Tokenizable(form) && WellFormedOutcome(outcome) then 1 else 0
  {
    match Decide(form, options, normalize)
    case ReplyNow(reply) => [Replied(reply)]
    case SendRequest(request) => [Sent(request)] + OnTransportResult(outcome)
  }
}

/**
 What the caller of a tokenization request observes, stated per case of the
 error taxonomy: local errors, pass-through, wrapped client and wrapped
 network errors, and success.
 */
module TokenizationProperties {

  import opened Wrappers
  import opened JsValues
  import opened CardForm
  import opened HostedFieldsErrors
  import opened Effects
  import opened Tokenization

  /** A run whose reply is guaranteed: either nothing is sent, or the
      client's outcome is well formed. */
  predicate Answerable(form: Snapshot, outcome: TransportOutcome) {
    !Tokenizable(form) || WellFormedOutcome(outcome)
  }

  /** The reply the caller receives, by the error taxonomy of the hosted
      fields: local errors first, then the classification of the outcome. */
  function ReplyTo(form: Snapshot, outcome: TransportOutcome): Reply
    requires Answerable(form, outcome)
  {
    if form.isEmpty then ErrorReply(HostedFieldsError(FieldsEmpty, NoDetails))
    else if form.invalidFieldKeys != [] then ErrorReply(HostedFieldsError(FieldsInvalid, InvalidFieldKeys(form.invalidFieldKeys)))
    else
      match outcome
      case TransportFailure(err, status) => ErrorReply(ClassifyError(err, status))
      case TransportSuccess(response) =>
        var first := response.creditCards[0];
        CardReply(TokenizedCard(first.nonce, first.details, first.description, first.cardType))
  }

  /** Every answerable run replies exactly once, with the reply the taxonomy
      prescribes; a run that sends a request also sends exactly one analytics
      event, after the reply. */
  lemma HandleRepliesOnce(form: Snapshot, options: JsValue, normalize: Normalizer, outcome: TransportOutcome)
    requires Answerable(form, outcome)
    ensures Replies(Handle(form, options, normalize, outcome)) == [ReplyTo(form, outcome)]
    ensures Tokenizable(form) ==>
      var trace := Handle(form, options, normalize, outcome);
      |trace| == 3 && trace[0].Sent? && trace[1].Replied? && trace[2].Logged?
  {
  }

  /** An empty form is answered with FIELDS_EMPTY alone, whatever the
      invalid keys: no request, no analytics event. */
  lemma EmptyFormShortCircuits(form: Snapshot, options: JsValue, normalize: Normalizer, outcome: TransportOutcome)
    requires form.isEmpty
    ensures Handle(form, options, normalize, outcome) == [Replied(ErrorReply(HostedFieldsError(FieldsEmpty, NoDetails)))]
    ensures Requests(Handle(form, options, normalize, outcome)) == []
    ensures Events(Handle(form, options, normalize, outcome)) == []
    ensures forall keys: seq<FieldKey> ::
      Handle(form.(invalidFieldKeys := keys), options, normalize, outcome) == Handle(form, options, normalize, outcome)
  {
  }

  /** A non-empty form with invalid fields is answered with FIELDS_INVALID
      carrying exactly the form's invalid keys: no request, no analytics event. */
  lemma InvalidFormReportsKeys(form: Snapshot, options: JsValue, normalize: Normalizer, outcome: TransportOutcome)
    requires !form.isEmpty && form.invalidFieldKeys != []
    ensures Handle(form, options, normalize, outcome)
         == [Replied(ErrorReply(HostedFieldsError(FieldsInvalid, InvalidFieldKeys(form.invalidFieldKeys))))]
    ensures Requests(Handle(form, options, normalize, outcome)) == []
    ensures Events(Handle(form, options, normalize, outcome)) == []
  {
  }

  /** A tokenizable form sends exactly one request, before any reply: a POST
      to the credit-card endpoint tagged as coming from the hosted fields,
      whose card is the normalized card data with `options.validate` set to
      whether the caller asked to vault. */
  lemma ValidFormSendsOneRequest(form: Snapshot, options: JsValue, normalize: Normalizer, outcome: TransportOutcome)
    requires Tokenizable(form)
    ensures
      var trace := Handle(form, options, normalize, outcome);
      var normalized := normalize(form.cardData);
      && trace[0].Sent?
      && Requests(trace) == [trace[0].request]
      && trace[0].request == ClientRequest("post", "payment_methods/credit_cards",
           RequestData(Meta("hosted-fields"),
             normalized["options" := JObject(map["validate" := JBool(AsksToVault(options))])]))
  {
  }

  /** Absent options never ask for validation; neither does a `vault` that
      is merely truthy rather than the boolean `true`. */
  lemma ValidateNeedsBooleanTrue(form: Snapshot, normalize: Normalizer, outcome: TransportOutcome)
    requires Tokenizable(form)
    ensures Handle(form, JUndefined, normalize, outcome)[0].request.data.creditCard["options"]
         == JObject(map["validate" := JBool(false)])
    ensures Handle(form, JObject(map["vault" := JString("true")]), normalize, outcome)[0].request.data.creditCard["options"]
         == JObject(map["validate" := JBool(false)])
    ensures Handle(form, JObject(map["vault" := JBool(true)]), normalize, outcome)[0].request.data.creditCard["options"]
         == JObject(map["validate" := JBool(true)])
  {
    ValidFormSendsOneRequest(form, JUndefined, normalize, outcome);
    ValidFormSendsOneRequest(form, JObject(map["vault" := JString("true")]), normalize, outcome);
    ValidFormSendsOneRequest(form, JObject(map["vault" := JBool(true)]), normalize, outcome);
  }

  /** A 403 from the gateway is replied verbatim: the client's error itself. */
  lemma ForbiddenIsPassedThrough(form: Snapshot, options: JsValue, normalize: Normalizer, err: ClientError)
    requires Tokenizable(form)
    ensures
      var trace := Handle(form, options, normalize, TransportFailure(err, Some(403)));
      && Replies(trace) == [ErrorReply(PassThrough(err))]
      && Events(trace) == ["custom.hosted-fields.tokenization.failed"]
  {
  }

  /** Any other failure is wrapped with the client error as
      `details.originalError`: TOKENIZATION_FAILED below status 500, and
      TOKENIZATION_NETWORK_ERROR from 500 up or without a status. */
  lemma OtherFailuresAreWrapped(form: Snapshot, options: JsValue, normalize: Normalizer, err: ClientError, status: Option<int>)
    requires Tokenizable(form) && status != Some(403)
    ensures
      var trace := Handle(form, options, normalize, TransportFailure(err, status));
      var code := if status.Some? && status.value < 500 then FailedTokenization else TokenizationNetworkError;
      && Replies(trace) == [ErrorReply(HostedFieldsError(code, OriginalError(err)))]
      && Events(trace) == ["custom.hosted-fields.tokenization.failed"]
  {
  }

  /** A success replies `[null, card]` with the first record's nonce,
      details, description and type, then reports success. */
  lemma SuccessRepliesFirstCard(form: Snapshot, options: JsValue, normalize: Normalizer, response: TokenizeResponse)
    requires Tokenizable(form) && response.creditCards != []
    ensures
      var trace := Handle(form, options, normalize, TransportSuccess(response));
      var first := response.creditCards[0];
      && Replies(trace) == [CardReply(TokenizedCard(first.nonce, first.details, first.description, first.cardType))]
      && Events(trace) == ["custom.hosted-fields.tokenization.succeeded"]
  {
  }

  /** A success with no card record throws inside the callback: the caller
      is never answered and no analytics event is sent. */
  lemma EmptyCardListLeavesCallerUnanswered(form: Snapshot, options: JsValue, normalize: Normalizer)
    requires Tokenizable(form)
    ensures
      var trace := Handle(form, options, normalize, TransportSuccess(TokenizeResponse([])));
      Replies(trace) == [] && Events(trace) == [] && trace[|trace| - 1].Threw?
  {
  }
}
