# Hosted Fields tokenization handler

A Dafny model of the tokenization handler of Braintree's Hosted Fields, which runs in the coordinating frame. A merchant page asks for a card to be tokenized over the frame bus. The handler checks the aggregate card form. If the form is empty, it answers `FIELDS_EMPTY` at once. If some fields are invalid, it answers `FIELDS_INVALID` with the invalid keys. Otherwise it sends exactly one POST to `payment_methods/credit_cards` and classifies the client's outcome into one reply and one analytics event:

- a 403 is passed through unchanged;
- any other status below 500 becomes `TOKENIZATION_FAILED`;
- a status of 500 or more, or no status at all, becomes `TOKENIZATION_NETWORK_ERROR`;
- a success becomes `[null, card]`.

The model is pure. One handler run is a function from the form snapshot, the caller's options, the normalization collaborator and the client's outcome to a trace of effects: requests sent, replies, analytics events, and an exception escaping the callback. The properties are stated on that trace.

Files:

- `wrappers.dfy`: `Option`.
- `js_values.dfy`: the JSON-like values a caller sends over the bus, JavaScript truthiness, `||`, and the `vault` property read.
- `card_form.dfy`: field keys and the snapshot of the card form's answers (`isEmpty()`, `invalidFieldKeys()`, `getCardData()`).
- `errors.dfy`: error codes, the client's opaque error, and reply errors (wrapped or passed through).
- `effects.dfy`: requests, replies, effects, and the projections of a trace.
- `tokenization.dfy`: the handler (`Tokenization`) and its per-case properties (`TokenizationProperties`).
- `orchestrator.dfy`: the bus listener that gives every request a fresh handler, and properties of serving a run of requests.

Some JavaScript semantics are written out explicitly:

- `status` is `Option<int>`. `None` stands for `undefined`, and `undefined < 500` is false, so a missing status is classified as a network error.
- `options` may be any value. `(options || {}).vault === true` holds only for an object whose `vault` field is the boolean `true`.
- When a success carries an empty `creditCards` array, reading `creditCards[0].nonce` throws before any reply. The model records this as a `Threw` effect with no reply. It does not use a precondition. "Exactly one reply" is proved for outcomes that keep the client's contract of a non-empty array.

## Model

| member | source | states |
|---|---|---|
| Tokenization.ValidateFlag | src/hosted-fields/internal/index.js:66-69 | `validate` is true exactly when the options are an object whose `vault` is the boolean `true`; absent options give false |
| Tokenization.Decide | src/hosted-fields/internal/index.js:57-118 | a request is built iff the form is non-empty with no invalid key; an empty form gets FIELDS_EMPTY even with invalid keys; otherwise FIELDS_INVALID carries exactly the form's invalid keys; every immediate reply is a local error; the request is a POST to `payment_methods/credit_cards` with `_meta.source` `hosted-fields`, whose card holds the normalized fields unchanged plus `options.validate` |
| Tokenization.ClassifyError | src/hosted-fields/internal/index.js:83-92 | the client error is passed through iff the status is 403; TOKENIZATION_FAILED iff a status other than 403 is below 500; TOKENIZATION_NETWORK_ERROR iff the status is missing or at least 500; a wrapped error's `details.originalError` is the client error, so it can always be recovered |
| Tokenization.OnTransportResult | src/hosted-fields/internal/index.js:80-110 | the callback sends no request; it replies exactly once iff the outcome is well formed, and then the reply is followed by one analytics event; on error the reply is the classified error and the event is `tokenization.failed`, never a card; on success the card copies nonce, details, description and type of the first record and the event is `tokenization.succeeded`; an empty card list yields neither reply nor event |
| Tokenization.Handle | src/hosted-fields/internal/index.js:55-119 | one request exactly when the form is tokenizable, sent before anything else; a local rejection is a lone reply with no event; one reply iff the run is answerable; one analytics event iff a request was sent and the outcome is well formed |
| TokenizationProperties.HandleRepliesOnce | src/hosted-fields/internal/index.js:55-119 | every answerable run replies exactly once, with the reply the error taxonomy prescribes; a run that reaches the network is exactly request, reply, event |
| TokenizationProperties.EmptyFormShortCircuits | src/hosted-fields/internal/index.js:57-62 | an empty form yields the single FIELDS_EMPTY reply, no request and no event, and the invalid keys make no difference |
| TokenizationProperties.InvalidFormReportsKeys | src/hosted-fields/internal/index.js:58-117 | a non-empty form with invalid keys yields the single FIELDS_INVALID reply whose details are exactly those keys, with no request and no event |
| TokenizationProperties.ValidFormSendsOneRequest | src/hosted-fields/internal/index.js:63-79 | a tokenizable form sends exactly one request, first: the POST with the hosted-fields envelope and the normalized card with `validate` set from the vault option |
| TokenizationProperties.ValidateNeedsBooleanTrue | src/hosted-fields/internal/index.js:66-69 | absent options and a string `"true"` give `validate: false`; only the boolean `true` gives `validate: true` |
| TokenizationProperties.ForbiddenIsPassedThrough | src/hosted-fields/internal/index.js:83-85 | a 403 is replied as the client error itself, then `tokenization.failed` is logged |
| TokenizationProperties.OtherFailuresAreWrapped | src/hosted-fields/internal/index.js:86-96 | any other failure is wrapped with the client error as original error: TOKENIZATION_FAILED below 500, TOKENIZATION_NETWORK_ERROR from 500 or with no status; `tokenization.failed` is logged |
| TokenizationProperties.SuccessRepliesFirstCard | src/hosted-fields/internal/index.js:100-109 | success replies `[null, card]` built from the first record's four fields, then logs `tokenization.succeeded` |
| TokenizationProperties.EmptyCardListLeavesCallerUnanswered | src/hosted-fields/internal/index.js:100-105 | a success with no card record ends in an exception, with no reply and no event |
| Orchestrator.OnTokenizationRequest | src/hosted-fields/internal/index.js:133-137 | the listener hands each request to a fresh handler: an answerable request is answered exactly once, with the reply the error taxonomy prescribes, and one gateway request is sent exactly when the form is tokenizable |
| Orchestrator.Serve | src/hosted-fields/internal/index.js:133-137 | serving n requests yields at most n replies and at most n gateway requests |
| Orchestrator.ServeAnswersEveryCallInOrder | src/hosted-fields/internal/index.js:133-137 | over a run of answerable requests, the replies are exactly the prescribed reply of each request, one per request, in order |
| Orchestrator.ServeSendsOneRequestPerTokenizableCall | src/hosted-fields/internal/index.js:133-137 | the number of gateway requests equals the number of requests that found the form tokenizable, so there are no retries |
| Orchestrator.ServeLogsOneEventPerNetworkCall | src/hosted-fields/internal/index.js:133-137 | with well-formed outcomes, the number of analytics events equals the number of requests that reached the network |

## Left out

- `initialize` and `shimPlaceholder` (index.js:18-44): DOM construction, stylesheet injection and the placeholder polyfill.
- `create` (index.js:46-52): reading the location hash, constructing the bus and publishing it globally.
- The body of `orchestrate` (index.js:122-141) apart from the listener: client construction, frame discovery, the load analytics event and the global `cardForm`.
- `CreditCardForm`, `normalizeCreditCardFields`, `Client.request`, `Bus`, `analytics.sendEvent` and `BraintreeError` are not part of this model. The form is represented only by its three answers. Normalization is a function parameter. The client call is represented by its outcome. Analytics is a logged event name.
- The error table's `type` and `message` strings live in a file that is not part of this model. Errors are identified by code only.
- Asynchrony: the transport callback is applied to a given outcome as a second step. Overlapping requests are not modelled; `Serve` handles requests one after another.
- Orchestrator.Serve: the run is sequential, so interleavings of callbacks from requests in flight at the same time are not covered.
- The client's outcome is assumed to keep the client's contract, except for an empty card list. A failure always carries a truthy error; in the source, a falsy `err` (index.js:83) would take the success path whatever the status. A success always carries a response whose `creditCards` is an array of records with string `nonce`, `description` and `type`. A null `response` or a missing `creditCards` would throw at index.js:101, as an empty array does, and a missing field would put `undefined` into the card. None of these cases is modelled.
- A `null` HTTP status is not modelled (JavaScript would treat `null < 500` as true). Only a number or `undefined` is.
- Numbers inside caller options are integers; NaN and fractions are not modelled. They only matter for truthiness.
- A stricter design would fail with a MALFORMED_RESPONSE error when `creditCards` is empty. The code does not: it throws. The model follows the code.
