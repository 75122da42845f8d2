/**
 The observable effects of handling one tokenization request: the request
 handed to the HTTP client, the value passed to the caller's reply callback,
 the analytics events sent, and an exception escaping the transport callback.
 A handler run is described by the sequence of its effects, in order.
 */
module Effects {

  import opened JsValues
  import opened HostedFieldsErrors

  /** The `_meta` envelope of a gateway request. */
  datatype Meta = Meta(source: string)

  /** The `data` of a gateway request: the envelope and the card fields. */
  datatype RequestData = RequestData(meta: Meta, creditCard: map<string, JsValue>)

  /** One call of the HTTP client's `request`. */
  datatype ClientRequest = ClientRequest(httpMethod: string, endpoint: string, data: RequestData)

  /** The tokenized card handed back to the merchant page. */
  datatype TokenizedCard = TokenizedCard(nonce: string, details: JsValue, description: string, cardType: string)

  /** The argument array of the reply callback: `[error]` or `[null, card]`. */
  datatype Reply = ErrorReply(error: ReplyError) | CardReply(card: TokenizedCard)

  datatype Effect =
    | Sent(request: ClientRequest)
    | Replied(reply: Reply)
    | Logged(event: string)
    | Threw(message: string)

  /** The gateway requests issued in a trace, in order. */
  function Requests(t: seq<Effect>): (rs: seq<ClientRequest>)
    ensures |rs| <= |t|
    ensures forall q :: q in rs <==> Sent(q) in t
  {
    if t == [] then []
    else
      assert t == [t[0]] + t[1..];
      (if t[0].Sent? then [t[0].request] else []) + Requests(t[1..])
  }

  /** The replies sent in a trace, in order. */
  function Replies(t: seq<Effect>): (rs: seq<Reply>)
    ensures |rs| <= |t|
    ensures forall r :: r in rs <==> Replied(r) in t
  {
    if t == [] then []
    else
      assert t == [t[0]] + t[1..];
      (if t[0].Replied? then [t[0].reply] else []) + Replies(t[1..])
  }

  /** The analytics events sent in a trace, in order. */
  function Events(t: seq<Effect>): (es: seq<string>)
    ensures |es| <= |t|
    ensures forall e :: e in es <==> Logged(e) in t
  {
    if t == [] then []
    else
      assert t == [t[0]] + t[1..];
      (if t[0].Logged? then [t[0].event] else []) + Events(t[1..])
  }

  /** The three projections of a trace distribute over concatenation, so the
      effects of consecutive handler runs can be counted run by run. */
  lemma ProjectionsDistribute(a: seq<Effect>, b: seq<Effect>)
    ensures Requests(a + b) == Requests(a) + Requests(b)
    ensures Replies(a + b) == Replies(a) + Replies(b)
    ensures Events(a + b) == Events(a) + Events(b)
  {
    RequestsDistribute(a, b);
    RepliesDistribute(a, b);
    EventsDistribute(a, b);
  }

  lemma {:induction false} RequestsDistribute(a: seq<Effect>, b: seq<Effect>)
    ensures Requests(a + b) == Requests(a) + Requests(b)
  {
    if a == [] {
      assert a + b == b;
    } else {
      assert (a + b)[1..] == a[1..] + b;
      RequestsDistribute(a[1..], b);
    }
  }

  lemma {:induction false} RepliesDistribute(a: seq<Effect>, b: seq<Effect>)
    ensures Replies(a + b) == Replies(a) + Replies(b)
  {
    if a == [] {
      assert a + b == b;
    } else {
      assert (a + b)[1..] == a[1..] + b;
      RepliesDistribute(a[1..], b);
    }
  }

  lemma {:induction false} EventsDistribute(a: seq<Effect>, b: seq<Effect>)
    ensures Events(a + b) == Events(a) + Events(b)
  {
    if a == [] {
      assert a + b == b;
    } else {
      assert (a + b)[1..] == a[1..] + b;
      EventsDistribute(a[1..], b);
    }
  }
}
