/**
 The coordinating frame's subscription to tokenization requests. Every
 request arriving on the bus is handed to a fresh handler bound to the same
 client and card form. Requests are taken one after another, each run to
 completion before the next arrives; overlapping requests are not modelled.
 */
module Orchestrator {

  import opened JsValues
  import opened CardForm
  import opened Effects
  import opened Tokenization
  import opened TokenizationProperties

  /** One tokenization request: the form as it stands when the request is
      handled, the caller's options, and what the client will report. */
  datatype TokenizationCall = TokenizationCall(form: Snapshot, options: JsValue, outcome: TransportOutcome)

  /** The bus listener for TOKENIZATION_REQUEST: a fresh handler for every
      request. An answerable request is answered exactly once, with the reply
      the error taxonomy prescribes, and a gateway request is sent only when
      the form is tokenizable. */
  function OnTokenizationRequest(normalize: Normalizer, call: TokenizationCall): (trace: seq<Effect>)
    ensures Answerable(call.form, call.outcome) ==> Replies(trace) == [ReplyTo(call.form, call.outcome)]
    ensures |Requests(trace)| == if Tokenizable(call.form) then 1 else 0
  {
    var trace := Handle(call.form, call.options, normalize, call.outcome);
    assert Answerable(call.form, call.outcome) ==> Replies(trace) == [ReplyTo(call.form, call.outcome)] by {
      if Answerable(call.form, call.outcome) {
        HandleRepliesOnce(call.form, call.options, normalize, call.outcome);
      }
    }
    trace
  }

  /** The effects of serving a run of requests in arrival order. */
  function Serve(normalize: Normalizer, calls: seq<TokenizationCall>): (trace: seq<Effect>)
    ensures |Replies(trace)| <= |calls|
    ensures |Requests(trace)| <= |calls|
  {
    if calls == [] then []
    else
      var first := OnTokenizationRequest(normalize, calls[0]);
      ProjectionsDistribute(first, Serve(normalize, calls[1..]));
      first + Serve(normalize, calls[1..])
  }

  /** How many of the calls find the form tokenizable. */
  function TokenizableCount(calls: seq<TokenizationCall>): nat {
    if calls == [] then 0
    else (if Tokenizable(calls[0].form) then 1 else 0) + TokenizableCount(calls[1..])
  }

  /** Every call of the run is answerable. */
  predicate AllAnswerable(calls: seq<TokenizationCall>) {
    forall i :: 0 <= i < |calls| ==> Answerable(calls[i].form, calls[i].outcome)
  }

  /** Answerability of a run splits into its first call and the rest. */
  lemma AnswerableTail(calls: seq<TokenizationCall>)
    requires calls != [] && AllAnswerable(calls)
    ensures Answerable(calls[0].form, calls[0].outcome)
    ensures AllAnswerable(calls[1..])
  {
    forall i | 0 <= i < |calls[1..]|
      ensures Answerable(calls[1..][i].form, calls[1..][i].outcome)
    {
      assert calls[1..][i] == calls[i + 1];
    }
  }

  /** The replies of a served run are those of its first call followed by
      those of the rest. */
  lemma ServeRepliesCons(normalize: Normalizer, calls: seq<TokenizationCall>)
    requires calls != []
    ensures Replies(Serve(normalize, calls))
         == Replies(OnTokenizationRequest(normalize, calls[0])) + Replies(Serve(normalize, calls[1..]))
  {
    ProjectionsDistribute(OnTokenizationRequest(normalize, calls[0]), Serve(normalize, calls[1..]));
  }

  /** The replies the taxonomy prescribes for the calls, one per call, in order. */
  function PrescribedReplies(calls: seq<TokenizationCall>): (rs: seq<Reply>)
    requires AllAnswerable(calls)
    ensures |rs| == |calls|
    ensures forall i :: 0 <= i < |calls| ==> rs[i] == ReplyTo(calls[i].form, calls[i].outcome)
  {
    if calls == [] then []
    else
      AnswerableTail(calls);
      var tail := PrescribedReplies(calls[1..]);
      assert forall i :: 1 <= i < |calls| ==> calls[1..][i - 1] == calls[i];
      [ReplyTo(calls[0].form, calls[0].outcome)] + tail
  }

  /** Each request is answered exactly once, and the i-th reply goes with the
      i-th request: nothing is dropped, duplicated or reordered. */
  lemma {:induction false} ServeAnswersEveryCallInOrder(normalize: Normalizer, calls: seq<TokenizationCall>)
    requires AllAnswerable(calls)
    ensures Replies(Serve(normalize, calls)) == PrescribedReplies(calls)
  {
    if calls != [] {
      AnswerableTail(calls);
      ServeAnswersEveryCallInOrder(normalize, calls[1..]);
      ServeRepliesCons(normalize, calls);
    }
  }

  /** Exactly one gateway request is sent per call that finds the form
      tokenizable, and none for the others: no retries. */
  lemma {:induction false} ServeSendsOneRequestPerTokenizableCall(normalize: Normalizer, calls: seq<TokenizationCall>)
    ensures |Requests(Serve(normalize, calls))| == TokenizableCount(calls)
  {
    if calls != [] {
      ServeSendsOneRequestPerTokenizableCall(normalize, calls[1..]);
      ProjectionsDistribute(OnTokenizationRequest(normalize, calls[0]), Serve(normalize, calls[1..]));
    }
  }

  /** With well-formed client outcomes, one analytics event is sent per
      request that reached the network, and none for local rejections. */
  lemma {:induction false} ServeLogsOneEventPerNetworkCall(normalize: Normalizer, calls: seq<TokenizationCall>)
    requires AllAnswerable(calls)
    ensures |Events(Serve(normalize, calls))| == TokenizableCount(calls)
  {
    if calls != [] {
      AnswerableTail(calls);
      ServeLogsOneEventPerNetworkCall(normalize, calls[1..]);
      ProjectionsDistribute(OnTokenizationRequest(normalize, calls[0]), Serve(normalize, calls[1..]));
    }
  }
}
