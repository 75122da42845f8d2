/**
 The errors a tokenization reply can carry. The type and message strings of
 the hosted-fields error table are defined in a file that is not part of this
 model, so an error the handler creates is identified by its code alone.
 */
module HostedFieldsErrors {

  import opened Wrappers
  import opened JsValues
  import opened CardForm

  /** Codes of the errors the handler constructs itself. */
  datatype ErrorCode =
    | FieldsEmpty
    | FieldsInvalid
    | FailedTokenization
    | TokenizationNetworkError

  /** An error reported by the HTTP client; opaque to this layer. */
  datatype ClientError = ClientError(name: string, message: string, details: JsValue)

  /** The `details` property of an error built by the handler. */
  datatype ErrorDetails =
    | NoDetails
    | InvalidFieldKeys(keys: seq<FieldKey>)
    | OriginalError(original: ClientError)

  /** The first reply argument on failure: either an error built by the
      handler, or the client's own error handed on unchanged. */
  datatype ReplyError =
    | HostedFieldsError(code: ErrorCode, details: ErrorDetails)
    | PassThrough(original: ClientError)

  /** A local validation error: raised before any network call. */
  predicate IsLocal(e: ReplyError) {
    e.HostedFieldsError? && (e.code == FieldsEmpty || e.code == FieldsInvalid)
  }

  /** The client error a reply error retains, if any: the error itself when
      it was passed through, or `details.originalError` when it was wrapped. */
  function OriginalErrorOf(e: ReplyError): Option<ClientError> {
    match e
    case PassThrough(original) => Some(original)
    case HostedFieldsError(_, OriginalError(original)) => Some(original)
    case HostedFieldsError(_, _) => None
  }
}
