/** What one signed request looks like on the wire, what the network can
    answer, and how the client turns that answer into exactly one outcome:
    the `result` payload, a `TronZapException`, or a Python exception the
    client does not catch. */
module Transport {
  import opened JsonValues
  import opened Errors

  /** An HTTP POST as handed to the transport: the full URL, the body text
      and the headers. */
  datatype PostRequest = PostRequest(url: string, body: string, headers: map<string, string>)

  /** What the HTTP layer reports for one POST: it failed before a response
      arrived (`detail` is the text of the transport's exception), or the
      response body could not be decoded as JSON, or it decoded to `body`. */
  datatype TransportOutcome =
    | NetworkFailure(detail: string)
    | Undecodable
    | Decoded(body: Json)

  /** Python exceptions other than `TronZapException` that escape the
      client: a `KeyError` when a successful response has no `result`, and an
      `AttributeError` when the decoded body is not a JSON object. */
  datatype Uncaught = KeyError(key: string) | AttributeError

  datatype Response =
    | Ok(payload: Json)
    | Raised(error: TronZapException)
    | Crashed(cause: Uncaught)

  const REQUEST_FAILED_PREFIX: string := "API request failed: "
  const INVALID_JSON_MESSAGE: string := "Invalid JSON in response"
  const UNKNOWN_ERROR_MESSAGE: string := "Unknown API error"

  /** Python's `fields.get('code') == 0`: an absent code reads as `None`,
      which differs from 0, and `False` compares equal to 0. */
  function StatusIsSuccess(fields: map<string, Json>): (ok: bool)
    ensures ok <==> GetOr(fields, "code", JNull) == JInt(0) || GetOr(fields, "code", JNull) == JBool(false)
    ensures "code" !in fields ==> !ok
    ensures "code" in fields && fields["code"].JInt? ==> (ok <==> fields["code"].i == 0)
  {
    "code" in fields && (fields["code"] == JInt(0) || fields["code"] == JBool(false))
  }

  /** The classification the client applies to the transport's report. */
  function Normalize(outcome: TransportOutcome): (r: Response)
    // A transport failure is wrapped with the exception's default code.
    ensures outcome.NetworkFailure? ==>
      r == Raised(TronZapException(JStr(REQUEST_FAILED_PREFIX + outcome.detail), JInt(AUTH_ERROR)))
    // An undecodable body is reported as such and not wrapped again.
    ensures outcome.Undecodable? ==>
      r == Raised(TronZapException(JStr(INVALID_JSON_MESSAGE), JInt(INTERNAL_SERVER_ERROR)))
    // A decoded body that is not an object escapes as an AttributeError.
    ensures outcome.Decoded? && !outcome.body.JObj? ==> r == Crashed(AttributeError)
    // The payload is returned exactly when the status is 0 and a result is present, and verbatim.
    ensures r.Ok? <==>
      outcome.Decoded? && outcome.body.JObj? && StatusIsSuccess(outcome.body.fields) && "result" in outcome.body.fields
    ensures r.Ok? ==> r.payload == outcome.body.fields["result"]
    // Status 0 without a result escapes as a KeyError, not as a TronZapException.
    ensures outcome.Decoded? && outcome.body.JObj? && StatusIsSuccess(outcome.body.fields) && "result" !in outcome.body.fields
      ==> r == Crashed(KeyError("result"))
    // Any other status raises with the server's error and code, whatever their values, or the defaults.
    ensures outcome.Decoded? && outcome.body.JObj? && !StatusIsSuccess(outcome.body.fields) ==>
      && r.Raised?
      && r.error.message == GetOr(outcome.body.fields, "error", JStr(UNKNOWN_ERROR_MESSAGE))
      && r.error.code == GetOr(outcome.body.fields, "code", JInt(AUTH_ERROR))
  {
    match outcome
    case NetworkFailure(detail) =>
      Raised(TronZapException(JStr(REQUEST_FAILED_PREFIX + detail)))
    case Undecodable =>
      Raised(TronZapException(JStr(INVALID_JSON_MESSAGE), JInt(INTERNAL_SERVER_ERROR)))
    case Decoded(body) =>
      if !body.JObj? then Crashed(AttributeError)
      else if !StatusIsSuccess(body.fields) then
        Raised(TronZapException(GetOr(body.fields, "error", JStr(UNKNOWN_ERROR_MESSAGE)),
                                GetOr(body.fields, "code", JInt(AUTH_ERROR))))
      else if "result" in body.fields then Ok(body.fields["result"])
      else Crashed(KeyError("result"))
  }

  /** What the service means to say in a response: a result, or an error
      code other than 0 with its message. */
  datatype Reply = Success(result: Json) | Failure(code: int, message: string)

  /** The response body the service sends for `reply`. */
  function ReplyBody(reply: Reply): (body: Json)
    ensures body.JObj? && "code" in body.fields && body.fields["code"].JInt?
    ensures "result" in body.fields <==> reply.Success?
    ensures "error" in body.fields <==> reply.Failure?
  {
    match reply
    case Success(result) => JObj(map["code" := JInt(0), "result" := result])
    case Failure(code, message) => JObj(map["code" := JInt(code), "error" := JStr(message)])
  }

  /** The client recovers what the service said: the result verbatim, or an
      exception carrying the service's code and message, including codes the
      client does not know. */
  lemma ReplyRoundTrip(reply: Reply)
    requires reply.Failure? ==> reply.code != 0
    ensures Normalize(Decoded(ReplyBody(reply))) ==
      match reply
      case Success(result) => Ok(result)
      case Failure(code, message) => Raised(TronZapException(JStr(message), JInt(code)))
  {
  }

  /** The text of the exception raised for a service error gives back the
      service's code and message. */
  lemma ServiceErrorTextReadable(code: int, message: string, containerRepr: Json -> string)
    requires code != 0
    ensures var r := Normalize(Decoded(ReplyBody(Failure(code, message))));
      r.Raised? && ParseText(Text(r.error, containerRepr)) == Some((code, message))
  {
    ReplyRoundTrip(Failure(code, message));
    TextRoundTrip(message, code, containerRepr);
  }
}
