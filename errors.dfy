/** The SDK's single failure type, `TronZapException`, with the error codes
    the remote service documents. The codes are documentation only: nothing
    branches on them, and any other code the server sends passes through. */
module Errors {
  import opened JsonValues
  import opened Decimal

  const INTERNAL_SERVER_ERROR: int := 500
  const AUTH_ERROR: int := 1
  const INVALID_SERVICE_OR_PARAMS: int := 2
  const WALLET_NOT_FOUND: int := 5
  const INSUFFICIENT_FUNDS: int := 6
  const INVALID_TRON_ADDRESS: int := 10
  const INVALID_ENERGY_AMOUNT: int := 11
  const INVALID_DURATION: int := 12
  const TRANSACTION_NOT_FOUND: int := 20
  const ADDRESS_NOT_ACTIVATED: int := 24
  const ADDRESS_ALREADY_ACTIVATED: int := 25

  /** The exception's two stored fields, kept exactly as raised. Both are
      JSON values rather than a string and an integer: for a server error
      they are whatever the response held under `error` and `code`. The code
      defaults to `AUTH_ERROR`, as the Python constructor's does. */
  datatype TronZapException = TronZapException(message: Json, code: Json := JInt(AUTH_ERROR))

  const TEXT_PREFIX: string := "TronZap API Error "

  /** Python's `str()` of a decoded JSON value. Lists and dicts are rendered
      by `containerRepr`, Python's `repr`, which depends on the key order of
      the original document. */
  function PyStr(v: Json, containerRepr: Json -> string): (s: string)
    ensures v.JStr? ==> s == v.s
    ensures v.JInt? ==> ParseInt(s) == Some(v.i)
    ensures v.JNull? ==> s == "None"
    ensures v.JBool? ==> s == if v.b then "True" else "False"
    ensures v.JArr? || v.JObj? ==> s == containerRepr(v)
  {
    match v
    case JNull => "None"
    case JBool(b) => if b then "True" else "False"
    case JInt(i) => IntToDecimalRoundTrip(i); IntToDecimal(i)
    case JStr(s) => s
    case JArr(_) => containerRepr(v)
    case JObj(_) => containerRepr(v)
  }

  /** `str(e)`: the text the exception carries. */
  function Text(e: TronZapException, containerRepr: Json -> string): (t: string)
    ensures |t| >= |TEXT_PREFIX| + 2 && t[..|TEXT_PREFIX|] == TEXT_PREFIX
  {
    TEXT_PREFIX + PyStr(e.code, containerRepr) + ": " + PyStr(e.message, containerRepr)
  }

  /** The index of the first `:` in `s`, or `|s|` when there is none. */
  function FirstColon(s: string): (k: nat)
    ensures k <= |s|
    ensures forall j :: 0 <= j < k ==> s[j] != ':'
    ensures k < |s| ==> s[k] == ':'
  {
    if s == [] then 0
    else if s[0] == ':' then 0
    else 1 + FirstColon(s[1..])
  }

  /** Reads an exception text back into its integer code and string message. */
  function ParseText(t: string): (r: Option<(int, string)>)
    ensures r.Some? ==> |t| >= |TEXT_PREFIX| + 2 && t[..|TEXT_PREFIX|] == TEXT_PREFIX
  {
    if |t| < |TEXT_PREFIX| || t[..|TEXT_PREFIX|] != TEXT_PREFIX then None
    else
      var rest := t[|TEXT_PREFIX|..];
      var k := FirstColon(rest);
      if k + 1 < |rest| && rest[k + 1] == ' ' then
        match ParseInt(rest[..k])
        case None => None
        case Some(c) => Some((c, rest[k + 2..]))
      else None
  }

  /** The text of an exception with an integer code and a string message
      determines both: the code is rendered without any `:`, so the first
      `: ` after the prefix separates it from the message. */
  lemma {:induction false} TextRoundTrip(message: string, code: int, containerRepr: Json -> string)
    ensures ParseText(Text(TronZapException(JStr(message), JInt(code)), containerRepr)) == Some((code, message))
  {
    var t := Text(TronZapException(JStr(message), JInt(code)), containerRepr);
    var digits := IntToDecimal(code);
    assert t == TEXT_PREFIX + (digits + ": " + message);
    var rest := t[|TEXT_PREFIX|..];
    assert rest == digits + ": " + message;
    var k := FirstColon(rest);
    assert rest[|digits|] == ':';
    assert forall j :: 0 <= j < |digits| ==> rest[j] == digits[j];
    assert k == |digits|;
    assert rest[..k] == digits;
    assert rest[k + 2..] == message;
    IntToDecimalRoundTrip(code);
  }

  /** Conversely, a text that reads back as a code and a message is exactly
      the text of the exception carrying them: no other spelling of the code,
      such as one with leading zeros, is accepted. */
  lemma {:induction false} ParseTextExact(t: string, code: int, message: string, containerRepr: Json -> string)
    requires ParseText(t) == Some((code, message))
    ensures t == Text(TronZapException(JStr(message), JInt(code)), containerRepr)
  {
    var rest := t[|TEXT_PREFIX|..];
    var k := FirstColon(rest);
    ParseIntOnlyCanonical(rest[..k], code);
    assert rest == rest[..k] + ": " + rest[k + 2..];
    assert t == TEXT_PREFIX + rest;
  }

  /** Two exceptions with integer codes and string messages have the same
      text exactly when they have the same code and message. */
  lemma TextDistinguishes(m1: string, c1: int, m2: string, c2: int, containerRepr: Json -> string)
    ensures Text(TronZapException(JStr(m1), JInt(c1)), containerRepr) == Text(TronZapException(JStr(m2), JInt(c2)), containerRepr)
            <==> m1 == m2 && c1 == c2
  {
    TextRoundTrip(m1, c1, containerRepr);
    TextRoundTrip(m2, c2, containerRepr);
  }
}
