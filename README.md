# TronZap SDK client — a verified model

This project models the Python client library for the TronZap service, which
sells TRON "energy" and processes energy-purchase and address-activation
transactions. The model covers the library's one piece of real logic, the
signed request pipeline in `src/tronzap_sdk/client.py`. It has three parts:

- **The client and the signed request.** A `Client` has a token, a secret and
  a base URL, and none of them change after construction. Trailing `/`
  characters are stripped from the base URL. Each call serialises its
  parameter object once and signs `sha256(body + secret)`. It then POSTs that
  same body to `base_url + endpoint`, with `Authorization: Bearer <token>`,
  `X-Signature` and `Content-Type: application/json` headers.
- **Response normalisation.** The HTTP layer reports one of three things:
  a network failure, an undecodable body, or a decoded JSON value. Each report
  becomes exactly one `Response`: the `result` payload returned verbatim, a
  `TronZapException` with a message and a code, or one of the two Python
  exceptions the client lets escape (`KeyError`, `AttributeError`).
- **The eight operations.** Each operation maps its typed arguments to an
  endpoint path and a parameter object. The optional `id`, `external_id` and
  `activate_address` are left out when their argument is `None`, `""` or
  `False`. The optional `contract_address` and `duration` are always sent as
  given.

Modules, one file each:

| file | module | models |
|---|---|---|
| `json.dfy` | `JsonValues` | decoded JSON values, `dict.get`, Python truthiness of optional strings |
| `decimal.dfy` | `Decimal` | Python `str()` of an `int`, and the function that reads it back |
| `errors.dfy` | `Errors` | `TronZapException`, its text, the documented error codes |
| `transport.dfy` | `Transport` | the wire request, the transport outcome, `Normalize` |
| `facade.dfy` | `Facade` | the eight parameter builders and how the service reads them back |
| `client.dfy` | `TronZap` | `rstrip('/')`, the `Client` class, `Request` and the eight operations |
| `scenarios.dfy` | `Scenarios` | the situations in `tests/test_client.py`, stated as lemmas and a method |

External calls are parameters.
- `json.dumps` is the `Client.dumps` field, of type `Json -> string`.
- `hashlib.sha256(...).hexdigest()` is the `Client.sha256Hex` field.
- `requests.post` is the `post: PostRequest -> TransportOutcome` argument of
  each call, so the outcome is the answer to exactly the recorded request.
- Python's `repr` of a list or dict inside an exception text is the
  `containerRepr` argument.

Where the docstrings and type hints say one thing and the code does another, the model follows the code:
- The default `contract_address` of `estimate_energy` is `""`, which is sent as
  given. It is not the TRC20 token contract that the docstring names.
- A server error's message and code are whatever JSON values the response held
  under `error` and `code`. They may be `null`, a string, and so on; they are
  not always the `str` and `int` that the type hints of
  `TronZapException.__init__` declare. So `TronZapException` stores two `Json`
  values.
- A decoded response does not always give exactly one of payload or error.
  A `code` of `0` with no `result` raises `KeyError`. A body that is not a JSON
  object raises `AttributeError`. Neither is a `TronZapException`.
- Python's `False == 0` holds, so a `code` of `false` counts as success.

## Model

| member | source | states |
|---|---|---|
| `JsonValues.GetOr` | src/tronzap_sdk/client.py:125-126 | `dict.get(key, default)`: the stored value when the key is present, otherwise the default |
| `JsonValues.Supplied` | src/tronzap_sdk/client.py:231 | `if external_id:` treats an argument as present exactly when it is not `None` and not `""`, and then it is the argument itself |
| `Decimal.NatToDecimal` | src/tronzap_sdk/client.py:52 | the rendering of a natural number is a canonical numeral: non-empty, all digits, and beginning with `0` only when it is `0` itself |
| `Decimal.IntToDecimal` | src/tronzap_sdk/client.py:52 | `str(int)` begins with `-` exactly for negative numbers and every other character is a digit; it has no leading zero, begins with `0` only when it is `0`, and never reads `-0` |
| `Decimal.NatToDecimalRoundTrip` | src/tronzap_sdk/client.py:52 | the digits of `n` denote `n` |
| `Decimal.IntToDecimalRoundTrip` | src/tronzap_sdk/client.py:52 | reading back `str(i)` gives `i`, so distinct codes render differently |
| `Decimal.ParseIntOnlyCanonical` | src/tronzap_sdk/client.py:52 | the reader accepts only Python's spelling: a string that reads as `i` is `str(i)`, so leading zeros and `-0` are refused and, with `PyStr`'s contract, the text of an integer is determined by its value |
| `Errors.PyStr` | src/tronzap_sdk/client.py:52 | the f-string's conversion of a stored value: a string is itself, an integer renders so that it reads back as the same integer (which, by `ParseIntOnlyCanonical`, makes it exactly Python's decimal spelling), `None`/`True`/`False` render as those words, and a list or dict as its `repr` |
| `Errors.Text` | src/tronzap_sdk/client.py:52 | an exception's text begins with `TronZap API Error ` |
| `Errors.ParseText` | src/tronzap_sdk/client.py:52 | the inverse of `Text`: it accepts only texts that begin with the prefix |
| `Errors.FirstColon` | src/tronzap_sdk/client.py:52 | the index of the first `:`, used to split a text into code and message |
| `Errors.TextRoundTrip` | src/tronzap_sdk/client.py:49-52 | for an integer code and a string message, `str(e)` = `TronZap API Error {code}: {message}` gives back both |
| `Errors.ParseTextExact` | src/tronzap_sdk/client.py:49-52 | a text that reads back as a code and a message is exactly `TronZap API Error {code}: {message}` for them; no other spelling of the code is accepted |
| `Errors.TextDistinguishes` | src/tronzap_sdk/client.py:49-52 | two such exceptions have the same text if and only if they have the same code and message |
| `Transport.StatusIsSuccess` | src/tronzap_sdk/client.py:123 | `response_data.get('code') != 0` is false exactly when the code, read as `None` when absent, is `0` or `False`; an absent code never succeeds, and an integer code succeeds exactly when it is 0 |
| `Transport.Normalize` | src/tronzap_sdk/client.py:118-132 | network failure gives `API request failed: <detail>` with code 1. An undecodable body gives `Invalid JSON in response` with code 500, not wrapped again. A non-object body escapes as `AttributeError`. The result is `Ok` if and only if `code` is 0 (or `false`) and `result` is present, and then it is `result` verbatim. Code 0 without `result` escapes as `KeyError`. Any other status raises with the `error` and `code` values, or `Unknown API error` and 1 when they are absent |
| `Transport.ReplyBody` | src/tronzap_sdk/client.py:123-129 | the service's response envelope: an integer `code`, with `result` exactly on success and `error` exactly on failure |
| `Transport.ReplyRoundTrip` | src/tronzap_sdk/client.py:123-129 | for every service reply, the client returns the result verbatim, or raises with the service's own code and message, including codes it does not know |
| `Transport.ServiceErrorTextReadable` | src/tronzap_sdk/client.py:123-127 | the text of the exception raised for a service error gives back the service's code and message |
| `Facade.GetServices` | src/tronzap_sdk/client.py:141 | endpoint `/v1/services`, empty object |
| `Facade.GetBalance` | src/tronzap_sdk/client.py:150 | endpoint `/v1/balance`, empty object |
| `Facade.EstimateEnergy` | src/tronzap_sdk/client.py:152-173 | endpoint `/v1/estimate-energy`. The keys are exactly the two addresses and `contract_address`, each sent as given (`""` by default) |
| `Facade.Calculate` | src/tronzap_sdk/client.py:175-196 | endpoint `/v1/calculate`. The keys are exactly `address`, `energy` and `duration`, with duration defaulting to 1 |
| `Facade.WithExternalId` | src/tronzap_sdk/client.py:231-232 | adds `external_id` if and only if a non-empty one was supplied, leaves every other field alone, and adds no null or false |
| `Facade.CreateEnergyTransaction` | src/tronzap_sdk/client.py:198-234 | endpoint `/v1/transaction/new` with service `energy`. The top-level keys are `service`, `params`, and `external_id` exactly when one was supplied. The nested keys are `address`, `energy_amount`, `duration`, and `activate_address` exactly when the flag is set. No value anywhere is null or false |
| `Facade.CreateAddressActivationTransaction` | src/tronzap_sdk/client.py:236-261 | endpoint `/v1/transaction/new` with service `activate_address`. The nested object holds only `address`. `external_id` appears exactly when one was supplied. No null or false is sent |
| `Facade.CheckTransaction` | src/tronzap_sdk/client.py:263-285 | endpoint `/v1/transaction/check`. `id` and `external_id` each appear exactly when supplied non-empty, and no other key appears. With neither, the object is empty and is still sent |
| `Facade.GetDirectRechargeInfo` | src/tronzap_sdk/client.py:287-294 | endpoint `/v1/direct-recharge-info`, empty object |
| `Facade.EnergyOrderRoundTrip` | src/tronzap_sdk/client.py:219-232 | the service reads back exactly the energy purchase's arguments. An omitted flag reads as false, and `external_id` reads as its truthy value |
| `Facade.ActivationOrderRoundTrip` | src/tronzap_sdk/client.py:251-259 | the service reads back exactly the activation's address and truthy `external_id` |
| `Facade.EnergyTransactionDistinguishes` | src/tronzap_sdk/client.py:219-232 | two energy purchases build the same request if and only if their arguments agree, with `None` and `""` for `external_id` counting the same |
| `Facade.TransactionKindsDiffer` | src/tronzap_sdk/client.py:219-256 | the two transaction kinds share an endpoint but never a parameter object |
| `Facade.CheckTransactionDistinguishes` | src/tronzap_sdk/client.py:279-283 | two status checks build the same request if and only if their identifiers agree after truthiness |
| `TronZap.RStripSlash` | src/tronzap_sdk/client.py:77 | `rstrip('/')` gives a prefix of the input that does not end in `/` and is followed only by `/` |
| `TronZap.RStripSlashUnique` | src/tronzap_sdk/client.py:77 | that description determines the result: any prefix with those properties is it |
| `TronZap.RStripSlashIdempotent` | src/tronzap_sdk/client.py:77 | stripping twice is stripping once, and a URL without a trailing `/` is kept as given |
| `TronZap.Client.constructor` | src/tronzap_sdk/client.py:61-77 | the token and secret are stored unchanged, and the base URL is the argument (by default `https://api.tronzap.com`) without trailing slashes |
| `TronZap.Client.Request` | src/tronzap_sdk/client.py:99-132 | the request sent goes to `base_url + endpoint`. Its body is `dumps(params)`, and its headers are exactly `Bearer <token>`, `sha256Hex(body + secret)` over that same body, and `application/json`. The response is `Normalize` of the transport's answer to that very request |
| `TronZap.Client.SecretOnlyInSignature` | src/tronzap_sdk/client.py:104-114 | clients that differ only in their secret send the same URL, body and non-signature headers |
| `TronZap.Client.GetServices` | src/tronzap_sdk/client.py:134-141 | sends the signed request of `Facade.GetServices` and returns its normalised response |
| `TronZap.Client.GetBalance` | src/tronzap_sdk/client.py:143-150 | sends the signed request of `Facade.GetBalance` and returns its normalised response |
| `TronZap.Client.EstimateEnergy` | src/tronzap_sdk/client.py:152-173 | sends the signed request of `Facade.EstimateEnergy` and returns its normalised response |
| `TronZap.Client.Calculate` | src/tronzap_sdk/client.py:175-196 | sends the signed request of `Facade.Calculate` and returns its normalised response |
| `TronZap.Client.CreateEnergyTransaction` | src/tronzap_sdk/client.py:198-234 | sends the signed request of `Facade.CreateEnergyTransaction` and returns its normalised response |
| `TronZap.Client.CreateAddressActivationTransaction` | src/tronzap_sdk/client.py:236-261 | sends the signed request of `Facade.CreateAddressActivationTransaction` and returns its normalised response |
| `TronZap.Client.CheckTransaction` | src/tronzap_sdk/client.py:263-285 | sends the signed request of `Facade.CheckTransaction` and returns its normalised response |
| `TronZap.Client.GetDirectRechargeInfo` | src/tronzap_sdk/client.py:287-294 | sends the signed request of `Facade.GetDirectRechargeInfo` and returns its normalised response |
| `Scenarios.BaseUrlDefaults` | tests/test_client.py:18-33 | the default base URL is kept, the custom URL of the test is kept as given, and trailing slashes on a custom URL are dropped |
| `Scenarios.ServicesScenario` | tests/test_client.py:35-51 | `get_services` posts to `https://api.tronzap.com/v1/services` with `Bearer test_token` and the signature of the sent body, and returns the result verbatim. The test reads the URL from the keyword arguments of the mocked `requests.post`, but client.py:111-112 passes it positionally; the scenario states the URL the client actually posts |
| `Scenarios.ApiErrorScenario` | tests/test_client.py:129-142 | an error response raises with code 1 and message `Invalid API token`, and the text reads `TronZap API Error 1: Invalid API token` |
| `Scenarios.NetworkErrorScenario` | tests/test_client.py:144-150 | for any failure detail, a transport failure raises with code 1, and its text is `TronZap API Error 1: API request failed: <detail>` |
| `Scenarios.ParameterObjectsScenario` | tests/test_client.py:80-127 | `calculate` defaults the duration to 1, and an energy purchase with activation nests `activate_address: true` in `params` |

## Left out

- The HTTP call itself (`requests.post`), TLS verification and `response.json()` decoding are I/O. Together they are the `post` argument and its `TransportOutcome`.
- `json.dumps` and SHA-256 are uninterpreted functions given to the client. The model proves only that one serialisation is both signed and sent. It does not model the JSON text or the digest.
- The `method` argument of `_request` is accepted and ignored by the source, since every call is a POST. The model has no such argument.
- The `ErrorCode` enum appears only as constants (`Errors.INTERNAL_SERVER_ERROR` …). No code path branches on it, and unknown codes pass through.
- Floating-point JSON numbers are not modelled. With them, a `code` of `0.0` would also count as success.
- `Errors.Text` takes Python's `repr` of a list or dict as a parameter. That rendering depends on the key order of the original document, and a `map` does not keep it.
- Arguments are typed as the signatures declare them. Python would also accept other values, such as any truthy object for `activate_address`.
- The key order of the parameter objects is not kept (`map`). It reaches the wire only through `json.dumps`, which is a parameter here.
- `setup.py` (packaging), `examples/basic_usage.py` (printing and demo I/O) and `src/tronzap_sdk/__init__.py` (re-exports) are not part of this model.
