/** Concrete calls of the client against canned responses from the service,
    the situations the repository's test suite describes, stated as
    properties of the model. */
module Scenarios {
  import opened JsonValues
  import opened Errors
  import opened Transport
  import opened TronZap
  import Facade

  /** A client built without a base URL talks to the production host, a
      custom one is kept as given, and trailing slashes on it are dropped. */
  lemma BaseUrlDefaults()
    ensures RStripSlash(DEFAULT_BASE_URL) == "https://api.tronzap.com"
    ensures RStripSlash("https://custom.api.tronzap.com") == "https://custom.api.tronzap.com"
    ensures RStripSlash("https://custom.api.tronzap.com//") == "https://custom.api.tronzap.com"
  {
  }

  /** `get_services` against a successful response returns the result
      verbatim, after posting a request signed with the client's token. The
      URL is the one the client passes to `requests.post`, as its first
      positional argument (src/tronzap_sdk/client.py:111-112); the test suite
      looks for it among the keyword arguments instead. */
  method ServicesScenario(dumps: Json -> string, sha256Hex: string -> string)
    returns (sent: PostRequest, r: Response)
    ensures sent.url == "https://api.tronzap.com/v1/services"
    ensures sent.body == dumps(JObj(map[]))
    ensures sent.headers == map[
      AUTHORIZATION := "Bearer test_token",
      X_SIGNATURE := sha256Hex(dumps(JObj(map[])) + "test_secret"),
      CONTENT_TYPE := "application/json"]
    ensures r == Ok(JObj(map["services" := JArr([JStr("energy"), JStr("activate_address")])]))
  {
    var client := new Client("test_token", "test_secret", dumps, sha256Hex);
    BaseUrlDefaults();
    var result := JObj(map["services" := JArr([JStr("energy"), JStr("activate_address")])]);
    var reply := Decoded(JObj(map["code" := JInt(0), "result" := result]));
    assert client.baseUrl == DEFAULT_BASE_URL;
    sent, r := client.GetServices(_ => reply);
    assert sent.url == DEFAULT_BASE_URL + Facade.SERVICES_PATH;
    assert Normalize(reply) == Ok(result);
    assert "Bearer " + "test_token" == "Bearer test_token";
  }

  /** An error response raises with the service's code and message, and the
      exception's text reads `TronZap API Error 1: Invalid API token`. */
  lemma ApiErrorScenario(containerRepr: Json -> string)
    ensures var r := Normalize(Decoded(JObj(map["code" := JInt(1), "error" := JStr("Invalid API token")])));
      && r == Raised(TronZapException(JStr("Invalid API token"), JInt(AUTH_ERROR)))
      && Text(r.error, containerRepr) == "TronZap API Error 1: Invalid API token"
  {
  }

  /** A transport failure raises with the default code, and the exception's
      text names the failure after the code. */
  lemma NetworkErrorScenario(detail: string, containerRepr: Json -> string)
    ensures var r := Normalize(NetworkFailure(detail));
      && r.Raised? && r.error.code == JInt(AUTH_ERROR)
      && Text(r.error, containerRepr) == TEXT_PREFIX + "1: " + REQUEST_FAILED_PREFIX + detail
  {
    assert Decimal.IntToDecimal(1) == "1";
  }

  /** `calculate` sends a duration of one hour unless told otherwise, and an
      energy purchase asking for activation carries the flag inside `params`. */
  lemma ParameterObjectsScenario()
    ensures Facade.Calculate("test_address", 131000).params
         == map["address" := JStr("test_address"), "energy" := JInt(131000), "duration" := JInt(1)]
    ensures Facade.CreateEnergyTransaction("test_address", 131000, 1, activateAddress := true).params
         == map["service" := JStr("energy"),
                "params" := JObj(map["address" := JStr("test_address"), "energy_amount" := JInt(131000),
                                     "duration" := JInt(1), "activate_address" := JBool(true)])]
  {
  }
}
