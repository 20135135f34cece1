/** The client object: credentials and base URL fixed at construction, one
    signed POST per call, and the eight named operations built on it. */
module TronZap {
  import opened JsonValues
  import opened Errors
  import opened Transport
  import Facade

  const DEFAULT_BASE_URL: string := "https://api.tronzap.com"

  /** Python's `s.rstrip('/')`: `s` without its run of trailing slashes. */
  function RStripSlash(s: string): (r: string)
    ensures |r| <= |s| && r == s[..|r|]
    ensures r == [] || r[|r| - 1] != '/'
    ensures forall k :: |r| <= k < |s| ==> s[k] == '/'
  {
    if s != [] && s[|s| - 1] == '/' then RStripSlash(s[..|s| - 1]) else s
  }

  /** The three properties in `RStripSlash`'s contract pin its result down:
      any prefix of `s` that does not end in `/` and is followed only by `/`
      is that result. */
  lemma RStripSlashUnique(s: string, t: string)
    requires |t| <= |s| && t == s[..|t|]
    requires t == [] || t[|t| - 1] != '/'
    requires forall k :: |t| <= k < |s| ==> s[k] == '/'
    ensures t == RStripSlash(s)
  {
  }

  /** Stripping twice strips nothing more, and a URL without a trailing
      slash is kept as given. */
  lemma RStripSlashIdempotent(s: string)
    ensures RStripSlash(RStripSlash(s)) == RStripSlash(s)
    ensures s == [] || s[|s| - 1] != '/' ==> RStripSlash(s) == s
  {
  }

  const AUTHORIZATION: string := "Authorization"
  const X_SIGNATURE: string := "X-Signature"
  const CONTENT_TYPE: string := "Content-Type"

  class Client {
    const apiToken: string
    const apiSecret: string
    const baseUrl: string
    /** `json.dumps`, the serialisation the client signs and sends. */
    const dumps: Json -> string
    /** `hashlib.sha256(text.encode()).hexdigest()`. */
    const sha256Hex: string -> string

    constructor (apiToken: string, apiSecret: string,
                 dumps: Json -> string, sha256Hex: string -> string,
                 baseUrl: string := DEFAULT_BASE_URL)
      ensures this.apiToken == apiToken && this.apiSecret == apiSecret
      ensures this.baseUrl == RStripSlash(baseUrl)
      ensures this.dumps == dumps
      ensures this.sha256Hex == sha256Hex
    {
      this.apiToken := apiToken;
      this.apiSecret := apiSecret;
      this.baseUrl := RStripSlash(baseUrl);
      this.dumps := dumps;
      this.sha256Hex := sha256Hex;
    }

    /** `sent` is the POST this client issues for `endpoint` and `params`:
        the body is serialised once, the signature is the digest of that very
        body followed by the secret, and the secret appears nowhere else. */
    predicate Issued(sent: PostRequest, endpoint: string, params: Json) {
      && sent.url == baseUrl + endpoint
      && sent.body == dumps(params)
      && sent.headers == map[
           AUTHORIZATION := "Bearer " + apiToken,
           X_SIGNATURE := sha256Hex(sent.body + apiSecret),
           CONTENT_TYPE := "application/json"]
    }

    predicate IssuedCall(sent: PostRequest, call: Facade.ApiCall) {
      Issued(sent, call.endpoint, JObj(call.params))
    }

    /** One signed request: `post` stands for the HTTP layer and answers the
        request the client recorded, which the client then classifies. */
    method Request(endpoint: string, params: Json, post: PostRequest -> TransportOutcome)
      returns (sent: PostRequest, r: Response)
      ensures Issued(sent, endpoint, params)
      ensures r == Normalize(post(sent))
    {
      var body := dumps(params);
      var signature := sha256Hex(body + apiSecret);
      var headers := map[
        AUTHORIZATION := "Bearer " + apiToken,
        X_SIGNATURE := signature,
        CONTENT_TYPE := "application/json"];
      sent := PostRequest(baseUrl + endpoint, body, headers);
      var outcome := post(sent);
      r := Normalize(outcome);
    }

    /** Two clients that differ only in their secret send the same URL, body
        and headers apart from the signature. */
    lemma SecretOnlyInSignature(other: Client, sent: PostRequest, sent': PostRequest, endpoint: string, params: Json)
      requires other.apiToken == apiToken && other.baseUrl == baseUrl
      requires other.dumps == dumps
      requires Issued(sent, endpoint, params) && other.Issued(sent', endpoint, params)
      ensures sent.url == sent'.url && sent.body == sent'.body
      ensures sent.headers.Keys == sent'.headers.Keys
      ensures forall h :: h in sent.headers && h != X_SIGNATURE ==> sent.headers[h] == sent'.headers[h]
    {
    }

    method GetServices(post: PostRequest -> TransportOutcome) returns (sent: PostRequest, r: Response)
      ensures IssuedCall(sent, Facade.GetServices())
      ensures r == Normalize(post(sent))
    {
      var call := Facade.GetServices();
      sent, r := Request(call.endpoint, JObj(call.params), post);
    }

    method GetBalance(post: PostRequest -> TransportOutcome) returns (sent: PostRequest, r: Response)
      ensures IssuedCall(sent, Facade.GetBalance())
      ensures r == Normalize(post(sent))
    {
      var call := Facade.GetBalance();
      sent, r := Request(call.endpoint, JObj(call.params), post);
    }

    method EstimateEnergy(post: PostRequest -> TransportOutcome,
                          fromAddress: string, toAddress: string, contractAddress: string := "")
      returns (sent: PostRequest, r: Response)
      ensures IssuedCall(sent, Facade.EstimateEnergy(fromAddress, toAddress, contractAddress))
      ensures r == Normalize(post(sent))
    {
      var call := Facade.EstimateEnergy(fromAddress, toAddress, contractAddress);
      sent, r := Request(call.endpoint, JObj(call.params), post);
    }

    method Calculate(post: PostRequest -> TransportOutcome, address: string, energy: int, duration: int := 1)
      returns (sent: PostRequest, r: Response)
      ensures IssuedCall(sent, Facade.Calculate(address, energy, duration))
      ensures r == Normalize(post(sent))
    {
      var call := Facade.Calculate(address, energy, duration);
      sent, r := Request(call.endpoint, JObj(call.params), post);
    }

    method CreateEnergyTransaction(post: PostRequest -> TransportOutcome,
                                   address: string, energyAmount: int, duration: int := 1,
                                   externalId: Option<string> := None, activateAddress: bool := false)
      returns (sent: PostRequest, r: Response)
      ensures IssuedCall(sent, Facade.CreateEnergyTransaction(address, energyAmount, duration, externalId, activateAddress))
      ensures r == Normalize(post(sent))
    {
      var call := Facade.CreateEnergyTransaction(address, energyAmount, duration, externalId, activateAddress);
      sent, r := Request(call.endpoint, JObj(call.params), post);
    }

    method CreateAddressActivationTransaction(post: PostRequest -> TransportOutcome,
                                              address: string, externalId: Option<string> := None)
      returns (sent: PostRequest, r: Response)
      ensures IssuedCall(sent, Facade.CreateAddressActivationTransaction(address, externalId))
      ensures r == Normalize(post(sent))
    {
      var call := Facade.CreateAddressActivationTransaction(address, externalId);
      sent, r := Request(call.endpoint, JObj(call.params), post);
    }

    method CheckTransaction(post: PostRequest -> TransportOutcome,
                            id: Option<string> := None, externalId: Option<string> := None)
      returns (sent: PostRequest, r: Response)
      ensures IssuedCall(sent, Facade.CheckTransaction(id, externalId))
      ensures r == Normalize(post(sent))
    {
      var call := Facade.CheckTransaction(id, externalId);
      sent, r := Request(call.endpoint, JObj(call.params), post);
    }

    method GetDirectRechargeInfo(post: PostRequest -> TransportOutcome) returns (sent: PostRequest, r: Response)
      ensures IssuedCall(sent, Facade.GetDirectRechargeInfo())
      ensures r == Normalize(post(sent))
    {
      var call := Facade.GetDirectRechargeInfo();
      sent, r := Request(call.endpoint, JObj(call.params), post);
    }
  }
}
