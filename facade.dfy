/** The eight named operations of the client, each reduced to what it hands
    to the signed request pipeline: an endpoint path and a parameter object.
    The optional `id`, `external_id` and `activate_address` follow Python
    truthiness: a field whose argument is `None`, `""` or `False` is left out
    of the object, never sent as `null`, `""` or `false`. The other optional
    arguments, `contract_address` and `duration`, are always sent as given.
    No argument is validated locally. */
module Facade {
  import opened JsonValues

  datatype ApiCall = ApiCall(endpoint: string, params: map<string, Json>)

  const SERVICES_PATH: string := "/v1/services"
  const BALANCE_PATH: string := "/v1/balance"
  const ESTIMATE_ENERGY_PATH: string := "/v1/estimate-energy"
  const CALCULATE_PATH: string := "/v1/calculate"
  const TRANSACTION_NEW_PATH: string := "/v1/transaction/new"
  const TRANSACTION_CHECK_PATH: string := "/v1/transaction/check"
  const DIRECT_RECHARGE_INFO_PATH: string := "/v1/direct-recharge-info"

  function GetServices(): (c: ApiCall)
    ensures c.endpoint == SERVICES_PATH && c.params == map[]
  {
    ApiCall(SERVICES_PATH, map[])
  }

  function GetBalance(): (c: ApiCall)
    ensures c.endpoint == BALANCE_PATH && c.params == map[]
  {
    ApiCall(BALANCE_PATH, map[])
  }

  function GetDirectRechargeInfo(): (c: ApiCall)
    ensures c.endpoint == DIRECT_RECHARGE_INFO_PATH && c.params == map[]
  {
    ApiCall(DIRECT_RECHARGE_INFO_PATH, map[])
  }

  /** The contract address is sent as given, the empty string when omitted;
      no token contract is substituted for it. */
  function EstimateEnergy(fromAddress: string, toAddress: string, contractAddress: string := ""): (c: ApiCall)
    ensures c.endpoint == ESTIMATE_ENERGY_PATH
    ensures c.params.Keys == {"from_address", "to_address", "contract_address"}
    ensures StrField(c.params, "from_address") == Some(fromAddress)
    ensures StrField(c.params, "to_address") == Some(toAddress)
    ensures StrField(c.params, "contract_address") == Some(contractAddress)
  {
    ApiCall(ESTIMATE_ENERGY_PATH, map[
      "from_address" := JStr(fromAddress),
      "to_address" := JStr(toAddress),
      "contract_address" := JStr(contractAddress)])
  }

  function Calculate(address: string, energy: int, duration: int := 1): (c: ApiCall)
    ensures c.endpoint == CALCULATE_PATH
    ensures c.params.Keys == {"address", "energy", "duration"}
    ensures StrField(c.params, "address") == Some(address)
    ensures c.params["energy"] == JInt(energy) && c.params["duration"] == JInt(duration)
  {
    ApiCall(CALCULATE_PATH, map[
      "address" := JStr(address),
      "energy" := JInt(energy),
      "duration" := JInt(duration)])
  }

  /** Adds `external_id` to `fields` when the caller supplied a non-empty one. */
  function WithExternalId(fields: map<string, Json>, externalId: Option<string>): (r: map<string, Json>)
    requires "external_id" !in fields
    ensures r.Keys == fields.Keys + (if Supplied(externalId).Some? then {"external_id"} else {})
    ensures StrField(r, "external_id") == Supplied(externalId)
    ensures forall key :: key in fields ==> r[key] == fields[key]
    ensures NoNullOrFalse(JObj(fields)) ==> NoNullOrFalse(JObj(r))
  {
    match Supplied(externalId)
    case None => fields
    case Some(id) => fields["external_id" := JStr(id)]
  }

  function CreateEnergyTransaction(
    address: string, energyAmount: int, duration: int := 1,
    externalId: Option<string> := None, activateAddress: bool := false): (c: ApiCall)
    ensures c.endpoint == TRANSACTION_NEW_PATH
    ensures c.params.Keys == {"service", "params"} + (if Supplied(externalId).Some? then {"external_id"} else {})
    ensures c.params["service"] == JStr("energy") && c.params["params"].JObj?
    ensures c.params["params"].fields.Keys ==
      {"address", "energy_amount", "duration"} + (if activateAddress then {"activate_address"} else {})
    ensures NoNullOrFalse(JObj(c.params))
  {
    var required := map[
      "address" := JStr(address),
      "energy_amount" := JInt(energyAmount),
      "duration" := JInt(duration)];
    var order := if activateAddress then required["activate_address" := JBool(true)] else required;
    assert NoNullOrFalse(JObj(order));
    var request := map["service" := JStr("energy"), "params" := JObj(order)];
    assert NoNullOrFalse(JObj(request));
    ApiCall(TRANSACTION_NEW_PATH, WithExternalId(request, externalId))
  }

  function CreateAddressActivationTransaction(address: string, externalId: Option<string> := None): (c: ApiCall)
    ensures c.endpoint == TRANSACTION_NEW_PATH
    ensures c.params.Keys == {"service", "params"} + (if Supplied(externalId).Some? then {"external_id"} else {})
    ensures c.params["service"] == JStr("activate_address") && c.params["params"].JObj?
    ensures c.params["params"].fields.Keys == {"address"}
    ensures NoNullOrFalse(JObj(c.params))
  {
    var order := map["address" := JStr(address)];
    assert NoNullOrFalse(JObj(order));
    var request := map["service" := JStr("activate_address"), "params" := JObj(order)];
    assert NoNullOrFalse(JObj(request));
    ApiCall(TRANSACTION_NEW_PATH, WithExternalId(request, externalId))
  }

  /** Either key may be left out, both may be: the request is sent as it is
      and the service decides. */
  function CheckTransaction(id: Option<string> := None, externalId: Option<string> := None): (c: ApiCall)
    ensures c.endpoint == TRANSACTION_CHECK_PATH
    ensures "id" in c.params <==> Supplied(id).Some?
    ensures "external_id" in c.params <==> Supplied(externalId).Some?
    ensures c.params.Keys <= {"id", "external_id"}
    ensures StrField(c.params, "id") == Supplied(id)
    ensures StrField(c.params, "external_id") == Supplied(externalId)
    ensures NoNullOrFalse(JObj(c.params))
  {
    var lookup := match Supplied(id)
      case None => map[]
      case Some(v) => map["id" := JStr(v)];
    ApiCall(TRANSACTION_CHECK_PATH, WithExternalId(lookup, externalId))
  }

  /** A transaction request as the service reads it back from the
      parameter object: an absent `activate_address` reads as false, an absent
      `external_id` as none. */
  datatype Order =
    | EnergyOrder(address: string, energyAmount: int, duration: int, activateAddress: bool, externalId: Option<string>)
    | ActivationOrder(address: string, externalId: Option<string>)

  function ReadOrder(params: map<string, Json>): (r: Option<Order>)
    ensures r.Some? ==> "service" in params && "params" in params && params["params"].JObj?
  {
    if "service" !in params || "params" !in params || !params["params"].JObj? then None
    else
      var order := params["params"].fields;
      var externalId := StrField(params, "external_id");
      match StrField(order, "address")
      case None => None
      case Some(address) =>
        if params["service"] == JStr("activate_address") then Some(ActivationOrder(address, externalId))
        else if params["service"] != JStr("energy") then None
        else if "energy_amount" !in order || !order["energy_amount"].JInt? then None
        else if "duration" !in order || !order["duration"].JInt? then None
        else
          var activate := "activate_address" in order && order["activate_address"] == JBool(true);
          Some(EnergyOrder(address, order["energy_amount"].i, order["duration"].i, activate, externalId))
  }

  /** The service reads back exactly the arguments of an energy purchase,
      with the optional ones as Python truthiness sees them. */
  lemma EnergyOrderRoundTrip(address: string, energyAmount: int, duration: int, externalId: Option<string>, activateAddress: bool)
    ensures ReadOrder(CreateEnergyTransaction(address, energyAmount, duration, externalId, activateAddress).params)
         == Some(EnergyOrder(address, energyAmount, duration, activateAddress, Supplied(externalId)))
  {
  }

  lemma ActivationOrderRoundTrip(address: string, externalId: Option<string>)
    ensures ReadOrder(CreateAddressActivationTransaction(address, externalId).params)
         == Some(ActivationOrder(address, Supplied(externalId)))
  {
  }

  /** Two energy purchases produce the same parameter object exactly when
      their arguments agree, an omitted `external_id` counting the same as an
      empty one. */
  lemma EnergyTransactionDistinguishes(
    a1: string, e1: int, d1: int, x1: Option<string>, act1: bool,
    a2: string, e2: int, d2: int, x2: Option<string>, act2: bool)
    ensures CreateEnergyTransaction(a1, e1, d1, x1, act1) == CreateEnergyTransaction(a2, e2, d2, x2, act2)
        <==> a1 == a2 && e1 == e2 && d1 == d2 && act1 == act2 && Supplied(x1) == Supplied(x2)
  {
  }

  /** The two kinds of transaction share an endpoint but never a parameter
      object. */
  lemma TransactionKindsDiffer(
    address: string, energyAmount: int, duration: int, externalId: Option<string>, activateAddress: bool,
    address': string, externalId': Option<string>)
    ensures CreateEnergyTransaction(address, energyAmount, duration, externalId, activateAddress).endpoint
         == CreateAddressActivationTransaction(address', externalId').endpoint
    ensures CreateEnergyTransaction(address, energyAmount, duration, externalId, activateAddress).params
         != CreateAddressActivationTransaction(address', externalId').params
  {
  }

  /** A status check depends on its arguments only through their
      truthiness: omitted and empty identifiers give the same request. */
  lemma CheckTransactionDistinguishes(id1: Option<string>, x1: Option<string>, id2: Option<string>, x2: Option<string>)
    ensures CheckTransaction(id1, x1) == CheckTransaction(id2, x2)
        <==> Supplied(id1) == Supplied(id2) && Supplied(x1) == Supplied(x2)
  {
  }
}
