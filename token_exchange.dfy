/** The `TokenExchange` resource group: trading a token for a privilege
    token on a vehicle NFT. The per-environment constants table is a
    parameter of the group: `constants[env]` is that environment's table,
    whose `"NFT_address"` entry is the NFT contract address. */
module TokenExchangeApi {
  import opened Values
  import opened Dispatcher

  const ExchangePath := "/v1/tokens/exchange"

  /** `dimo_constants[env]["NFT_address"]`: a KeyError for an unknown
      environment or a table without the entry. */
  function NftAddress(constants: map<string, Value>, env: string): (r: Result<Value>)
    ensures r.Ok? <==> env in constants && constants[env].Dict? && "NFT_address" in Keys(constants[env].entries)
    ensures r.Ok? ==> Lookup(constants[env].entries, "NFT_address") == Some(r.value)
    ensures env !in constants ==> r == Err(KeyError(env))
    ensures env in constants && constants[env].Dict? && r.Err? ==> r == Err(KeyError("NFT_address"))
    ensures env in constants && !constants[env].Dict? ==> r == Err(NotSubscriptable)
  {
    if env !in constants then Err(KeyError(env)) else Subscript(constants[env], "NFT_address")
  }

  /** The body `exchange` sends. */
  function ExchangeBody(address: Value, privileges: Value, tokenId: Value): Value {
    Dict([("nftContractAddress", address), ("privileges", privileges), ("tokenId", tokenId)])
  }

  /** The request `exchange` makes, or what it raises first: the three type
      checks in order, then the table lookup. */
  function ExchangePlan(constants: map<string, Value>, token: Value, privileges: Value, tokenId: Value, env: string): Result<Call> {
    if !token.Str? then Err(TypeError("token"))
    else if !privileges.List? then Err(TypeError("privileges"))
    else if !tokenId.Str? then Err(TypeError("token_id"))
    else match NftAddress(constants, env)
      case Err(e) => Err(e)
      case Ok(address) =>
        Ok(Call("POST", "TokenExchange", ExchangePath,
          Kwargs(Some(AuthHeaders(token)), Json(ExchangeBody(address, privileges, tokenId)), None)))
  }

  /** The body has exactly the three keys, in order; the privileges list and
      the token id are passed through unchanged. */
  lemma ExchangeBodyKeys(address: Value, privileges: Value, tokenId: Value)
    ensures Keys(ExchangeBody(address, privileges, tokenId).entries) == ["nftContractAddress", "privileges", "tokenId"]
    ensures DistinctKeys(ExchangeBody(address, privileges, tokenId).entries)
    ensures Lookup(ExchangeBody(address, privileges, tokenId).entries, "nftContractAddress") == Some(address)
    ensures Lookup(ExchangeBody(address, privileges, tokenId).entries, "privileges") == Some(privileges)
    ensures Lookup(ExchangeBody(address, privileges, tokenId).entries, "tokenId") == Some(tokenId)
  {
    var e := ExchangeBody(address, privileges, tokenId).entries;
    assert DistinctKeys(e);
    LookupIndex(e, 0);
    LookupIndex(e, 1);
    LookupIndex(e, 2);
  }

  /** A type error is raised before the table is consulted and before any
      request; a known environment yields the one POST, whose body carries
      that environment's NFT address. */
  lemma ExchangeSends(net: Network, calls0: seq<Descriptor>, constants: map<string, Value>,
                      token: Value, privileges: Value, tokenId: Value, env: string)
    ensures !token.Str? || !privileges.List? || !tokenId.Str? ==>
      var (calls, r) := Issue(net, calls0, ExchangePlan(constants, token, privileges, tokenId, env));
      calls == calls0 && r.Err? && r.error.TypeError?
    ensures !privileges.List? && token.Str? ==>
      Issue(net, calls0, ExchangePlan(constants, token, privileges, tokenId, env)) == (calls0, Err(TypeError("privileges")))
    ensures token.Str? && privileges.List? && tokenId.Str? && env !in constants ==>
      Issue(net, calls0, ExchangePlan(constants, token, privileges, tokenId, env)) == (calls0, Err(KeyError(env)))
    ensures token.Str? && privileges.List? && tokenId.Str? && NftAddress(constants, env).Ok? && "TokenExchange" in net.urls ==>
      var d := Descriptor(
        Call("POST", "TokenExchange", ExchangePath, Kwargs(Some(AuthHeaders(token)),
          Json(ExchangeBody(NftAddress(constants, env).value, privileges, tokenId)), None)),
        net.urls["TokenExchange"] + ExchangePath);
      Issue(net, calls0, ExchangePlan(constants, token, privileges, tokenId, env)) == (calls0 + [d], Reply(net.server(d)))
  {
  }

  class TokenExchange {
    const dimo: Dimo
    const constants: map<string, Value>

    constructor (dimo: Dimo, constants: map<string, Value>)
      ensures this.dimo == dimo && this.constants == constants
    {
      this.dimo := dimo;
      this.constants := constants;
    }

    /** `exchange`; the environment defaults to "Production". */
    method Exchange(token: Value, privileges: Value, tokenId: Value, env: string := "Production") returns (r: Result<Value>)
      modifies dimo
      ensures (dimo.calls, r) == Issue(dimo.net, old(dimo.calls), ExchangePlan(constants, token, privileges, tokenId, env))
    {
      if !token.Str? { return Err(TypeError("token")); }
      if !privileges.List? { return Err(TypeError("privileges")); }
      if !tokenId.Str? { return Err(TypeError("token_id")); }
      if env !in constants { return Err(KeyError(env)); }
      var address := Subscript(constants[env], "NFT_address");
      if address.Err? { return Err(address.error); }
      var body := Dict([("nftContractAddress", address.value), ("privileges", privileges), ("tokenId", tokenId)]);
      var response := dimo.Request("POST", "TokenExchange", ExchangePath, Kwargs(Some(AuthHeaders(token)), Json(body), None));
      return response;
    }
  }
}
