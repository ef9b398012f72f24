/** The Identity GraphQL wrapper: every method is one `DIMO.query` to
    service "Identity", never with a token. The sample query texts are kept
    with their whitespace collapsed. */
module IdentityApi {
  import opened Values
  import opened Dispatcher

  const CountVehiclesQuery := "{ vehicles (first:10) { totalCount, } }"

  const ListDefinitionsQuery :=
    "query ListVehicleDefinitionsPerAddress($owner: Address!, $first: Int!) { "
    + "vehicles(filterBy: {owner: $owner}, first: $first) { nodes { "
    + "aftermarketDevice { tokenId address } syntheticDevice { address tokenId } "
    + "definition { make model year } } } }"

  /** The variables `list_vehicle_definitions_per_address` sends. */
  function OwnerVariables(address: Value, limit: Value): Value {
    Dict([("owner", address), ("first", limit)])
  }

  /** No Identity call carries an Authorization header, whatever its query
      and variables; the content type and user agent are always sent. */
  lemma IdentityNeverAuthorizes(query: Value, variables: Value)
    ensures var h := QueryCall("Identity", query, variables, Null).kwargs.headers;
      && h.Some? && h.value.Dict?
      && "Authorization" !in Keys(h.value.entries)
      && Lookup(h.value.entries, "Content-Type") == Some(Str(JsonType))
      && Lookup(h.value.entries, "User-Agent") == Some(Str(SdkAgent))
  {
    QueryHeadersAuthorization(Null);
  }

  /** `count_dimo_vehicles` passes no variables, so `{}` is sent. */
  lemma CountSendsEmptyVariables()
    ensures QueryCall("Identity", Str(CountVehiclesQuery), Null, Null).kwargs.data
      == Json(Dict([("query", Str(CountVehiclesQuery)), ("variables", Dict([]))]))
  {
  }

  /** `list_vehicle_definitions_per_address` sends exactly `{owner, first}`,
      never replaced by `{}`, since a two-entry dict is truthy. */
  lemma ListSendsOwnerVariables(address: Value, limit: Value)
    ensures QueryCall("Identity", Str(ListDefinitionsQuery), OwnerVariables(address, limit), Null).kwargs.data
      == Json(Dict([("query", Str(ListDefinitionsQuery)), ("variables", Dict([("owner", address), ("first", limit)]))]))
  {
  }

  class Identity {
    const dimo: Dimo

    constructor (dimo: Dimo)
      ensures this.dimo == dimo
    {
      this.dimo := dimo;
    }

    method Query(query: Value) returns (r: Result<Value>)
      modifies dimo
      ensures (dimo.calls, r) == Send(dimo.net, old(dimo.calls), QueryCall("Identity", query, Null, Null))
    {
      r := dimo.Query("Identity", query);
    }

    method CountDimoVehicles() returns (r: Result<Value>)
      modifies dimo
      ensures (dimo.calls, r) == Send(dimo.net, old(dimo.calls), QueryCall("Identity", Str(CountVehiclesQuery), Null, Null))
    {
      var query := Str(CountVehiclesQuery);
      r := dimo.Query("Identity", query);
    }

    method ListVehicleDefinitionsPerAddress(address: Value, limit: Value) returns (r: Result<Value>)
      modifies dimo
      ensures (dimo.calls, r)
        == Send(dimo.net, old(dimo.calls), QueryCall("Identity", Str(ListDefinitionsQuery), OwnerVariables(address, limit), Null))
    {
      var query := Str(ListDefinitionsQuery);
      var variables := Dict([("owner", address), ("first", limit)]);
      r := dimo.Query("Identity", query, variables := variables);
    }
  }
}
