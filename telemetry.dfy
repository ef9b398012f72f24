/** The Telemetry GraphQL wrapper: calls to service "Telemetry" with the
    caller's token. The sample query text is kept with its whitespace
    collapsed. */
module TelemetryApi {
  import opened Values
  import opened Dispatcher

  const SignalsLatestQuery :=
    "query GetSignalsLatest($tokenId: Int!) { signalsLatest(tokenId: $tokenId){ "
    + "powertrainTransmissionTravelledDistance{ timestamp value } "
    + "exteriorAirTemperature{ timestamp value } speed { timestamp value } "
    + "powertrainType{ timestamp value } } }"

  /** The variables `get_signals_latest` sends. */
  function TokenIdVariables(tokenId: Value): Value {
    Dict([("tokenId", tokenId)])
  }

  /** A Telemetry call is a POST to the service root, authorised exactly when
      the token is truthy. */
  lemma TelemetryAuthorization(query: Value, variables: Value, token: Value)
    ensures var c := QueryCall("Telemetry", query, variables, token);
      && c.service == "Telemetry" && c.verb == "POST" && c.path == ""
      && c.kwargs.headers.Some? && c.kwargs.headers.value.Dict?
      && ("Authorization" in Keys(c.kwargs.headers.value.entries) <==> Truthy(token))
      && (Truthy(token) ==>
            Lookup(c.kwargs.headers.value.entries, "Authorization") == Some(Str("Bearer " + PyStr(token))))
  {
    QueryHeadersAuthorization(token);
  }

  /** `get_signals_latest` sends exactly `{tokenId}` as variables. */
  lemma SignalsLatestVariables(tokenId: Value, token: Value)
    ensures QueryCall("Telemetry", Str(SignalsLatestQuery), TokenIdVariables(tokenId), token).kwargs.data
      == Json(Dict([("query", Str(SignalsLatestQuery)), ("variables", Dict([("tokenId", tokenId)]))]))
  {
  }

  class Telemetry {
    const dimo: Dimo

    constructor (dimo: Dimo)
      ensures this.dimo == dimo
    {
      this.dimo := dimo;
    }

    method Query(query: Value, token: Value) returns (r: Result<Value>)
      modifies dimo
      ensures (dimo.calls, r) == Send(dimo.net, old(dimo.calls), QueryCall("Telemetry", query, Null, token))
    {
      r := dimo.Query("Telemetry", query, token := token);
    }

    /** An empty body: nothing is sent and None comes back. */
    method CustomQuery(query: Value, token: Value) returns (r: Result<Value>)
      ensures r == Ok(Null)
    {
      r := Ok(Null);
    }

    method GetSignalsLatest(token: Value, tokenId: Value) returns (r: Result<Value>)
      modifies dimo
      ensures (dimo.calls, r)
        == Send(dimo.net, old(dimo.calls), QueryCall("Telemetry", Str(SignalsLatestQuery), TokenIdVariables(tokenId), token))
    {
      var query := Str(SignalsLatestQuery);
      var variables := Dict([("tokenId", tokenId)]);
      r := dimo.Query("Telemetry", query, token := token, variables := variables);
    }
  }
}
