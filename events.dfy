/** The `Events` resource group: one authenticated GET. */
module EventsApi {
  import opened Values
  import opened Dispatcher
  import opened Routes

  const GetEventsRoute :=
    Route("GET", "Events", [Param("access_token", StrKind)], [Lit("/v1/events")], Some(0), Omitted, Omitted, true)

  /** `get_events` sends GET `/v1/events` with the access token's bearer
      headers and nothing else, and returns the dispatcher's reply as it is. */
  lemma GetEventsSends(net: Network, calls0: seq<Descriptor>, accessToken: Value)
    requires accessToken.Str? && "Events" in net.urls
    ensures var d := Descriptor(Call("GET", "Events", "/v1/events", Kwargs(Some(AuthHeaders(accessToken)), NoData, None)),
                                net.urls["Events"] + "/v1/events");
      Run(net, calls0, GetEventsRoute, [accessToken]) == (calls0 + [d], Reply(net.server(d)))
  {
    Unfold(GetEventsRoute, [accessToken]);
  }

  class Events {
    const dimo: Dimo

    constructor (dimo: Dimo)
      ensures this.dimo == dimo
    {
      this.dimo := dimo;
    }

    method GetEvents(accessToken: Value) returns (r: Result<Value>)
      modifies dimo
      ensures (dimo.calls, r) == Run(dimo.net, old(dimo.calls), GetEventsRoute, [accessToken])
    {
      Unfold(GetEventsRoute, [accessToken]);
      if !accessToken.Str? { return Err(TypeError("access_token")); }
      r := dimo.Request("GET", "Events", "/v1/events", Kwargs(Some(AuthHeaders(accessToken)), NoData, None));
    }
  }
}
