/** The `Trips` resource group. `trips` checks the two tokens, builds its
    params dict in place (empty, plus `page` when one is given) and sends one
    authenticated GET. `page` itself is never checked. */
module TripsApi {
  import opened Values
  import opened Dispatcher

  /** The params `trips` ends up with. */
  function TripsParams(page: Value): seq<(string, Value)> {
    if page.Null? then [] else [("page", List([page]))]
  }

  /** The request `trips` makes, or the TypeError it raises first. */
  function TripsPlan(privilegeToken: Value, tokenId: Value, page: Value): Result<Call> {
    if !privilegeToken.Str? then Err(TypeError("privilege_token"))
    else if !tokenId.Str? then Err(TypeError("token_id"))
    else Ok(Call("GET", "Trips", "/v1/vehicle/" + tokenId.s + "/trips",
      Kwargs(Some(AuthHeaders(privilegeToken)), NoData, Some(Dict(TripsParams(page))))))
  }

  /** Without a page the params dict is empty; with one it holds exactly
      `page`, mapped to the one-element list of the page. */
  lemma TripsParamsPage(page: Value)
    ensures page.Null? <==> TripsParams(page) == []
    ensures Keys(TripsParams(page)) == if page.Null? then [] else ["page"]
    ensures Lookup(TripsParams(page), "page") == if page.Null? then None else Some(List([page]))
  {
  }

  /** Whether `trips` raises depends on the two tokens alone, never on the page. */
  lemma TripsPageUnchecked(privilegeToken: Value, tokenId: Value, page1: Value, page2: Value)
    ensures TripsPlan(privilegeToken, tokenId, page1).Ok? <==> privilegeToken.Str? && tokenId.Str?
    ensures TripsPlan(privilegeToken, tokenId, page1).Err? ==>
      TripsPlan(privilegeToken, tokenId, page1) == TripsPlan(privilegeToken, tokenId, page2)
  {
  }

  /** A failed check records nothing; otherwise one GET goes to
      `/v1/vehicle/{token_id}/trips` of service "Trips", authorised by the
      privilege token, and its reply is returned. */
  lemma TripsSends(net: Network, calls0: seq<Descriptor>, privilegeToken: Value, tokenId: Value, page: Value)
    ensures TripsPlan(privilegeToken, tokenId, page).Err? ==>
      Issue(net, calls0, TripsPlan(privilegeToken, tokenId, page)).0 == calls0
    ensures TripsPlan(privilegeToken, tokenId, page).Ok? && "Trips" in net.urls ==>
      var (calls, r) := Issue(net, calls0, TripsPlan(privilegeToken, tokenId, page));
      && calls[..|calls0|] == calls0 && |calls| == |calls0| + 1
      && calls[|calls0|].url == net.urls["Trips"] + "/v1/vehicle/" + tokenId.s + "/trips"
      && calls[|calls0|].call.verb == "GET"
      && calls[|calls0|].call.kwargs.headers == Some(AuthHeaders(privilegeToken))
      && calls[|calls0|].call.kwargs.params == Some(Dict(TripsParams(page)))
      && r == Reply(net.server(calls[|calls0|]))
  {
    if TripsPlan(privilegeToken, tokenId, page).Ok? && "Trips" in net.urls {
      assert net.urls["Trips"] + ("/v1/vehicle/" + tokenId.s + "/trips")
          == net.urls["Trips"] + "/v1/vehicle/" + tokenId.s + "/trips";
    }
  }

  class Trips {
    const dimo: Dimo

    constructor (dimo: Dimo)
      ensures this.dimo == dimo
    {
      this.dimo := dimo;
    }

    method Trips(privilegeToken: Value, tokenId: Value, page: Value := Null) returns (r: Result<Value>)
      modifies dimo
      ensures (dimo.calls, r) == Issue(dimo.net, old(dimo.calls), TripsPlan(privilegeToken, tokenId, page))
    {
      if !privilegeToken.Str? { return Err(TypeError("privilege_token")); }
      if !tokenId.Str? { return Err(TypeError("token_id")); }
      var params: seq<(string, Value)> := [];
      if !page.Null? {
        params := Assign(params, "page", List([page]));
      }
      var url := "/v1/vehicle/" + tokenId.s + "/trips";
      r := dimo.Request("GET", "Trips", url, Kwargs(Some(AuthHeaders(privilegeToken)), NoData, Some(Dict(params))));
    }
  }
}
