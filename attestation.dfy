/** The `Attestation` resource group: verifiable-credential requests.
    `check_type(name, value, str)` is modelled as an isinstance check that
    raises TypeError naming the parameter. */
module AttestationApi {
  import opened Values
  import opened Dispatcher
  import opened Routes

  /** POST `<prefix>{token_id}` to service "Attestation" with the privilege
      token's bearer headers. */
  function Credential(prefix: string): Route {
    Route("POST", "Attestation", [Param("privilege_token", StrKind), Param("token_id", StrKind)],
      [Lit(prefix), Hole(1)], Some(0), Omitted, Omitted, true)
  }

  const CreateVinVcRoute := Credential("/v1/vc/vin/")
  const CreatePomVsRoute := Credential("/v1/vc/pom/")

  /** Both credential requests check both arguments before sending, and then
      send a bodiless POST authorised by the privilege token. */
  lemma CredentialSends(net: Network, calls0: seq<Descriptor>, prefix: string, privilegeToken: Value, tokenId: Value)
    ensures !privilegeToken.Str? ==>
      Run(net, calls0, Credential(prefix), [privilegeToken, tokenId]) == (calls0, Err(TypeError("privilege_token")))
    ensures privilegeToken.Str? && !tokenId.Str? ==>
      Run(net, calls0, Credential(prefix), [privilegeToken, tokenId]) == (calls0, Err(TypeError("token_id")))
    ensures privilegeToken.Str? && tokenId.Str? && "Attestation" in net.urls ==>
      var d := Descriptor(Call("POST", "Attestation", prefix + tokenId.s,
                                Kwargs(Some(AuthHeaders(privilegeToken)), NoData, None)),
                          net.urls["Attestation"] + prefix + tokenId.s);
      Run(net, calls0, Credential(prefix), [privilegeToken, tokenId]) == (calls0 + [d], Reply(net.server(d)))
  {
    var rt := Credential(prefix);
    Unfold(rt, [privilegeToken, tokenId]);
    if privilegeToken.Str? && tokenId.Str? && "Attestation" in net.urls {
      assert net.urls["Attestation"] + Render(rt.path, [privilegeToken, tokenId])
          == net.urls["Attestation"] + prefix + tokenId.s;
    }
  }

  class Attestation {
    const dimo: Dimo

    constructor (dimo: Dimo)
      ensures this.dimo == dimo
    {
      this.dimo := dimo;
    }

    method CreateVinVc(privilegeToken: Value, tokenId: Value) returns (r: Result<Value>)
      modifies dimo
      ensures (dimo.calls, r) == Run(dimo.net, old(dimo.calls), CreateVinVcRoute, [privilegeToken, tokenId])
    {
      Unfold(CreateVinVcRoute, [privilegeToken, tokenId]);
      if !privilegeToken.Str? { return Err(TypeError("privilege_token")); }
      if !tokenId.Str? { return Err(TypeError("token_id")); }
      var url := "/v1/vc/vin/" + tokenId.s;
      r := dimo.Request("POST", "Attestation", url, Kwargs(Some(AuthHeaders(privilegeToken)), NoData, None));
    }

    method CreatePomVs(privilegeToken: Value, tokenId: Value) returns (r: Result<Value>)
      modifies dimo
      ensures (dimo.calls, r) == Run(dimo.net, old(dimo.calls), CreatePomVsRoute, [privilegeToken, tokenId])
    {
      Unfold(CreatePomVsRoute, [privilegeToken, tokenId]);
      if !privilegeToken.Str? { return Err(TypeError("privilege_token")); }
      if !tokenId.Str? { return Err(TypeError("token_id")); }
      var url := "/v1/vc/pom/" + tokenId.s;
      r := dimo.Request("POST", "Attestation", url, Kwargs(Some(AuthHeaders(privilegeToken)), NoData, None));
    }
  }
}
