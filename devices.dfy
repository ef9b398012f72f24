/** The `Devices` resource group: vehicle creation, claiming, minting and
    pairing payloads, vehicle commands, error codes and aftermarket-device
    lookups. Every method checks its arguments with isinstance in parameter
    order, then issues one request to service "Devices". */
module DevicesApi {
  import opened Values
  import opened Dispatcher
  import opened Routes

  const Access := Param("access_token", StrKind)
  const Privilege := Param("privilege_token", StrKind)
  const UserDeviceId := Param("user_device_id", StrKind)
  const Serial := Param("serial", StrKind)
  const TokenId := Param("token_id", StrKind)

  /** A route of this group that sends `_get_auth_headers` of its first argument. */
  function Bearer(verb: string, params: seq<Param>, path: seq<Seg>, body: Fields): Route {
    Route(verb, "Devices", params, path, Some(0), body, Omitted, true)
  }

  /** `/v1/user/devices/{user_device_id}<suffix>`, with the bearer access token
      first, the user device id second and further arguments after. */
  function UserDevice(verb: string, suffix: string, extra: seq<Param>, body: Fields): Route {
    Bearer(verb, [Access, UserDeviceId] + extra, [Lit("/v1/user/devices/"), Hole(1), Lit(suffix)], body)
  }

  /** A vehicle command: POST `/v1/vehicle/{token_id}<command>`, authorised
      by a privilege token. */
  function Command(command: string): Route {
    Bearer("POST", [Privilege, TokenId], [Lit("/v1/vehicle/"), Hole(1), Lit(command)], Omitted)
  }

  /** An unauthenticated GET of an aftermarket-device resource, from a method
      that has no `return`. */
  function Aftermarket(param: Param, path: seq<Seg>): Route {
    Route("GET", "Devices", [param], path, None, Omitted, Omitted, false)
  }

  const CreateVehicleRoute := Bearer("POST",
    [Access, Param("country_code", StrKind), Param("device_definition_id", StrKind)],
    [Lit("/v1/user/devices")],
    Fields([("countryCode", 1), ("deviceDefinitionId", 2)]))

  const CreateVehicleFromSmartcarRoute := Bearer("POST",
    [Access, Param("code", StrKind), Param("country_code", StrKind), Param("redirect_uri", StrKind)],
    [Lit("/v1/user/devices/fromsmartcar")],
    Fields([("code", 1), ("countryCode", 2), ("redirectURI", 3)]))

  const CreateVehicleFromVinRoute := Bearer("POST",
    [Access, Param("can_protocol", StrKind), Param("country_code", StrKind), Param("vin", StrKind)],
    [Lit("/v1/user/devices/fromvin")],
    Fields([("canProtocol", 1), ("countryCode", 2), ("vin", 3)]))

  const UpdateVehicleVinRoute := UserDevice("PATCH", "/vin", [], Omitted)

  const GetClaimingPayloadRoute := Bearer("POST", [Access, Serial],
    [Lit("/v1/aftermarket/device/by-serial/"), Hole(1), Lit("/commands/claim")], Omitted)

  const SignClaimingPayloadRoute := Bearer("POST", [Access, Serial, Param("claim_request", DictKind)],
    [Lit("/v1/aftermarket/device/by-serial/"), Hole(1), Lit("/commands/claim")],
    Fields([("claimRequest", 2)]))

  const GetMintingPayloadRoute := UserDevice("POST", "/commands/mint", [], Omitted)
  const SignMintingPayloadRoute :=
    UserDevice("POST", "/commands/mint", [Param("mint_request", DictKind)], Fields([("mintRequest", 2)]))
  const OptInShareDataRoute := UserDevice("POST", "/commands/opt-in", [], Omitted)
  const RefreshSmartcarDataRoute := UserDevice("POST", "/commands/refresh", [], Omitted)
  const GetPairingPayloadRoute := UserDevice("GET", "/aftermarket/commands/pair", [], Omitted)
  const SignPairingPayloadRoute := UserDevice("POST", "/aftermarket/commands/pair",
    [Param("user_signature", StrKind)], Fields([("userSignature", 2)]))
  const GetUnpairingPayloadRoute := UserDevice("GET", "/aftermarket/commands/unpair", [], Omitted)
  const SignUnpairingPayloadRoute := UserDevice("POST", "/aftermarket/commands/unpair",
    [Param("user_signature", StrKind)], Fields([("userSignature", 2)]))

  const LockDoorsRoute := Command("/commands/doors/lock")
  const UnlockDoorsRoute := Command("/commands/doors/unlock")
  const OpenFrunkRoute := Command("/commands/frunk/open")
  const OpenTrunkRoute := Command("/commands/trunk/open")

  const ListErrorCodesRoute := UserDevice("GET", "/error-codes", [], Omitted)
  const SubmitErrorCodesRoute := UserDevice("POST", "/error-codes",
    [Param("query_device_error_codes", DictKind)], Fields([("queryDeviceErrorCodes", 2)]))
  const ClearErrorCodesRoute := UserDevice("POST", "/error-codes/clear", [], Omitted)

  const GetAftermarketDeviceRoute := Aftermarket(TokenId, [Lit("/v1/aftermarket/device/"), Hole(0)])
  const GetAftermarketDeviceImageRoute := Aftermarket(TokenId, [Lit("/v1/aftermarket/device/"), Hole(0), Lit("/image")])
  const GetAftermarketDeviceMetadataByAddressRoute := Aftermarket(Param("address", StrKind), [Lit("/v1/aftermarket/device/by-address/"), Hole(0)])

  // ---------------------------------------------------------------------
  // what the routes of this group send

  /** A bodiless user-device route records one call: its verb, the user
      device's URL, the access token's bearer headers, no body, no params. */
  lemma UserDeviceSends(net: Network, calls0: seq<Descriptor>, verb: string, suffix: string,
                        accessToken: Value, userDeviceId: Value)
    requires accessToken.Str? && userDeviceId.Str? && "Devices" in net.urls
    ensures var d := Descriptor(
              Call(verb, "Devices", "/v1/user/devices/" + userDeviceId.s + suffix,
                Kwargs(Some(AuthHeaders(accessToken)), NoData, None)),
              net.urls["Devices"] + "/v1/user/devices/" + userDeviceId.s + suffix);
      Run(net, calls0, UserDevice(verb, suffix, [], Omitted), [accessToken, userDeviceId])
        == (calls0 + [d], Reply(net.server(d)))
  {
    var rt := UserDevice(verb, suffix, [], Omitted);
    Unfold(rt, [accessToken, userDeviceId]);
    assert Render(rt.path, [accessToken, userDeviceId]) == "/v1/user/devices/" + userDeviceId.s + suffix;
    assert net.urls["Devices"] + Render(rt.path, [accessToken, userDeviceId])
        == net.urls["Devices"] + "/v1/user/devices/" + userDeviceId.s + suffix;
  }

  /** Each `sign_*` method posts to the URL of its `get_*` partner with the
      same headers; the getter sends no body, the signer the one-key dict
      `{key: x}`. */
  lemma UserDevicePair(net: Network, calls0: seq<Descriptor>, getVerb: string, suffix: string, extra: Param,
                       key: string, accessToken: Value, userDeviceId: Value, x: Value)
    requires accessToken.Str? && userDeviceId.Str? && IsInstance(x, extra.kind) && "Devices" in net.urls
    ensures var g := Run(net, calls0, UserDevice(getVerb, suffix, [], Omitted), [accessToken, userDeviceId]).0;
      var s := Run(net, calls0, UserDevice("POST", suffix, [extra], Fields([(key, 2)])),
                   [accessToken, userDeviceId, x]).0;
      && |g| == |s| == |calls0| + 1 && g[..|calls0|] == s[..|calls0|] == calls0
      && g[|calls0|].url == s[|calls0|].url == net.urls["Devices"] + "/v1/user/devices/" + userDeviceId.s + suffix
      && g[|calls0|].call.verb == getVerb && s[|calls0|].call.verb == "POST"
      && g[|calls0|].call.kwargs == Kwargs(Some(AuthHeaders(accessToken)), NoData, None)
      && s[|calls0|].call.kwargs == Kwargs(Some(AuthHeaders(accessToken)), Json(Dict([(key, x)])), None)
  {
    UserDeviceSends(net, calls0, getVerb, suffix, accessToken, userDeviceId);
    Unfold(UserDevice("POST", suffix, [extra], Fields([(key, 2)])), [accessToken, userDeviceId, x]);
  }

  /** `sign_minting_payload` POSTs `{mintRequest}` to the URL that
      `get_minting_payload` POSTs to without a body. */
  lemma MintingPair(net: Network, calls0: seq<Descriptor>, accessToken: Value, userDeviceId: Value, mintRequest: Value)
    requires accessToken.Str? && userDeviceId.Str? && mintRequest.Dict? && "Devices" in net.urls
    ensures var g := Run(net, calls0, GetMintingPayloadRoute, [accessToken, userDeviceId]).0;
      var s := Run(net, calls0, SignMintingPayloadRoute, [accessToken, userDeviceId, mintRequest]).0;
      && |g| == |s| == |calls0| + 1 && g[..|calls0|] == s[..|calls0|] == calls0
      && g[|calls0|].url == s[|calls0|].url
           == net.urls["Devices"] + "/v1/user/devices/" + userDeviceId.s + "/commands/mint"
      && g[|calls0|].call.verb == s[|calls0|].call.verb == "POST"
      && g[|calls0|].call.kwargs == Kwargs(Some(AuthHeaders(accessToken)), NoData, None)
      && s[|calls0|].call.kwargs == Kwargs(Some(AuthHeaders(accessToken)), Json(Dict([("mintRequest", mintRequest)])), None)
  {
    UserDevicePair(net, calls0, "POST", "/commands/mint", Param("mint_request", DictKind), "mintRequest",
                   accessToken, userDeviceId, mintRequest);
  }

  /** `sign_pairing_payload` POSTs `{userSignature}` to the URL that
      `get_pairing_payload` reads with a GET. */
  lemma PairingPair(net: Network, calls0: seq<Descriptor>, accessToken: Value, userDeviceId: Value, userSignature: Value)
    requires accessToken.Str? && userDeviceId.Str? && userSignature.Str? && "Devices" in net.urls
    ensures var g := Run(net, calls0, GetPairingPayloadRoute, [accessToken, userDeviceId]).0;
      var s := Run(net, calls0, SignPairingPayloadRoute, [accessToken, userDeviceId, userSignature]).0;
      && |g| == |s| == |calls0| + 1 && g[..|calls0|] == s[..|calls0|] == calls0
      && g[|calls0|].url == s[|calls0|].url
           == net.urls["Devices"] + "/v1/user/devices/" + userDeviceId.s + "/aftermarket/commands/pair"
      && g[|calls0|].call.verb == "GET" && s[|calls0|].call.verb == "POST"
      && g[|calls0|].call.kwargs == Kwargs(Some(AuthHeaders(accessToken)), NoData, None)
      && s[|calls0|].call.kwargs == Kwargs(Some(AuthHeaders(accessToken)), Json(Dict([("userSignature", userSignature)])), None)
  {
    UserDevicePair(net, calls0, "GET", "/aftermarket/commands/pair", Param("user_signature", StrKind), "userSignature",
                   accessToken, userDeviceId, userSignature);
  }

  /** The unpairing pair, like the pairing one, under `/aftermarket/commands/unpair`. */
  lemma UnpairingPair(net: Network, calls0: seq<Descriptor>, accessToken: Value, userDeviceId: Value, userSignature: Value)
    requires accessToken.Str? && userDeviceId.Str? && userSignature.Str? && "Devices" in net.urls
    ensures var g := Run(net, calls0, GetUnpairingPayloadRoute, [accessToken, userDeviceId]).0;
      var s := Run(net, calls0, SignUnpairingPayloadRoute, [accessToken, userDeviceId, userSignature]).0;
      && |g| == |s| == |calls0| + 1 && g[..|calls0|] == s[..|calls0|] == calls0
      && g[|calls0|].url == s[|calls0|].url
           == net.urls["Devices"] + "/v1/user/devices/" + userDeviceId.s + "/aftermarket/commands/unpair"
      && g[|calls0|].call.verb == "GET" && s[|calls0|].call.verb == "POST"
      && g[|calls0|].call.kwargs == Kwargs(Some(AuthHeaders(accessToken)), NoData, None)
      && s[|calls0|].call.kwargs == Kwargs(Some(AuthHeaders(accessToken)), Json(Dict([("userSignature", userSignature)])), None)
  {
    UserDevicePair(net, calls0, "GET", "/aftermarket/commands/unpair", Param("user_signature", StrKind), "userSignature",
                   accessToken, userDeviceId, userSignature);
  }

  /** The claiming pair, keyed by serial number, behaves like the user-device pairs. */
  lemma ClaimingPair(net: Network, calls0: seq<Descriptor>, accessToken: Value, serial: Value, claimRequest: Value)
    requires accessToken.Str? && serial.Str? && claimRequest.Dict? && "Devices" in net.urls
    ensures var g := Run(net, calls0, GetClaimingPayloadRoute, [accessToken, serial]).0;
      var s := Run(net, calls0, SignClaimingPayloadRoute, [accessToken, serial, claimRequest]).0;
      && |g| == |s| == |calls0| + 1 && g[..|calls0|] == s[..|calls0|] == calls0
      && g[|calls0|].url == s[|calls0|].url
           == net.urls["Devices"] + "/v1/aftermarket/device/by-serial/" + serial.s + "/commands/claim"
      && g[|calls0|].call.verb == s[|calls0|].call.verb == "POST"
      && g[|calls0|].call.kwargs == Kwargs(Some(AuthHeaders(accessToken)), NoData, None)
      && s[|calls0|].call.kwargs == Kwargs(Some(AuthHeaders(accessToken)), Json(Dict([("claimRequest", claimRequest)])), None)
  {
    GetClaimingSends(net, calls0, accessToken, serial);
    SignClaimingSends(net, calls0, accessToken, serial, claimRequest);
  }

  /** The claim command URL for a serial. */
  function ClaimUrl(net: Network, serial: string): string
    requires "Devices" in net.urls
  {
    net.urls["Devices"] + "/v1/aftermarket/device/by-serial/" + serial + "/commands/claim"
  }

  lemma GetClaimingSends(net: Network, calls0: seq<Descriptor>, accessToken: Value, serial: Value)
    requires accessToken.Str? && serial.Str? && "Devices" in net.urls
    ensures var d := Descriptor(
              Call("POST", "Devices", "/v1/aftermarket/device/by-serial/" + serial.s + "/commands/claim",
                Kwargs(Some(AuthHeaders(accessToken)), NoData, None)),
              ClaimUrl(net, serial.s));
      Run(net, calls0, GetClaimingPayloadRoute, [accessToken, serial]) == (calls0 + [d], Reply(net.server(d)))
  {
    Unfold(GetClaimingPayloadRoute, [accessToken, serial]);
    assert net.urls["Devices"] + Render(GetClaimingPayloadRoute.path, [accessToken, serial]) == ClaimUrl(net, serial.s);
  }

  lemma SignClaimingSends(net: Network, calls0: seq<Descriptor>, accessToken: Value, serial: Value, claimRequest: Value)
    requires accessToken.Str? && serial.Str? && claimRequest.Dict? && "Devices" in net.urls
    ensures var d := Descriptor(
              Call("POST", "Devices", "/v1/aftermarket/device/by-serial/" + serial.s + "/commands/claim",
                Kwargs(Some(AuthHeaders(accessToken)), Json(Dict([("claimRequest", claimRequest)])), None)),
              ClaimUrl(net, serial.s));
      Run(net, calls0, SignClaimingPayloadRoute, [accessToken, serial, claimRequest]) == (calls0 + [d], Reply(net.server(d)))
  {
    Unfold(SignClaimingPayloadRoute, [accessToken, serial, claimRequest]);
    assert net.urls["Devices"] + Render(SignClaimingPayloadRoute.path, [accessToken, serial, claimRequest])
      == ClaimUrl(net, serial.s);
  }

  /** `create_vehicle` posts exactly `{countryCode, deviceDefinitionId}` with
      the access token's bearer headers. */
  lemma CreateVehicleSends(net: Network, calls0: seq<Descriptor>, accessToken: Value, countryCode: Value,
                           deviceDefinitionId: Value)
    requires accessToken.Str? && countryCode.Str? && deviceDefinitionId.Str? && "Devices" in net.urls
    ensures var d := Descriptor(
              Call("POST", "Devices", "/v1/user/devices", Kwargs(Some(AuthHeaders(accessToken)),
                Json(Dict([("countryCode", countryCode), ("deviceDefinitionId", deviceDefinitionId)])), None)),
              net.urls["Devices"] + "/v1/user/devices");
      Run(net, calls0, CreateVehicleRoute, [accessToken, countryCode, deviceDefinitionId])
        == (calls0 + [d], Reply(net.server(d)))
  {
    Unfold(CreateVehicleRoute, [accessToken, countryCode, deviceDefinitionId]);
  }

  /** `create_vehicle_from_smartcar` posts exactly `{code, countryCode,
      redirectURI}` to `/v1/user/devices/fromsmartcar` with the access
      token's bearer headers. */
  lemma CreateVehicleFromSmartcarSends(net: Network, calls0: seq<Descriptor>, accessToken: Value, code: Value,
                                       countryCode: Value, redirectUri: Value)
    requires accessToken.Str? && code.Str? && countryCode.Str? && redirectUri.Str? && "Devices" in net.urls
    ensures var d := Descriptor(
              Call("POST", "Devices", "/v1/user/devices/fromsmartcar", Kwargs(Some(AuthHeaders(accessToken)),
                Json(Dict([("code", code), ("countryCode", countryCode), ("redirectURI", redirectUri)])), None)),
              net.urls["Devices"] + "/v1/user/devices/fromsmartcar");
      Run(net, calls0, CreateVehicleFromSmartcarRoute, [accessToken, code, countryCode, redirectUri])
        == (calls0 + [d], Reply(net.server(d)))
  {
    Unfold(CreateVehicleFromSmartcarRoute, [accessToken, code, countryCode, redirectUri]);
  }

  /** `create_vehicle_from_vin` posts exactly `{canProtocol, countryCode, vin}`
      to `/v1/user/devices/fromvin` with the access token's bearer headers. */
  lemma CreateVehicleFromVinSends(net: Network, calls0: seq<Descriptor>, accessToken: Value, canProtocol: Value,
                                  countryCode: Value, vin: Value)
    requires accessToken.Str? && canProtocol.Str? && countryCode.Str? && vin.Str? && "Devices" in net.urls
    ensures var d := Descriptor(
              Call("POST", "Devices", "/v1/user/devices/fromvin", Kwargs(Some(AuthHeaders(accessToken)),
                Json(Dict([("canProtocol", canProtocol), ("countryCode", countryCode), ("vin", vin)])), None)),
              net.urls["Devices"] + "/v1/user/devices/fromvin");
      Run(net, calls0, CreateVehicleFromVinRoute, [accessToken, canProtocol, countryCode, vin])
        == (calls0 + [d], Reply(net.server(d)))
  {
    Unfold(CreateVehicleFromVinRoute, [accessToken, canProtocol, countryCode, vin]);
  }

  /** `create_vehicle_from_vin` checks its arguments in order and sends
      nothing when one is not a string; the first bad one is named. */
  lemma CreateVehicleFromVinChecks(net: Network, calls0: seq<Descriptor>, accessToken: Value, canProtocol: Value,
                                   countryCode: Value, vin: Value)
    ensures var args := [accessToken, canProtocol, countryCode, vin];
      && (!accessToken.Str? ==> Run(net, calls0, CreateVehicleFromVinRoute, args) == (calls0, Err(TypeError("access_token"))))
      && (accessToken.Str? && !canProtocol.Str? ==>
            Run(net, calls0, CreateVehicleFromVinRoute, args) == (calls0, Err(TypeError("can_protocol"))))
      && (accessToken.Str? && canProtocol.Str? && !countryCode.Str? ==>
            Run(net, calls0, CreateVehicleFromVinRoute, args) == (calls0, Err(TypeError("country_code"))))
      && (accessToken.Str? && canProtocol.Str? && countryCode.Str? && !vin.Str? ==>
            Run(net, calls0, CreateVehicleFromVinRoute, args) == (calls0, Err(TypeError("vin"))))
  {
    Unfold(CreateVehicleFromVinRoute, [accessToken, canProtocol, countryCode, vin]);
  }

  /** A vehicle command posts to `/v1/vehicle/{token_id}` followed by the
      command, with the privilege token's bearer headers and no body. */
  lemma CommandSends(net: Network, calls0: seq<Descriptor>, command: string, privilegeToken: Value, tokenId: Value)
    requires privilegeToken.Str? && tokenId.Str? && "Devices" in net.urls
    ensures var d := Descriptor(
              Call("POST", "Devices", "/v1/vehicle/" + tokenId.s + command,
                Kwargs(Some(AuthHeaders(privilegeToken)), NoData, None)),
              net.urls["Devices"] + "/v1/vehicle/" + tokenId.s + command);
      Run(net, calls0, Command(command), [privilegeToken, tokenId]) == (calls0 + [d], Reply(net.server(d)))
  {
    var rt := Command(command);
    Unfold(rt, [privilegeToken, tokenId]);
    assert net.urls["Devices"] + Render(rt.path, [privilegeToken, tokenId])
        == net.urls["Devices"] + "/v1/vehicle/" + tokenId.s + command;
  }

  /** The aftermarket-device getters send their GET without headers, and hand
      back None whatever the server answers, unless the dispatcher raises. */
  lemma AftermarketReturnsNone(net: Network, calls0: seq<Descriptor>, param: Param, path: seq<Seg>, arg: Value)
    requires HolesWithin(path, 1) && IsInstance(arg, param.kind) && "Devices" in net.urls
    ensures var (calls, r) := Run(net, calls0, Aftermarket(param, path), [arg]);
      && |calls| == |calls0| + 1 && calls[..|calls0|] == calls0
      && calls[|calls0|].call == Call("GET", "Devices", Render(path, [arg]), Kwargs(None, NoData, None))
      && (r.Ok? ==> r.value == Null)
      && (r.Err? <==> Reply(net.server(calls[|calls0|])).Err?)
  {
    Unfold(Aftermarket(param, path), [arg]);
  }

  class Devices {
    const dimo: Dimo

    constructor (dimo: Dimo)
      ensures this.dimo == dimo
    {
      this.dimo := dimo;
    }

    method CreateVehicle(accessToken: Value, countryCode: Value, deviceDefinitionId: Value) returns (r: Result<Value>)
      modifies dimo
      ensures (dimo.calls, r) == Run(dimo.net, old(dimo.calls), CreateVehicleRoute, [accessToken, countryCode, deviceDefinitionId])
    {
      Unfold(CreateVehicleRoute, [accessToken, countryCode, deviceDefinitionId]);
      if !accessToken.Str? { return Err(TypeError("access_token")); }
      if !countryCode.Str? { return Err(TypeError("country_code")); }
      if !deviceDefinitionId.Str? { return Err(TypeError("device_definition_id")); }
      var body := Dict([("countryCode", countryCode), ("deviceDefinitionId", deviceDefinitionId)]);
      r := dimo.Request("POST", "Devices", "/v1/user/devices", Kwargs(Some(AuthHeaders(accessToken)), Json(body), None));
    }

    method CreateVehicleFromSmartcar(accessToken: Value, code: Value, countryCode: Value, redirectUri: Value) returns (r: Result<Value>)
      modifies dimo
      ensures (dimo.calls, r) == Run(dimo.net, old(dimo.calls), CreateVehicleFromSmartcarRoute, [accessToken, code, countryCode, redirectUri])
    {
      Unfold(CreateVehicleFromSmartcarRoute, [accessToken, code, countryCode, redirectUri]);
      if !accessToken.Str? { return Err(TypeError("access_token")); }
      if !code.Str? { return Err(TypeError("code")); }
      if !countryCode.Str? { return Err(TypeError("country_code")); }
      if !redirectUri.Str? { return Err(TypeError("redirect_uri")); }
      var body := Dict([("code", code), ("countryCode", countryCode), ("redirectURI", redirectUri)]);
      r := dimo.Request("POST", "Devices", "/v1/user/devices/fromsmartcar", Kwargs(Some(AuthHeaders(accessToken)), Json(body), None));
    }

    method CreateVehicleFromVin(accessToken: Value, canProtocol: Value, countryCode: Value, vin: Value) returns (r: Result<Value>)
      modifies dimo
      ensures (dimo.calls, r) == Run(dimo.net, old(dimo.calls), CreateVehicleFromVinRoute, [accessToken, canProtocol, countryCode, vin])
    {
      Unfold(CreateVehicleFromVinRoute, [accessToken, canProtocol, countryCode, vin]);
      if !accessToken.Str? { return Err(TypeError("access_token")); }
      if !canProtocol.Str? { return Err(TypeError("can_protocol")); }
      if !countryCode.Str? { return Err(TypeError("country_code")); }
      if !vin.Str? { return Err(TypeError("vin")); }
      var body := Dict([("canProtocol", canProtocol), ("countryCode", countryCode), ("vin", vin)]);
      r := dimo.Request("POST", "Devices", "/v1/user/devices/fromvin", Kwargs(Some(AuthHeaders(accessToken)), Json(body), None));
    }

    method UpdateVehicleVin(accessToken: Value, userDeviceId: Value) returns (r: Result<Value>)
      modifies dimo
      ensures (dimo.calls, r) == Run(dimo.net, old(dimo.calls), UpdateVehicleVinRoute, [accessToken, userDeviceId])
    {
      Unfold(UpdateVehicleVinRoute, [accessToken, userDeviceId]);
      if !accessToken.Str? { return Err(TypeError("access_token")); }
      if !userDeviceId.Str? { return Err(TypeError("user_device_id")); }
      var url := "/v1/user/devices/" + userDeviceId.s + "/vin";
      r := dimo.Request("PATCH", "Devices", url, Kwargs(Some(AuthHeaders(accessToken)), NoData, None));
    }

    method GetClaimingPayload(accessToken: Value, serial: Value) returns (r: Result<Value>)
      modifies dimo
      ensures (dimo.calls, r) == Run(dimo.net, old(dimo.calls), GetClaimingPayloadRoute, [accessToken, serial])
    {
      Unfold(GetClaimingPayloadRoute, [accessToken, serial]);
      if !accessToken.Str? { return Err(TypeError("access_token")); }
      if !serial.Str? { return Err(TypeError("serial")); }
      var url := "/v1/aftermarket/device/by-serial/" + serial.s + "/commands/claim";
      r := dimo.Request("POST", "Devices", url, Kwargs(Some(AuthHeaders(accessToken)), NoData, None));
    }

    method SignClaimingPayload(accessToken: Value, serial: Value, claimRequest: Value) returns (r: Result<Value>)
      modifies dimo
      ensures (dimo.calls, r) == Run(dimo.net, old(dimo.calls), SignClaimingPayloadRoute, [accessToken, serial, claimRequest])
    {
      Unfold(SignClaimingPayloadRoute, [accessToken, serial, claimRequest]);
      if !accessToken.Str? { return Err(TypeError("access_token")); }
      if !serial.Str? { return Err(TypeError("serial")); }
      if !claimRequest.Dict? { return Err(TypeError("claim_request")); }
      var body := Dict([("claimRequest", claimRequest)]);
      var url := "/v1/aftermarket/device/by-serial/" + serial.s + "/commands/claim";
      r := dimo.Request("POST", "Devices", url, Kwargs(Some(AuthHeaders(accessToken)), Json(body), None));
    }

    method GetMintingPayload(accessToken: Value, userDeviceId: Value) returns (r: Result<Value>)
      modifies dimo
      ensures (dimo.calls, r) == Run(dimo.net, old(dimo.calls), GetMintingPayloadRoute, [accessToken, userDeviceId])
    {
      Unfold(GetMintingPayloadRoute, [accessToken, userDeviceId]);
      if !accessToken.Str? { return Err(TypeError("access_token")); }
      if !userDeviceId.Str? { return Err(TypeError("user_device_id")); }
      var url := "/v1/user/devices/" + userDeviceId.s + "/commands/mint";
      r := dimo.Request("POST", "Devices", url, Kwargs(Some(AuthHeaders(accessToken)), NoData, None));
    }

    method SignMintingPayload(accessToken: Value, userDeviceId: Value, mintRequest: Value) returns (r: Result<Value>)
      modifies dimo
      ensures (dimo.calls, r) == Run(dimo.net, old(dimo.calls), SignMintingPayloadRoute, [accessToken, userDeviceId, mintRequest])
    {
      Unfold(SignMintingPayloadRoute, [accessToken, userDeviceId, mintRequest]);
      if !accessToken.Str? { return Err(TypeError("access_token")); }
      if !userDeviceId.Str? { return Err(TypeError("user_device_id")); }
      if !mintRequest.Dict? { return Err(TypeError("mint_request")); }
      var body := Dict([("mintRequest", mintRequest)]);
      var url := "/v1/user/devices/" + userDeviceId.s + "/commands/mint";
      r := dimo.Request("POST", "Devices", url, Kwargs(Some(AuthHeaders(accessToken)), Json(body), None));
    }

    method OptInShareData(accessToken: Value, userDeviceId: Value) returns (r: Result<Value>)
      modifies dimo
      ensures (dimo.calls, r) == Run(dimo.net, old(dimo.calls), OptInShareDataRoute, [accessToken, userDeviceId])
    {
      Unfold(OptInShareDataRoute, [accessToken, userDeviceId]);
      if !accessToken.Str? { return Err(TypeError("access_token")); }
      if !userDeviceId.Str? { return Err(TypeError("user_device_id")); }
      var url := "/v1/user/devices/" + userDeviceId.s + "/commands/opt-in";
      r := dimo.Request("POST", "Devices", url, Kwargs(Some(AuthHeaders(accessToken)), NoData, None));
    }

    method RefreshSmartcarData(accessToken: Value, userDeviceId: Value) returns (r: Result<Value>)
      modifies dimo
      ensures (dimo.calls, r) == Run(dimo.net, old(dimo.calls), RefreshSmartcarDataRoute, [accessToken, userDeviceId])
    {
      Unfold(RefreshSmartcarDataRoute, [accessToken, userDeviceId]);
      if !accessToken.Str? { return Err(TypeError("access_token")); }
      if !userDeviceId.Str? { return Err(TypeError("user_device_id")); }
      var url := "/v1/user/devices/" + userDeviceId.s + "/commands/refresh";
      r := dimo.Request("POST", "Devices", url, Kwargs(Some(AuthHeaders(accessToken)), NoData, None));
    }

    method GetPairingPayload(accessToken: Value, userDeviceId: Value) returns (r: Result<Value>)
      modifies dimo
      ensures (dimo.calls, r) == Run(dimo.net, old(dimo.calls), GetPairingPayloadRoute, [accessToken, userDeviceId])
    {
      Unfold(GetPairingPayloadRoute, [accessToken, userDeviceId]);
      if !accessToken.Str? { return Err(TypeError("access_token")); }
      if !userDeviceId.Str? { return Err(TypeError("user_device_id")); }
      var url := "/v1/user/devices/" + userDeviceId.s + "/aftermarket/commands/pair";
      r := dimo.Request("GET", "Devices", url, Kwargs(Some(AuthHeaders(accessToken)), NoData, None));
    }

    method SignPairingPayload(accessToken: Value, userDeviceId: Value, userSignature: Value) returns (r: Result<Value>)
      modifies dimo
      ensures (dimo.calls, r) == Run(dimo.net, old(dimo.calls), SignPairingPayloadRoute, [accessToken, userDeviceId, userSignature])
    {
      Unfold(SignPairingPayloadRoute, [accessToken, userDeviceId, userSignature]);
      if !accessToken.Str? { return Err(TypeError("access_token")); }
      if !userDeviceId.Str? { return Err(TypeError("user_device_id")); }
      if !userSignature.Str? { return Err(TypeError("user_signature")); }
      var body := Dict([("userSignature", userSignature)]);
      var url := "/v1/user/devices/" + userDeviceId.s + "/aftermarket/commands/pair";
      r := dimo.Request("POST", "Devices", url, Kwargs(Some(AuthHeaders(accessToken)), Json(body), None));
    }

    method GetUnpairingPayload(accessToken: Value, userDeviceId: Value) returns (r: Result<Value>)
      modifies dimo
      ensures (dimo.calls, r) == Run(dimo.net, old(dimo.calls), GetUnpairingPayloadRoute, [accessToken, userDeviceId])
    {
      Unfold(GetUnpairingPayloadRoute, [accessToken, userDeviceId]);
      if !accessToken.Str? { return Err(TypeError("access_token")); }
      if !userDeviceId.Str? { return Err(TypeError("user_device_id")); }
      var url := "/v1/user/devices/" + userDeviceId.s + "/aftermarket/commands/unpair";
      r := dimo.Request("GET", "Devices", url, Kwargs(Some(AuthHeaders(accessToken)), NoData, None));
    }

    method SignUnpairingPayload(accessToken: Value, userDeviceId: Value, userSignature: Value) returns (r: Result<Value>)
      modifies dimo
      ensures (dimo.calls, r) == Run(dimo.net, old(dimo.calls), SignUnpairingPayloadRoute, [accessToken, userDeviceId, userSignature])
    {
      Unfold(SignUnpairingPayloadRoute, [accessToken, userDeviceId, userSignature]);
      if !accessToken.Str? { return Err(TypeError("access_token")); }
      if !userDeviceId.Str? { return Err(TypeError("user_device_id")); }
      if !userSignature.Str? { return Err(TypeError("user_signature")); }
      var body := Dict([("userSignature", userSignature)]);
      var url := "/v1/user/devices/" + userDeviceId.s + "/aftermarket/commands/unpair";
      r := dimo.Request("POST", "Devices", url, Kwargs(Some(AuthHeaders(accessToken)), Json(body), None));
    }

    method LockDoors(privilegeToken: Value, tokenId: Value) returns (r: Result<Value>)
      modifies dimo
      ensures (dimo.calls, r) == Run(dimo.net, old(dimo.calls), LockDoorsRoute, [privilegeToken, tokenId])
    {
      Unfold(LockDoorsRoute, [privilegeToken, tokenId]);
      if !privilegeToken.Str? { return Err(TypeError("privilege_token")); }
      if !tokenId.Str? { return Err(TypeError("token_id")); }
      var url := "/v1/vehicle/" + tokenId.s + "/commands/doors/lock";
      r := dimo.Request("POST", "Devices", url, Kwargs(Some(AuthHeaders(privilegeToken)), NoData, None));
    }

    method UnlockDoors(privilegeToken: Value, tokenId: Value) returns (r: Result<Value>)
      modifies dimo
      ensures (dimo.calls, r) == Run(dimo.net, old(dimo.calls), UnlockDoorsRoute, [privilegeToken, tokenId])
    {
      Unfold(UnlockDoorsRoute, [privilegeToken, tokenId]);
      if !privilegeToken.Str? { return Err(TypeError("privilege_token")); }
      if !tokenId.Str? { return Err(TypeError("token_id")); }
      var url := "/v1/vehicle/" + tokenId.s + "/commands/doors/unlock";
      r := dimo.Request("POST", "Devices", url, Kwargs(Some(AuthHeaders(privilegeToken)), NoData, None));
    }

    method OpenFrunk(privilegeToken: Value, tokenId: Value) returns (r: Result<Value>)
      modifies dimo
      ensures (dimo.calls, r) == Run(dimo.net, old(dimo.calls), OpenFrunkRoute, [privilegeToken, tokenId])
    {
      Unfold(OpenFrunkRoute, [privilegeToken, tokenId]);
      if !privilegeToken.Str? { return Err(TypeError("privilege_token")); }
      if !tokenId.Str? { return Err(TypeError("token_id")); }
      var url := "/v1/vehicle/" + tokenId.s + "/commands/frunk/open";
      r := dimo.Request("POST", "Devices", url, Kwargs(Some(AuthHeaders(privilegeToken)), NoData, None));
    }

    method OpenTrunk(privilegeToken: Value, tokenId: Value) returns (r: Result<Value>)
      modifies dimo
      ensures (dimo.calls, r) == Run(dimo.net, old(dimo.calls), OpenTrunkRoute, [privilegeToken, tokenId])
    {
      Unfold(OpenTrunkRoute, [privilegeToken, tokenId]);
      if !privilegeToken.Str? { return Err(TypeError("privilege_token")); }
      if !tokenId.Str? { return Err(TypeError("token_id")); }
      var url := "/v1/vehicle/" + tokenId.s + "/commands/trunk/open";
      r := dimo.Request("POST", "Devices", url, Kwargs(Some(AuthHeaders(privilegeToken)), NoData, None));
    }

    method ListErrorCodes(accessToken: Value, userDeviceId: Value) returns (r: Result<Value>)
      modifies dimo
      ensures (dimo.calls, r) == Run(dimo.net, old(dimo.calls), ListErrorCodesRoute, [accessToken, userDeviceId])
    {
      Unfold(ListErrorCodesRoute, [accessToken, userDeviceId]);
      if !accessToken.Str? { return Err(TypeError("access_token")); }
      if !userDeviceId.Str? { return Err(TypeError("user_device_id")); }
      var url := "/v1/user/devices/" + userDeviceId.s + "/error-codes";
      r := dimo.Request("GET", "Devices", url, Kwargs(Some(AuthHeaders(accessToken)), NoData, None));
    }

    method SubmitErrorCodes(accessToken: Value, userDeviceId: Value, queryDeviceErrorCodes: Value) returns (r: Result<Value>)
      modifies dimo
      ensures (dimo.calls, r) == Run(dimo.net, old(dimo.calls), SubmitErrorCodesRoute, [accessToken, userDeviceId, queryDeviceErrorCodes])
    {
      Unfold(SubmitErrorCodesRoute, [accessToken, userDeviceId, queryDeviceErrorCodes]);
      if !accessToken.Str? { return Err(TypeError("access_token")); }
      if !userDeviceId.Str? { return Err(TypeError("user_device_id")); }
      if !queryDeviceErrorCodes.Dict? { return Err(TypeError("query_device_error_codes")); }
      var body := Dict([("queryDeviceErrorCodes", queryDeviceErrorCodes)]);
      var url := "/v1/user/devices/" + userDeviceId.s + "/error-codes";
      r := dimo.Request("POST", "Devices", url, Kwargs(Some(AuthHeaders(accessToken)), Json(body), None));
    }

    method ClearErrorCodes(accessToken: Value, userDeviceId: Value) returns (r: Result<Value>)
      modifies dimo
      ensures (dimo.calls, r) == Run(dimo.net, old(dimo.calls), ClearErrorCodesRoute, [accessToken, userDeviceId])
    {
      Unfold(ClearErrorCodesRoute, [accessToken, userDeviceId]);
      if !accessToken.Str? { return Err(TypeError("access_token")); }
      if !userDeviceId.Str? { return Err(TypeError("user_device_id")); }
      var url := "/v1/user/devices/" + userDeviceId.s + "/error-codes/clear";
      r := dimo.Request("POST", "Devices", url, Kwargs(Some(AuthHeaders(accessToken)), NoData, None));
    }

    /** The request is sent, but the method has no `return`: only an
        exception from the dispatcher reaches the caller. */
    method GetAftermarketDevice(tokenId: Value) returns (r: Result<Value>)
      modifies dimo
      ensures (dimo.calls, r) == Run(dimo.net, old(dimo.calls), GetAftermarketDeviceRoute, [tokenId])
    {
      Unfold(GetAftermarketDeviceRoute, [tokenId]);
      if !tokenId.Str? { return Err(TypeError("token_id")); }
      var url := "/v1/aftermarket/device/" + tokenId.s;
      var reply := dimo.Request("GET", "Devices", url, Kwargs(None, NoData, None));
      if reply.Err? { return reply; }
      r := Ok(Null);
    }

    method GetAftermarketDeviceImage(tokenId: Value) returns (r: Result<Value>)
      modifies dimo
      ensures (dimo.calls, r) == Run(dimo.net, old(dimo.calls), GetAftermarketDeviceImageRoute, [tokenId])
    {
      Unfold(GetAftermarketDeviceImageRoute, [tokenId]);
      if !tokenId.Str? { return Err(TypeError("token_id")); }
      var url := "/v1/aftermarket/device/" + tokenId.s + "/image";
      var reply := dimo.Request("GET", "Devices", url, Kwargs(None, NoData, None));
      if reply.Err? { return reply; }
      r := Ok(Null);
    }

    method GetAftermarketDeviceMetadataByAddress(address: Value) returns (r: Result<Value>)
      modifies dimo
      ensures (dimo.calls, r) == Run(dimo.net, old(dimo.calls), GetAftermarketDeviceMetadataByAddressRoute, [address])
    {
      Unfold(GetAftermarketDeviceMetadataByAddressRoute, [address]);
      if !address.Str? { return Err(TypeError("address")); }
      var url := "/v1/aftermarket/device/by-address/" + address.s;
      var reply := dimo.Request("GET", "Devices", url, Kwargs(None, NoData, None));
      if reply.Err? { return reply; }
      r := Ok(Null);
    }
  }
}
