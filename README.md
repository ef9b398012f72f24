# DIMO Python SDK: the request-building layer, modelled in Dafny

The DIMO SDK wraps the DIMO vehicle-data platform. Each resource method
checks its arguments, builds one HTTP request (verb, service name, path,
headers, body, query parameters) and hands it to the `DIMO` client's
dispatcher. This project models that layer and proves what each method sends.

- **Python values** (`values.dfy`). Arguments are a small dynamic `Value`:
  None, int, str, list, or an insertion-ordered dict. The module also
  models the builtins the SDK applies to values: `isinstance`, truth
  testing, `str()`, `d[k] = v`, `d.get(k)` and `v[k]`.
- **The dispatcher** (`dimo.dfy`, `template.dfy`):
  - the `Dimo` class;
  - `_get_full_path`, a loop proved equal to key-by-key substitution;
  - `_get_auth_headers`;
  - `request`;
  - `query`, which builds its header dict in place.
- **The transport is a recorder.** Every request that survives URL
  resolution appends one `Descriptor` to `Dimo.calls`: the call plus its
  resolved URL. The server's reply comes from a `server` function, and
  `raise_for_status` is modelled as the `Reply` function.
- **The route table** (`routes.dfy`). Most resource methods are one
  declarative `Route`: typed parameters, verb, service, path f-string,
  bearer argument, JSON body fields, query fields, and whether the reply is
  returned. `Run` interprets a route. Each hand-written method, with its
  guards in source order, is proved to do exactly what its route says.
- **The resource groups**:
  - `devices.dfy`, `device_definitions.dfy`, `events.dfy` and
    `attestation.dfy` use routes;
  - `trips.dfy` builds its params dict in place;
  - `token_exchange.dfy` looks up the NFT address in a table;
  - `identity.dfy` and `telemetry.dfy` are the GraphQL wrappers.
- **The auth handshake** (`auth.dfy`). It models:
  - the exact header check;
  - the two form bodies;
  - the signer, as an uninterpreted function `sign(message, key)`;
  - `get_token`, proved equal to the `Handshake` function. That
    function threads `challenge["challenge"]` into signing and
    `challenge["state"]` into submission.
- **The endpoint scaffold** (`endpoint.dfy`). An `Endpoint` class whose
  `_add_basic_methods` assigns attributes conditionally. It is specified by
  the pure `AddOperations` function.

Supplied as parameters: the environment's service-URL table
(`Network.urls`), the server (`Network.server`), the constants table
(`TokenExchange.constants`, `Auth.constants`), the auth environment name and
the signer.

Three behaviours of the code shape the model:

- Path parameters are never substituted at dispatch. `request`
  (dimo/dimo.py:59-61) calls `_get_full_path` without params, and every
  resource method builds its path with an f-string. `Dimo.FullPath` models
  the substitution routine itself; `Dimo.Request` passes it no params.
- The GraphQL bearer header is attached only when the token is truthy
  (dimo/dimo.py:64-66), so an empty-string token sends none.
- `raise_for_status` (dimo/request.py:24) is modelled by the status alone:
  `HttpError` carries the status and not the response body.

## Model

| member | source | states |
|---|---|---|
| Values.PyStr | dimo/dimo.py:49 | `str(v)` is the string itself for a str, its decimal numeral for an int, `None` for None |
| Values.NatToDecimal | dimo/dimo.py:49 | `str(n)` for a natural number: at least one digit, only decimal digits, no leading zero unless n is 0, and the digits denote n (`DecimalValue(r) == n`) |
| Values.Lookup | dimo/dimo.py:64-66 | `d.get(k)` is None exactly when `k` is not among the dict's keys |
| Values.Assign | dimo/dimo.py:64-66 | after `d[k] = v`, `k` maps to `v` and every other key maps to what it did before |
| Values.AssignKeys | dimo/dimo.py:64-66 | assigning an existing key keeps the key order; assigning a new key appends it at the end |
| Values.AssignDistinct | dimo/dimo.py:64-66 | item assignment on a dict with distinct keys leaves the keys distinct |
| Values.Subscript | dimo/api/auth.py:121-126 | `v[k]` succeeds exactly on a dict holding `k`, with the looked-up value; otherwise KeyError on a dict, and a not-subscriptable error on anything else |
| Template.ReplaceAllNoMatch | dimo/dimo.py:48-49 | `re.sub` with a pattern that does not occur leaves the path unchanged |
| Template.ReplaceAllColons | dimo/dimo.py:48-49 | with a `:key` pattern and a colon-free value, each replacement removes exactly one colon from the path |
| Template.NoPlaceholderLeft | dimo/dimo.py:48-49 | if every colon of the path starts a match and the value has no colon, no `:key` survives the substitution of `key` |
| Template.PlaceholderCanSurvive | dimo/dimo.py:48-49 | without that restriction a `:key` can survive: replacing `:ab` by `b` in `:a:ab` yields `:ab` |
| Template.SubstituteSequential | dimo/dimo.py:46-49 | substituting the concatenation of two param lists is substituting the first list, then the second |
| Template.PrefixKeyClobbers | dimo/dimo.py:46-49 | `token` before `tokenId` turns `/v/:tokenId` into `/v/7Id`, destroying the longer placeholder |
| Template.LongerKeyFirst | dimo/dimo.py:46-49 | in the other order each placeholder gets its own value: `/v/42` |
| Dispatcher.SendRecordsAtMostOne | dimo/dimo.py:59-61 | `request` keeps what was recorded and adds one descriptor for a known service, carrying the call unchanged. An unknown service raises KeyError and adds none |
| Dispatcher.SendIgnoresKwargsForUrl | dimo/dimo.py:59-61 | the resolved URL does not depend on the keyword arguments |
| Dispatcher.AuthHeadersExact | dimo/dimo.py:52-56 | the bearer headers are exactly `Authorization: Bearer <token>` and `Content-Type: application/json`, in that order |
| Dispatcher.QueryHeadersAuthorization | dimo/dimo.py:64-66 | GraphQL headers carry Authorization exactly when the token is truthy, and always carry the JSON content type and the SDK user agent. There are 3 or 2 distinct keys |
| Dispatcher.QueryHeadersInPlace | dimo/dimo.py:64-66 | the two in-place assignments on the starting dict produce exactly those headers |
| Dispatcher.Dimo.FullPath | dimo/dimo.py:42-50 | an unknown service is a KeyError. Otherwise the result is the base URL plus the path, with each key substituted in params order as `Substitute` defines; with no params it is exactly the base URL plus the path |
| Dispatcher.Dimo.Request | dimo/dimo.py:59-61 | records what `Send` describes: one descriptor at the base URL plus the unsubstituted path, and the reply |
| Dispatcher.Dimo.Query | dimo/dimo.py:63-80 | one POST to the service root whose headers are built in place and whose body is `{query, variables}`, with falsy variables sent as `{}` |
| Routes.ValidateFirstFailure | dimo/api/devices.py:10-15 | validation passes exactly when every argument has its declared class; a failure is the TypeError of the first argument that does not |
| Routes.RunValidatesFirst | dimo/api/devices.py:10-23 | a route's method with a wrong-typed argument raises TypeError and records nothing. With valid arguments and a known service it records exactly one call, with the route's verb, service, rendered URL and header kind |
| Routes.RunReturns | dimo/api/devices.py:290-294 | a method with `return` hands back the reply unchanged; one without returns None even though the request was recorded |
| DevicesApi.UserDeviceSends | dimo/api/devices.py:65-73 | a bodiless user-device request records exactly one call with its verb, `/v1/user/devices/<id><suffix>` and the access token's bearer headers, and returns the reply |
| DevicesApi.UserDevicePair | dimo/api/devices.py:104-209 | each sign variant posts to its get variant's URL with the same headers. The getter sends no body; the signer sends the one-key dict `{mintRequest}` or `{userSignature}` |
| DevicesApi.MintingPair | dimo/api/devices.py:104-131 | both minting calls POST to `/v1/user/devices/<id>/commands/mint` with the same bearer headers; the getter sends no body and the signer exactly `{mintRequest}` |
| DevicesApi.PairingPair | dimo/api/devices.py:153-180 | the pairing getter GETs and the signer POSTs the same `/v1/user/devices/<id>/aftermarket/commands/pair` URL with the same headers; only the signer sends a body, exactly `{userSignature}` |
| DevicesApi.UnpairingPair | dimo/api/devices.py:182-209 | the same for `/aftermarket/commands/unpair` |
| DevicesApi.ClaimingPair | dimo/api/devices.py:75-102 | both claiming requests POST to `/v1/aftermarket/device/by-serial/<serial>/commands/claim`; only the signer sends a body, exactly `{claimRequest}` |
| DevicesApi.GetClaimingSends | dimo/api/devices.py:75-83 | `get_claiming_payload` records exactly one bodiless bearer POST on the serial's claim command and returns its reply |
| DevicesApi.SignClaimingSends | dimo/api/devices.py:85-102 | `sign_claiming_payload` records exactly one bearer POST on the same URL, with body `{claimRequest}`, and returns its reply |
| DevicesApi.CreateVehicleFromSmartcarSends | dimo/api/devices.py:25-43 | with four strings, exactly one POST to `/v1/user/devices/fromsmartcar` with the bearer headers and body `{code, countryCode, redirectURI}`, and its reply is returned |
| DevicesApi.CreateVehicleFromVinSends | dimo/api/devices.py:45-63 | with four strings, exactly one POST to `/v1/user/devices/fromvin` with the bearer headers and body `{canProtocol, countryCode, vin}`, and its reply is returned |
| DevicesApi.CreateVehicleFromVinChecks | dimo/api/devices.py:48-55 | the four arguments are checked in order; the first that is not a string raises a TypeError naming it, and nothing is sent |
| DevicesApi.CreateVehicleSends | dimo/api/devices.py:7-23 | `create_vehicle` posts exactly `{countryCode, deviceDefinitionId}` to `/v1/user/devices` with the access token's bearer headers |
| DevicesApi.CommandSends | dimo/api/devices.py:211-249 | a vehicle command POSTs to `/v1/vehicle/<token_id>/commands/...` with the privilege token's bearer headers and no body |
| DevicesApi.AftermarketReturnsNone | dimo/api/devices.py:290-306 | the aftermarket getters record a GET with no headers, yet return None unless the dispatcher raises |
| DevicesApi.Devices.CreateVehicle | dimo/api/devices.py:7-23 | records and returns exactly what `CreateVehicleRoute` prescribes |
| DevicesApi.Devices.CreateVehicleFromSmartcar | dimo/api/devices.py:25-43 | records and returns what its route prescribes: body `{code, countryCode, redirectURI}` |
| DevicesApi.Devices.CreateVehicleFromVin | dimo/api/devices.py:45-63 | same, with body `{canProtocol, countryCode, vin}` |
| DevicesApi.Devices.UpdateVehicleVin | dimo/api/devices.py:65-73 | a bodiless PATCH on the user device's `/vin` |
| DevicesApi.Devices.GetClaimingPayload | dimo/api/devices.py:75-83 | a bodiless POST on the serial's claim command |
| DevicesApi.Devices.SignClaimingPayload | dimo/api/devices.py:85-102 | the same URL with body `{claimRequest}`, after checking that it is a dict |
| DevicesApi.Devices.GetMintingPayload | dimo/api/devices.py:104-112 | a bodiless POST on the mint command |
| DevicesApi.Devices.SignMintingPayload | dimo/api/devices.py:114-131 | the same URL with body `{mintRequest}` |
| DevicesApi.Devices.OptInShareData | dimo/api/devices.py:133-141 | a bodiless POST on the opt-in command |
| DevicesApi.Devices.RefreshSmartcarData | dimo/api/devices.py:143-151 | a bodiless POST on the refresh command |
| DevicesApi.Devices.GetPairingPayload | dimo/api/devices.py:153-161 | a bodiless GET on the pair command |
| DevicesApi.Devices.SignPairingPayload | dimo/api/devices.py:163-180 | a POST on the same URL with body `{userSignature}` |
| DevicesApi.Devices.GetUnpairingPayload | dimo/api/devices.py:182-190 | a bodiless GET on the unpair command |
| DevicesApi.Devices.SignUnpairingPayload | dimo/api/devices.py:192-209 | a POST on the same URL with body `{userSignature}` |
| DevicesApi.Devices.LockDoors | dimo/api/devices.py:211-219 | the `doors/lock` vehicle command |
| DevicesApi.Devices.UnlockDoors | dimo/api/devices.py:221-229 | the `doors/unlock` vehicle command |
| DevicesApi.Devices.OpenFrunk | dimo/api/devices.py:231-239 | the `frunk/open` vehicle command |
| DevicesApi.Devices.OpenTrunk | dimo/api/devices.py:241-249 | the `trunk/open` vehicle command |
| DevicesApi.Devices.ListErrorCodes | dimo/api/devices.py:251-259 | a bodiless GET on `/error-codes` |
| DevicesApi.Devices.SubmitErrorCodes | dimo/api/devices.py:261-278 | a POST on `/error-codes` with body `{queryDeviceErrorCodes}`, after checking that it is a dict |
| DevicesApi.Devices.ClearErrorCodes | dimo/api/devices.py:280-288 | a bodiless POST on `/error-codes/clear` |
| DevicesApi.Devices.GetAftermarketDevice | dimo/api/devices.py:290-294 | an unauthenticated GET whose reply is dropped |
| DevicesApi.Devices.GetAftermarketDeviceImage | dimo/api/devices.py:296-300 | the same for `/image` |
| DevicesApi.Devices.GetAftermarketDeviceMetadataByAddress | dimo/api/devices.py:302-306 | the same for `by-address/<address>` |
| DeviceDefinitionsApi.GetByMmySends | dimo/api/device_definitions.py:14-17 | `get_by_mmy` sends params exactly `{make, model, year}`, no headers and no body |
| DeviceDefinitionsApi.GetByMmyYearChecked | dimo/api/device_definitions.py:7-13 | a year that is not an int raises TypeError naming `year`, and nothing is sent |
| DeviceDefinitionsApi.ByIdSends | dimo/api/device_definitions.py:19-32 | both by-id lookups send a GET on the prefix followed by the id, with nothing else |
| DeviceDefinitionsApi.ListDeviceMakesAlwaysSends | dimo/api/device_definitions.py:25-26 | `list_device_makes` checks nothing and always sends its GET to a known service |
| DeviceDefinitionsApi.DeviceDefinitions.GetByMmy | dimo/api/device_definitions.py:7-17 | records and returns exactly what `GetByMmyRoute` prescribes |
| DeviceDefinitionsApi.DeviceDefinitions.GetById | dimo/api/device_definitions.py:19-23 | the same for `GetByIdRoute` |
| DeviceDefinitionsApi.DeviceDefinitions.ListDeviceMakes | dimo/api/device_definitions.py:25-26 | the same for `ListDeviceMakesRoute` |
| DeviceDefinitionsApi.DeviceDefinitions.GetDeviceTypeById | dimo/api/device_definitions.py:28-32 | the same for `GetDeviceTypeByIdRoute` |
| EventsApi.GetEventsSends | dimo/api/events.py:7-12 | one GET on `/v1/events` with the access token's bearer headers; the reply is returned unchanged |
| EventsApi.Events.GetEvents | dimo/api/events.py:7-12 | records and returns exactly what `GetEventsRoute` prescribes |
| AttestationApi.CredentialSends | dimo/api/attestation.py:10-24 | both arguments are checked before anything is sent, and the first bad one is named. Then one bodiless POST goes to the credential URL with the privilege token's bearer headers |
| AttestationApi.Attestation.CreateVinVc | dimo/api/attestation.py:10-16 | records and returns exactly what the `/v1/vc/vin/` credential route prescribes |
| AttestationApi.Attestation.CreatePomVs | dimo/api/attestation.py:18-24 | the same for `/v1/vc/pom/` |
| TripsApi.TripsParamsPage | dimo/api/trips.py:12-14 | without a page, params is `{}`; with one, params is exactly `{"page": [page]}` |
| TripsApi.TripsPageUnchecked | dimo/api/trips.py:7-14 | whether `trips` raises depends only on the two tokens, never on the page |
| TripsApi.TripsSends | dimo/api/trips.py:7-22 | a failed check records nothing. Otherwise exactly one GET goes to `/v1/vehicle/<token_id>/trips` with the privilege token's bearer headers and those params, and its reply is returned |
| TripsApi.Trips.Trips | dimo/api/trips.py:7-22 | the in-place params construction records and returns what `TripsPlan` describes |
| TokenExchangeApi.NftAddress | dimo/api/token_exchange.py:20 | the lookup succeeds exactly when the environment is known, its table is a dict and it has `NFT_address`, and then yields the value stored under that key; an unknown environment is KeyError(env), a missing key KeyError("NFT_address"), a non-dict table not subscriptable |
| TokenExchangeApi.ExchangeBodyKeys | dimo/api/token_exchange.py:19-23 | the body has exactly the keys nftContractAddress, privileges and tokenId, in that order, with the privileges and the token id passed through unchanged |
| TokenExchangeApi.ExchangeSends | dimo/api/token_exchange.py:10-31 | a type error, including a non-list `privileges`, is raised before the table is consulted and records nothing. A known environment gives exactly one bearer POST to `/v1/tokens/exchange` carrying that environment's NFT address, and its reply is returned |
| TokenExchangeApi.TokenExchange.Exchange | dimo/api/token_exchange.py:10-31 | records and returns what `ExchangePlan` describes; the environment defaults to `Production` |
| AuthApi.FormHeadersKey | dimo/api/auth.py:28 | the content type is the only key of the required header dict |
| AuthApi.IsFormHeadersIsDictEquality | dimo/api/auth.py:28 | for a real dict, the header check holds exactly when the dict equals, as Python dicts, the form-encoded content-type dict |
| AuthApi.ChallengeFieldsShape | dimo/api/auth.py:32-38 | the challenge form has the five distinct keys client_id, domain, scope, response_type, address, in that order, with scope, response type and address as given |
| AuthApi.SubmitFieldsShape | dimo/api/auth.py:76-82 | the submitted dict has the five distinct keys client_id, domain, state, signature, grant_type, with the state and signature as given and grant type `authorization_code` |
| AuthApi.SignChallenge | dimo/api/auth.py:48-56 | checks message, then key (TypeErrors), then the environment (KeyError) and its `RPC_provider` entry (KeyError, or not subscriptable for a non-dict table). It succeeds exactly when all of these hold, and the result is then `sign(message, key)` |
| AuthApi.ChallengeRequest | dimo/api/auth.py:16-46 | client_id, domain and address are checked in order (TypeErrors); then the request fails, with ValueError, exactly when the headers are not the form dict. On success it POSTs to the challenge path with those form headers, url-encoding exactly client_id, domain, scope, response_type and address, in that order, with the values given |
| AuthApi.SubmitRequest | dimo/api/auth.py:58-90 | client_id, domain, state and signature are checked in order; then non-dict headers are a TypeError and other dicts a ValueError, and with four strings it succeeds exactly when the headers are the form dict. On success it forwards those headers and POSTs client_id, domain, state, signature and `grant_type = authorization_code`, in that order and with the values given, as a dict to the submission path |
| AuthApi.HandshakeChecksFirst | dimo/api/auth.py:102-108 | every check of `get_token` comes before its first request: a failure records nothing |
| AuthApi.HandshakeChallenge | dimo/api/auth.py:107-119 | the first recorded request is the challenge. Its address is `client_id` when none was given, and scope and response type pass through unchanged |
| AuthApi.HandshakeThreads | dimo/api/auth.py:112-130 | when the submission is reached, the calls are challenge then submission. The submission carries the challenge reply's `state` and `sign(challenge["challenge"], key)`, and its reply is the result |
| AuthApi.HandshakeRecordsAtMostTwo | dimo/api/auth.py:112-130 | `get_token` records at most two requests and never rewrites earlier ones |
| AuthApi.Auth.GenerateChallenge | dimo/api/auth.py:16-46 | records and returns what `ChallengePlan` describes; headers default to the form dict, scope to `openid email`, response type to `code` |
| AuthApi.Auth.SubmitChallenge | dimo/api/auth.py:58-90 | records and returns what `SubmitPlan` describes |
| AuthApi.Auth.GetToken | dimo/api/auth.py:93-130 | records and returns what `Handshake` describes, calling the two request methods and the signer in that order |
| IdentityApi.IdentityNeverAuthorizes | dimo/identity.py:6-18 | no Identity call carries an Authorization header, whatever its query and variables |
| IdentityApi.CountSendsEmptyVariables | dimo/identity.py:10-18 | `count_dimo_vehicles` sends `{}` as its variables |
| IdentityApi.ListSendsOwnerVariables | dimo/identity.py:43-48 | `list_vehicle_definitions_per_address` sends exactly `{owner, first}` as its variables |
| IdentityApi.Identity.Query | dimo/identity.py:6-7 | exactly `DIMO.query("Identity", q)`, with no variables and no token |
| IdentityApi.Identity.CountDimoVehicles | dimo/identity.py:10-18 | the same with the vehicle-count query |
| IdentityApi.Identity.ListVehicleDefinitionsPerAddress | dimo/identity.py:21-48 | the same with the definitions query and `{owner, first}` |
| TelemetryApi.TelemetryAuthorization | dimo/telemetry.py:6-7 | a Telemetry call POSTs to the service root and carries `Authorization: Bearer <token>` exactly when the token is truthy |
| TelemetryApi.SignalsLatestVariables | dimo/telemetry.py:36-40 | `get_signals_latest` sends exactly `{tokenId}` as its variables |
| TelemetryApi.Telemetry.Query | dimo/telemetry.py:6-7 | exactly `DIMO.query("Telemetry", q, token=token)` |
| TelemetryApi.Telemetry.CustomQuery | dimo/telemetry.py:9-10 | returns None and records nothing |
| TelemetryApi.Telemetry.GetSignalsLatest | dimo/telemetry.py:13-40 | the signals query with `{tokenId}` and the token |
| EndpointScaffold.NoBasicMethods | dimo/endpoint.py:11-12 | an empty list of basic methods adds no operation |
| EndpointScaffold.VerbAttributes | dimo/endpoint.py:14-28 | each of GET, POST, PUT, PATCH and DELETE sets exactly its attribute (`get`, `post`, `update_usr`, `update`, `delete`) when listed, and only then. Each is a prepared request for that verb on `/<name>` with the endpoint's session |
| EndpointScaffold.OtherVerbsIgnored | dimo/endpoint.py:16-28 | listing any other verb changes nothing |
| EndpointScaffold.AddOperationsIdempotent | dimo/endpoint.py:10-28 | adding the same basic methods twice is adding them once |
| EndpointScaffold.Endpoint.constructor | dimo/endpoint.py:5-8 | name and session are stored unchanged, and the operations are those of the given basic methods |
| EndpointScaffold.Endpoint.AddBasicMethods | dimo/endpoint.py:10-28 | only the listed verbs' attributes are assigned; name, session and the other attributes keep their values |

## Left out

- The transport (`dimo/request.py`) is a recorder, not a model of the wire. The real `Request.__call__` sends its default JSON header and ignores the `headers` keyword argument. It prefixes `https://` and serialises the data with `json.dumps`. None of this is modelled, and nothing here claims the recorded headers reach the wire.
- `urlencode` and JSON serialisation are left abstract: a body is kept as its ordered field list (`UrlEncoded`) or its value (`Json`).
- The signer is the uninterpreted function `sign`. It stands for web3's ECDSA signing with the EIP-191 personal-sign prefix. Building the RPC provider is left out, except for the table lookup that can raise.
- The environment URL tables and the constants table come from modules that are not part of this model. They are parameters.
- `check_type` and `check_optional_type` come from `dimo/errors.py`, which is not part of this model. They are modelled as an isinstance check, and a None check for the optional one, that raises TypeError.
- Exception messages are not modelled. A TypeError carries the parameter's name, and the header check's ValueError carries `headers`.
- The Python types bool and float are not modelled, so `isinstance(True, int)` has no counterpart.
- Values.PyStr: `repr` always quotes strings with single quotes and escapes nothing. Python switches to double quotes for a string containing a single quote.
- Dispatcher.Dimo.FullPath: `re.sub` is modelled as literal replace-all. Keys are restricted to identifier characters and values to text without backslashes (`SafeParams`). Regex metacharacters and escape handling are out of scope.
- Template.NoPlaceholderLeft: the property "after substituting k with a value that does not contain `:k`, no `:k` remains" is false as stated. `Template.PlaceholderCanSurvive` gives the counterexample. The lemma therefore also requires every colon of the path to start a match. This is how `re.sub` behaves, not a defect of the SDK.
- `Dispatcher.HttpError` carries the status only: the response body travels no further than `Reply`.
- async/await in `query` and the GraphQL wrappers is modelled as ordinary sequential calls.
- The GraphQL query texts are kept with their whitespace collapsed.
- `dimo/functions.py` is left out: dead code calling methods that do not exist.
- The wiring in `DIMO.__init__` is left out. It imports modules that are not part of this model, and it constructs `Auth` with the wrong number of arguments. `Auth` takes its environment as a parameter instead.
- The resource-group constructors only store their collaborators; they have no rows. The `DIMO` constructor does more (it subscripts the environment table and builds `Auth` with the wrong arity, dimo/dimo.py:27-28) and is left out as the wiring line above says.
- EndpointScaffold.Endpoint.AddBasicMethods: `basic_methods` is taken as a list of strings, and None is represented by the empty list. Python's `in` on a string argument (substring) or a dict argument (keys) is not modelled.
- An attribute `_add_basic_methods` never assigns does not exist in Python. Here it is `None`.
