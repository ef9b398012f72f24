/** The wallet-based auth handshake: request a challenge, sign it, submit
    the signature. The signer (ECDSA personal-sign through web3) is the
    uninterpreted function `sign(message, privateKey)`, and the server's
    challenge reply is whatever value `server` returns. */
module AuthApi {
  import opened Values
  import opened Dispatcher

  const ChallengePath := "/auth/web3/generate_challenge"
  const SubmitPath := "/auth/web3/submit_challenge"

  /** The only header dict the two handshake requests accept. */
  const FormHeaders: seq<(string, Value)> := [("Content-Type", Str(FormType))]

  /** `headers == {"Content-Type": "application/x-www-form-urlencoded"}`. */
  predicate IsFormHeaders(headers: Value) {
    headers.Dict? && headers.entries == FormHeaders
  }

  /** Python dict equality: the same value under every key. */
  ghost predicate SameDict(a: seq<(string, Value)>, b: seq<(string, Value)>) {
    forall k :: Lookup(a, k) == Lookup(b, k)
  }

  /** The content type is the only key of the form header dict. */
  lemma FormHeadersKey(k: string)
    ensures Lookup(FormHeaders, k).Some? <==> k == "Content-Type"
  {
    assert Lookup(FormHeaders, k) == if k == "Content-Type" then Some(Str(FormType)) else Lookup([], k);
  }

  /** The second key of a dict can be looked up. */
  lemma LookupSecond(h: seq<(string, Value)>)
    ensures |h| > 1 && DistinctKeys(h) ==> Lookup(h, h[1].0) == Some(h[1].1)
  {
    if |h| > 1 && DistinctKeys(h) {
      assert h[0].0 != h[1].0;
      assert Lookup(h, h[1].0) == Lookup(h[1..], h[1].0);
    }
  }

  /** For a real dict, the header check is exactly Python's dict equality
      with the form-encoded content-type dict. */
  lemma IsFormHeadersIsDictEquality(headers: Value)
    requires headers.Dict? && DistinctKeys(headers.entries)
    ensures IsFormHeaders(headers) <==> SameDict(headers.entries, FormHeaders)
  {
    var h := headers.entries;
    LookupSecond(h);
    if SameDict(h, FormHeaders) {
      FormHeadersKey("Content-Type");
      assert h != [];
      FormHeadersKey(h[0].0);
      assert Lookup(h, h[0].0) == Some(h[0].1);
      if |h| > 1 {
        FormHeadersKey(h[1].0);
        assert false;
      }
      assert h == [h[0]];
    }
  }

  /** The form fields of `generate_challenge`, in order. */
  function ChallengeFields(clientId: Value, domain: Value, scope: Value, responseType: Value, address: Value): seq<(string, Value)> {
    [("client_id", clientId), ("domain", domain), ("scope", scope), ("response_type", responseType), ("address", address)]
  }

  /** The challenge form has five distinct keys, and scope, response type and
      address are sent as given. */
  lemma ChallengeFieldsKeys(clientId: Value, domain: Value, scope: Value, responseType: Value, address: Value)
    ensures var f := ChallengeFields(clientId, domain, scope, responseType, address);
      Keys(f) == ["client_id", "domain", "scope", "response_type", "address"] && DistinctKeys(f)
  {
    var f := ChallengeFields(clientId, domain, scope, responseType, address);
    assert Keys(f) == ["client_id", "domain", "scope", "response_type", "address"];
    forall i, j | 0 <= i < j < |f| ensures f[i].0 != f[j].0 {
      assert |f[i].0| != |f[j].0|;
    }
  }

  lemma ChallengeFieldsShape(clientId: Value, domain: Value, scope: Value, responseType: Value, address: Value)
    ensures var f := ChallengeFields(clientId, domain, scope, responseType, address);
      && Keys(f) == ["client_id", "domain", "scope", "response_type", "address"]
      && DistinctKeys(f)
      && Lookup(f, "client_id") == Some(clientId)
      && Lookup(f, "domain") == Some(domain)
      && Lookup(f, "scope") == Some(scope)
      && Lookup(f, "response_type") == Some(responseType)
      && Lookup(f, "address") == Some(address)
  {
    var f := ChallengeFields(clientId, domain, scope, responseType, address);
    ChallengeFieldsKeys(clientId, domain, scope, responseType, address);
    LookupIndex(f, 0);
    LookupIndex(f, 1);
    LookupIndex(f, 2);
    LookupIndex(f, 3);
    LookupIndex(f, 4);
  }

  /** The request `generate_challenge` makes, or what it raises first. */
  function ChallengePlan(clientId: Value, domain: Value, address: Value, headers: Value, scope: Value, responseType: Value): Result<Call> {
    if !clientId.Str? then Err(TypeError("client_id"))
    else if !domain.Str? then Err(TypeError("domain"))
    else if !address.Str? then Err(TypeError("address"))
    else if !IsFormHeaders(headers) then Err(ValueError("headers"))
    else Ok(Call("POST", "Auth", ChallengePath,
      Kwargs(Some(headers), UrlEncoded(ChallengeFields(clientId, domain, scope, responseType, address)), None)))
  }

  /** The dict `submit_challenge` posts. */
  function SubmitFields(clientId: Value, domain: Value, state: Value, signature: Value): seq<(string, Value)> {
    [("client_id", clientId), ("domain", domain), ("state", state), ("signature", signature),
     ("grant_type", Str("authorization_code"))]
  }

  /** The submitted dict has five distinct keys, carries the state and the
      signature as given, and fixes the grant type. */
  lemma SubmitFieldsKeys(clientId: Value, domain: Value, state: Value, signature: Value)
    ensures var f := SubmitFields(clientId, domain, state, signature);
      Keys(f) == ["client_id", "domain", "state", "signature", "grant_type"] && DistinctKeys(f)
  {
    var f := SubmitFields(clientId, domain, state, signature);
    assert Keys(f) == ["client_id", "domain", "state", "signature", "grant_type"];
    forall i, j | 0 <= i < j < |f| ensures f[i].0 != f[j].0 {
      if |f[i].0| == |f[j].0| {
        assert f[i].0[0] != f[j].0[0];
      }
    }
  }

  lemma SubmitFieldsShape(clientId: Value, domain: Value, state: Value, signature: Value)
    ensures var f := SubmitFields(clientId, domain, state, signature);
      && Keys(f) == ["client_id", "domain", "state", "signature", "grant_type"]
      && DistinctKeys(f)
      && Lookup(f, "client_id") == Some(clientId)
      && Lookup(f, "domain") == Some(domain)
      && Lookup(f, "grant_type") == Some(Str("authorization_code"))
      && Lookup(f, "state") == Some(state)
      && Lookup(f, "signature") == Some(signature)
  {
    var f := SubmitFields(clientId, domain, state, signature);
    SubmitFieldsKeys(clientId, domain, state, signature);
    LookupIndex(f, 0);
    LookupIndex(f, 1);
    LookupIndex(f, 2);
    LookupIndex(f, 3);
    LookupIndex(f, 4);
  }

  /** The request `submit_challenge` makes, or what it raises first. */
  function SubmitPlan(clientId: Value, domain: Value, state: Value, signature: Value, headers: Value): Result<Call> {
    if !clientId.Str? then Err(TypeError("client_id"))
    else if !domain.Str? then Err(TypeError("domain"))
    else if !state.Str? then Err(TypeError("state"))
    else if !signature.Str? then Err(TypeError("signature"))
    else if !headers.Dict? then Err(TypeError("headers"))
    else if !IsFormHeaders(headers) then Err(ValueError("headers"))
    else Ok(Call("POST", "Auth", SubmitPath,
      Kwargs(Some(headers), Json(Dict(SubmitFields(clientId, domain, state, signature))), None)))
  }

  /** `sign_challenge`: the two type checks, the environment's RPC provider
      (which has to exist, and is otherwise unused), then the signature. */
  function SignChallenge(constants: map<string, Value>, env: string, sign: (string, string) -> string,
                         message: Value, privateKey: Value): (r: Result<Value>)
    ensures !message.Str? ==> r == Err(TypeError("message"))
    ensures message.Str? && !privateKey.Str? ==> r == Err(TypeError("private_key"))
    ensures message.Str? && privateKey.Str? && env !in constants ==> r == Err(KeyError(env))
    ensures r.Ok? <==> message.Str? && privateKey.Str? && env in constants && constants[env].Dict?
                       && "RPC_provider" in Keys(constants[env].entries)
    ensures r.Ok? ==> r.value == Str(sign(message.s, privateKey.s))
    ensures message.Str? && privateKey.Str? && env in constants && !constants[env].Dict? ==> r == Err(NotSubscriptable)
    ensures message.Str? && privateKey.Str? && env in constants && constants[env].Dict?
              && "RPC_provider" !in Keys(constants[env].entries)
            ==> r == Err(KeyError("RPC_provider"))
  {
    if !message.Str? then Err(TypeError("message"))
    else if !privateKey.Str? then Err(TypeError("private_key"))
    else if env !in constants then Err(KeyError(env))
    else match Subscript(constants[env], "RPC_provider")
      case Err(e) => Err(e)
      case Ok(_) => Ok(Str(sign(message.s, privateKey.s)))
  }

  /** What `get_token` records and returns: its own checks, then the
      challenge request, the signature over `challenge["challenge"]`, and the
      submission of `challenge["state"]` with that signature. */
  function Handshake(net: Network, calls0: seq<Descriptor>, constants: map<string, Value>, env: string,
                     sign: (string, string) -> string, clientId: Value, domain: Value, privateKey: Value,
                     address: Value, scope: Value, responseType: Value): (seq<Descriptor>, Result<Value>)
  {
    if !clientId.Str? then (calls0, Err(TypeError("client_id")))
    else if !domain.Str? then (calls0, Err(TypeError("domain")))
    else if !privateKey.Str? then (calls0, Err(TypeError("private_key")))
    else if !(address.Null? || address.Str?) then (calls0, Err(TypeError("address")))
    else
      var addr := if address.Null? then clientId else address;
      var (calls1, challenge) := Issue(net, calls0, ChallengePlan(clientId, domain, addr, Dict(FormHeaders), scope, responseType));
      if challenge.Err? then (calls1, challenge)
      else match Subscript(challenge.value, "challenge")
        case Err(e) => (calls1, Err(e))
        case Ok(message) =>
          match SignChallenge(constants, env, sign, message, privateKey)
          case Err(e) => (calls1, Err(e))
          case Ok(signature) =>
            match Subscript(challenge.value, "state")
            case Err(e) => (calls1, Err(e))
            case Ok(state) => Issue(net, calls1, SubmitPlan(clientId, domain, state, signature, Dict(FormHeaders)))
  }

  // ---------------------------------------------------------------------
  // properties of the two requests

  /** `generate_challenge` checks client_id, domain and address in that
      order, then raises ValueError, sending nothing, for any headers but the
      form content-type dict. Otherwise it url-encodes exactly client_id,
      domain, scope, response_type and address, in that order, and forwards
      the headers it was given. */
  lemma ChallengeRequest(clientId: Value, domain: Value, address: Value, headers: Value, scope: Value, responseType: Value)
    ensures !clientId.Str? ==> ChallengePlan(clientId, domain, address, headers, scope, responseType) == Err(TypeError("client_id"))
    ensures clientId.Str? && !domain.Str? ==>
      ChallengePlan(clientId, domain, address, headers, scope, responseType) == Err(TypeError("domain"))
    ensures clientId.Str? && domain.Str? && !address.Str? ==>
      ChallengePlan(clientId, domain, address, headers, scope, responseType) == Err(TypeError("address"))
    ensures clientId.Str? && domain.Str? && address.Str? ==>
      (ChallengePlan(clientId, domain, address, headers, scope, responseType).Ok? <==> IsFormHeaders(headers))
    ensures clientId.Str? && domain.Str? && address.Str? && !IsFormHeaders(headers) ==>
      ChallengePlan(clientId, domain, address, headers, scope, responseType) == Err(ValueError("headers"))
    ensures ChallengePlan(clientId, domain, address, headers, scope, responseType).Ok? ==>
      var c := ChallengePlan(clientId, domain, address, headers, scope, responseType).value;
      && c.verb == "POST" && c.service == "Auth" && c.path == ChallengePath
      && c.kwargs.headers == Some(Dict(FormHeaders)) && c.kwargs.params == None
      && c.kwargs.data.UrlEncoded?
      && Keys(c.kwargs.data.fields) == ["client_id", "domain", "scope", "response_type", "address"]
      && Lookup(c.kwargs.data.fields, "client_id") == Some(clientId)
      && Lookup(c.kwargs.data.fields, "domain") == Some(domain)
      && Lookup(c.kwargs.data.fields, "scope") == Some(scope)
      && Lookup(c.kwargs.data.fields, "response_type") == Some(responseType)
      && Lookup(c.kwargs.data.fields, "address") == Some(address)
  {
    ChallengeFieldsShape(clientId, domain, scope, responseType, address);
  }

  /** `submit_challenge` checks its four strings in order, then that its
      headers are a dict (TypeError) and the form content-type dict
      (ValueError); it succeeds exactly then, forwarding those headers and
      posting the four fields and `grant_type = "authorization_code"` as a
      dict. */
  lemma SubmitRequest(clientId: Value, domain: Value, state: Value, signature: Value, headers: Value)
    ensures !clientId.Str? ==> SubmitPlan(clientId, domain, state, signature, headers) == Err(TypeError("client_id"))
    ensures clientId.Str? && !domain.Str? ==> SubmitPlan(clientId, domain, state, signature, headers) == Err(TypeError("domain"))
    ensures clientId.Str? && domain.Str? && !state.Str? ==>
      SubmitPlan(clientId, domain, state, signature, headers) == Err(TypeError("state"))
    ensures clientId.Str? && domain.Str? && state.Str? && !signature.Str? ==>
      SubmitPlan(clientId, domain, state, signature, headers) == Err(TypeError("signature"))
    ensures clientId.Str? && domain.Str? && state.Str? && signature.Str? ==>
      (SubmitPlan(clientId, domain, state, signature, headers).Ok? <==> IsFormHeaders(headers))
    ensures clientId.Str? && domain.Str? && state.Str? && signature.Str? && !headers.Dict? ==>
      SubmitPlan(clientId, domain, state, signature, headers) == Err(TypeError("headers"))
    ensures clientId.Str? && domain.Str? && state.Str? && signature.Str? && headers.Dict? && !IsFormHeaders(headers) ==>
      SubmitPlan(clientId, domain, state, signature, headers) == Err(ValueError("headers"))
    ensures SubmitPlan(clientId, domain, state, signature, headers).Ok? ==>
      var c := SubmitPlan(clientId, domain, state, signature, headers).value;
      && c.verb == "POST" && c.service == "Auth" && c.path == SubmitPath
      && c.kwargs.headers == Some(Dict(FormHeaders)) && c.kwargs.params == None
      && c.kwargs.data.Json? && c.kwargs.data.body.Dict?
      && Keys(c.kwargs.data.body.entries) == ["client_id", "domain", "state", "signature", "grant_type"]
      && Lookup(c.kwargs.data.body.entries, "client_id") == Some(clientId)
      && Lookup(c.kwargs.data.body.entries, "domain") == Some(domain)
      && Lookup(c.kwargs.data.body.entries, "state") == Some(state)
      && Lookup(c.kwargs.data.body.entries, "signature") == Some(signature)
      && Lookup(c.kwargs.data.body.entries, "grant_type") == Some(Str("authorization_code"))
  {
    SubmitFieldsShape(clientId, domain, state, signature);
  }

  // ---------------------------------------------------------------------
  // properties of get_token

  /** Every check of `get_token` happens before its first request: a
      failure records nothing. */
  lemma HandshakeChecksFirst(net: Network, calls0: seq<Descriptor>, constants: map<string, Value>, env: string,
                             sign: (string, string) -> string, clientId: Value, domain: Value, privateKey: Value,
                             address: Value, scope: Value, responseType: Value)
    requires !clientId.Str? || !domain.Str? || !privateKey.Str? || !(address.Null? || address.Str?)
    ensures var (calls, r) := Handshake(net, calls0, constants, env, sign, clientId, domain, privateKey, address, scope, responseType);
      calls == calls0 && r.Err? && r.error.TypeError?
  {
  }

  /** With no address, the challenge is requested for `client_id`; the scope
      and response type reach the challenge request unchanged. */
  lemma HandshakeChallenge(net: Network, calls0: seq<Descriptor>, constants: map<string, Value>, env: string,
                           sign: (string, string) -> string, clientId: Value, domain: Value, privateKey: Value,
                           address: Value, scope: Value, responseType: Value)
    requires clientId.Str? && domain.Str? && privateKey.Str? && (address.Null? || address.Str?) && "Auth" in net.urls
    ensures var (calls, r) := Handshake(net, calls0, constants, env, sign, clientId, domain, privateKey, address, scope, responseType);
      && |calls| > |calls0| && calls[..|calls0|] == calls0
      && calls[|calls0|].call.path == ChallengePath
      && calls[|calls0|].call.kwargs.data
           == UrlEncoded(ChallengeFields(clientId, domain, scope, responseType, if address.Null? then clientId else address))
  {
    var addr := if address.Null? then clientId else address;
    var (calls1, challenge) := Issue(net, calls0, ChallengePlan(clientId, domain, addr, Dict(FormHeaders), scope, responseType));
    assert |calls1| == |calls0| + 1;
    var (calls, r) := Handshake(net, calls0, constants, env, sign, clientId, domain, privateKey, address, scope, responseType);
    assert calls == calls1 || calls == calls1 + [calls[|calls1|]];
  }

  /** A handshake that reaches the submission records exactly the two
      requests, challenge then submission; the submission carries the
      challenge reply's `state` and the signature of its `challenge`, and its
      reply is what `get_token` returns. */
  lemma HandshakeThreads(net: Network, calls0: seq<Descriptor>, constants: map<string, Value>, env: string,
                         sign: (string, string) -> string, clientId: Value, domain: Value, privateKey: Value,
                         address: Value, scope: Value, responseType: Value)
    requires |Handshake(net, calls0, constants, env, sign, clientId, domain, privateKey, address, scope, responseType).0| == |calls0| + 2
    ensures var (calls, r) := Handshake(net, calls0, constants, env, sign, clientId, domain, privateKey, address, scope, responseType);
      var challenge := Reply(net.server(calls[|calls0|]));
      && calls[..|calls0|] == calls0
      && calls[|calls0|].call.path == ChallengePath
      && calls[|calls0| + 1].call.path == SubmitPath
      && challenge.Ok?
      && Subscript(challenge.value, "challenge").Ok? && Subscript(challenge.value, "challenge").value.Str?
      && Subscript(challenge.value, "state").Ok?
      && calls[|calls0| + 1].call.kwargs.data == Json(Dict(SubmitFields(clientId, domain,
           Subscript(challenge.value, "state").value,
           Str(sign(Subscript(challenge.value, "challenge").value.s, privateKey.s)))))
      && r == Reply(net.server(calls[|calls0| + 1]))
  {
  }

  /** `get_token` records at most the two handshake requests and never
      rewrites what was recorded before it. */
  lemma HandshakeRecordsAtMostTwo(net: Network, calls0: seq<Descriptor>, constants: map<string, Value>, env: string,
                                  sign: (string, string) -> string, clientId: Value, domain: Value, privateKey: Value,
                                  address: Value, scope: Value, responseType: Value)
    ensures var (calls, r) := Handshake(net, calls0, constants, env, sign, clientId, domain, privateKey, address, scope, responseType);
      |calls0| <= |calls| <= |calls0| + 2 && calls[..|calls0|] == calls0
  {
  }

  class Auth {
    const dimo: Dimo
    const env: string
    const constants: map<string, Value>
    const sign: (string, string) -> string

    constructor (dimo: Dimo, env: string, constants: map<string, Value>, sign: (string, string) -> string)
      ensures this.dimo == dimo && this.env == env && this.constants == constants && this.sign == sign
    {
      this.dimo := dimo;
      this.env := env;
      this.constants := constants;
      this.sign := sign;
    }

    method GenerateChallenge(clientId: Value, domain: Value, address: Value, headers: Value := Dict(FormHeaders),
                             scope: Value := Str("openid email"), responseType: Value := Str("code")) returns (r: Result<Value>)
      modifies dimo
      ensures (dimo.calls, r) == Issue(dimo.net, old(dimo.calls), ChallengePlan(clientId, domain, address, headers, scope, responseType))
    {
      if !clientId.Str? { return Err(TypeError("client_id")); }
      if !domain.Str? { return Err(TypeError("domain")); }
      if !address.Str? { return Err(TypeError("address")); }
      if !(headers.Dict? && headers.entries == [("Content-Type", Str(FormType))]) {
        return Err(ValueError("headers"));
      }
      var body := [("client_id", clientId), ("domain", domain), ("scope", scope),
                   ("response_type", responseType), ("address", address)];
      r := dimo.Request("POST", "Auth", ChallengePath, Kwargs(Some(headers), UrlEncoded(body), None));
    }

    method SubmitChallenge(clientId: Value, domain: Value, state: Value, signature: Value,
                           headers: Value := Dict(FormHeaders)) returns (r: Result<Value>)
      modifies dimo
      ensures (dimo.calls, r) == Issue(dimo.net, old(dimo.calls), SubmitPlan(clientId, domain, state, signature, headers))
    {
      if !clientId.Str? { return Err(TypeError("client_id")); }
      if !domain.Str? { return Err(TypeError("domain")); }
      if !state.Str? { return Err(TypeError("state")); }
      if !signature.Str? { return Err(TypeError("signature")); }
      if !headers.Dict? { return Err(TypeError("headers")); }
      if headers.entries != [("Content-Type", Str(FormType))] {
        return Err(ValueError("headers"));
      }
      var formData := Dict([("client_id", clientId), ("domain", domain), ("state", state), ("signature", signature),
                            ("grant_type", Str("authorization_code"))]);
      r := dimo.Request("POST", "Auth", SubmitPath, Kwargs(Some(headers), Json(formData), None));
    }

    method GetToken(clientId: Value, domain: Value, privateKey: Value, address: Value := Null,
                    scope: Value := Str("openid email"), responseType: Value := Str("code")) returns (r: Result<Value>)
      modifies dimo
      ensures (dimo.calls, r)
        == Handshake(dimo.net, old(dimo.calls), constants, env, sign, clientId, domain, privateKey, address, scope, responseType)
    {
      if !clientId.Str? { return Err(TypeError("client_id")); }
      if !domain.Str? { return Err(TypeError("domain")); }
      if !privateKey.Str? { return Err(TypeError("private_key")); }
      if !(address.Null? || address.Str?) { return Err(TypeError("address")); }
      var addr := address;
      if addr.Null? {
        addr := clientId;
      }
      var headers := Dict(FormHeaders);
      var challenge := GenerateChallenge(headers := headers, clientId := clientId, domain := domain,
                                         scope := scope, responseType := responseType, address := addr);
      if challenge.Err? { return challenge; }
      var message := Subscript(challenge.value, "challenge");
      if message.Err? { return Err(message.error); }
      var signed := SignChallenge(constants, env, sign, message.value, privateKey);
      if signed.Err? { return Err(signed.error); }
      var state := Subscript(challenge.value, "state");
      if state.Err? { return Err(state.error); }
      var signature := signed.value;
      r := SubmitChallenge(clientId, domain, state.value, signature, headers);
    }
  }
}
