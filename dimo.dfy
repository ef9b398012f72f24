/** The DIMO client object: it resolves a service name against the
    environment's URL table, builds the per-call header maps and issues every
    request of the SDK. The transport is a recorder: each request that gets
    past URL resolution is appended to `calls`, and the reply comes from the
    network's `server` function. */
module Dispatcher {
  import opened Values
  import opened Template

  const JsonType := "application/json"
  const FormType := "application/x-www-form-urlencoded"
  const SdkAgent := "dimo-python-sdk"

  /** The `data` keyword argument: absent, a JSON-serialisable value, or the
      string `urlencode(fields)` (kept as its ordered field list). */
  datatype Payload = NoData | Json(body: Value) | UrlEncoded(fields: seq<(string, Value)>)

  /** The keyword arguments `request` forwards to the transport. */
  datatype Kwargs = Kwargs(headers: Option<Value>, data: Payload, params: Option<Value>)

  /** One call of `DIMO.request(http_method, service, path, **kwargs)`. */
  datatype Call = Call(verb: string, service: string, path: string, kwargs: Kwargs)

  /** What the transport receives: the call and its resolved URL. */
  datatype Descriptor = Descriptor(call: Call, url: string)

  /** The server's reply: an HTTP status and the parsed body, if there is one. */
  datatype Response = Response(status: int, content: Option<Value>)

  /** Everything outside the SDK: the environment's service URL table and the
      server, as a function from what was sent to what comes back. */
  datatype Network = Network(urls: map<string, string>, server: Descriptor -> Response)

  /** `raise_for_status()` and then `response.json()` or None. */
  function Reply(resp: Response): (r: Result<Value>)
    ensures r.Err? <==> 400 <= resp.status < 600
    ensures r.Err? ==> r.error == HttpError(resp.status)
    ensures r.Ok? ==> r.value == (if resp.content.Some? then resp.content.value else Null)
  {
    if 400 <= resp.status < 600 then Err(HttpError(resp.status))
    else if resp.content.None? then Ok(Null)
    else Ok(resp.content.value)
  }

  /** The effect of one `request`: an unknown service raises KeyError and
      sends nothing; otherwise one descriptor is recorded and the reply
      returned. The URL is the service's base URL followed by the path, with
      no path parameter substituted whatever the keyword arguments hold. */
  function Send(net: Network, calls0: seq<Descriptor>, c: Call): (seq<Descriptor>, Result<Value>)
  {
    if c.service !in net.urls then (calls0, Err(KeyError(c.service)))
    else
      var d := Descriptor(c, net.urls[c.service] + c.path);
      (calls0 + [d], Reply(net.server(d)))
  }

  /** A request prepared by a method that may already have failed validation:
      a failure is returned and nothing is sent. */
  function Issue(net: Network, calls0: seq<Descriptor>, plan: Result<Call>): (seq<Descriptor>, Result<Value>)
  {
    match plan
    case Err(e) => (calls0, Err(e))
    case Ok(c) => Send(net, calls0, c)
  }

  /** The recorder only ever grows by one descriptor, carrying the call as
      given, and only when the service is known. */
  lemma SendRecordsAtMostOne(net: Network, calls0: seq<Descriptor>, c: Call)
    ensures var (calls, r) := Send(net, calls0, c);
      && calls[..|calls0|] == calls0
      && (c.service in net.urls <==> |calls| == |calls0| + 1)
      && (c.service !in net.urls <==> calls == calls0 && r == Err(KeyError(c.service)))
      && (|calls| == |calls0| + 1 ==>
            calls[|calls0|].call == c && calls[|calls0|].url == net.urls[c.service] + c.path)
  {
  }

  /** `request` resolves the same URL whatever keyword arguments it is given. */
  lemma SendIgnoresKwargsForUrl(net: Network, calls0: seq<Descriptor>, verb: string, service: string, path: string, k1: Kwargs, k2: Kwargs)
    requires service in net.urls
    ensures Send(net, calls0, Call(verb, service, path, k1)).0[|calls0|].url
         == Send(net, calls0, Call(verb, service, path, k2)).0[|calls0|].url
  {
  }

  /** The bearer header map of `_get_auth_headers`. */
  function AuthHeaders(token: Value): Value {
    Dict([("Authorization", Str("Bearer " + PyStr(token))), ("Content-Type", Str(JsonType))])
  }

  /** `_get_auth_headers(t)` has exactly two entries. */
  lemma AuthHeadersExact(token: Value)
    ensures AuthHeaders(token).Dict?
    ensures Keys(AuthHeaders(token).entries) == ["Authorization", "Content-Type"]
    ensures DistinctKeys(AuthHeaders(token).entries)
    ensures Lookup(AuthHeaders(token).entries, "Authorization") == Some(Str("Bearer " + PyStr(token)))
    ensures Lookup(AuthHeaders(token).entries, "Content-Type") == Some(Str(JsonType))
  {
  }

  /** The headers `query` ends up with, written out. */
  function QueryHeaders(token: Value): seq<(string, Value)> {
    if Truthy(token) then
      [("Authorization", Str("Bearer " + PyStr(token))), ("Content-Type", Str(JsonType)), ("User-Agent", Str(SdkAgent))]
    else
      [("Content-Type", Str(JsonType)), ("User-Agent", Str(SdkAgent))]
  }

  /** An Authorization header is sent exactly when the token is truthy; the
      content type and user agent are always there. */
  lemma QueryHeadersAuthorization(token: Value)
    ensures DistinctKeys(QueryHeaders(token))
    ensures "Authorization" in Keys(QueryHeaders(token)) <==> Truthy(token)
    ensures Truthy(token) ==> Lookup(QueryHeaders(token), "Authorization") == Some(Str("Bearer " + PyStr(token)))
    ensures Lookup(QueryHeaders(token), "Content-Type") == Some(Str(JsonType))
    ensures Lookup(QueryHeaders(token), "User-Agent") == Some(Str(SdkAgent))
    ensures |QueryHeaders(token)| == if Truthy(token) then 3 else 2
  {
    var h := QueryHeaders(token);
    var ua := [("User-Agent", Str(SdkAgent))];
    assert Lookup(ua, "User-Agent") == Some(Str(SdkAgent));
    assert h[|h| - 1..] == ua;
    if Truthy(token) {
      assert h[1..][1..] == ua;
    } else {
      assert h[1..] == ua;
    }
  }

  /** One in-place assignment, a step at a time: past a different key, or onto the key itself. */
  lemma AssignPast(e: (string, Value), rest: seq<(string, Value)>, k: string, v: Value)
    requires e.0 != k
    ensures Assign([e] + rest, k, v) == [e] + Assign(rest, k, v)
  {
    assert ([e] + rest)[0] == e && ([e] + rest)[1..] == rest;
  }

  lemma AssignOnto(rest: seq<(string, Value)>, k: string, v: Value, w: Value)
    ensures Assign([(k, w)] + rest, k, v) == [(k, v)] + rest
  {
    assert ([(k, w)] + rest)[1..] == rest;
  }

  /** Setting the content type and then the user agent, on a dict that
      already holds the content type after one other key, or on `{}`. */
  lemma SetTwoAfterAuth(auth: (string, Value), ct: (string, Value), ua: (string, Value))
    requires auth.0 != ct.0 && auth.0 != ua.0 && ct.0 != ua.0
    ensures Assign(Assign([auth, ct], ct.0, ct.1), ua.0, ua.1) == [auth, ct, ua]
  {
    assert [auth, ct] == [auth] + [ct];
    AssignOnto([], ct.0, ct.1, ct.1);
    AssignPast(auth, [ct], ct.0, ct.1);
    AssignPast(auth, [ct], ua.0, ua.1);
    AssignPast(ct, [], ua.0, ua.1);
  }

  lemma SetTwoOnEmpty(ct: (string, Value), ua: (string, Value))
    requires ct.0 != ua.0
    ensures Assign(Assign([], ct.0, ct.1), ua.0, ua.1) == [ct, ua]
  {
    AssignPast(ct, [], ua.0, ua.1);
  }

  /** `query`'s in-place updates of its header dict produce QueryHeaders. */
  lemma QueryHeadersInPlace(token: Value)
    ensures var start := if Truthy(token) then AuthHeaders(token).entries else [];
      Assign(Assign(start, "Content-Type", Str(JsonType)), "User-Agent", Str(SdkAgent)) == QueryHeaders(token)
  {
    var ct := ("Content-Type", Str(JsonType));
    var ua := ("User-Agent", Str(SdkAgent));
    if Truthy(token) {
      var auth := ("Authorization", Str("Bearer " + PyStr(token)));
      SetTwoAfterAuth(auth, ct, ua);
    } else {
      SetTwoOnEmpty(ct, ua);
    }
  }

  /** The GraphQL body `{query, variables}`, with falsy variables sent as `{}`. */
  function QueryBody(query: Value, variables: Value): Value {
    Dict([("query", query), ("variables", if Truthy(variables) then variables else Dict([]))])
  }

  /** The single request `query` makes: a POST to the service root. */
  function QueryCall(service: string, query: Value, variables: Value, token: Value): Call {
    Call("POST", service, "", Kwargs(Some(Dict(QueryHeaders(token))), Json(QueryBody(query, variables)), None))
  }

  class Dimo {
    const net: Network
    var calls: seq<Descriptor>

    constructor (net: Network)
      ensures this.net == net && calls == []
    {
      this.net := net;
      calls := [];
    }

    /** `_get_full_path`: the base URL of the service followed by the path,
        then every `:key` replaced by `str(value)`, one key after another. */
    method FullPath(service: string, path: string, params: seq<(string, Value)>) returns (r: Result<string>)
      requires SafeParams(params)
      ensures service !in net.urls ==> r == Err(KeyError(service))
      ensures service in net.urls ==> r == Ok(Substitute(net.urls[service] + path, params))
      ensures service in net.urls && params == [] ==> r == Ok(net.urls[service] + path)
    {
      if service !in net.urls {
        return Err(KeyError(service));
      }
      var fullPath := net.urls[service] + path;
      if params != [] {
        var i := 0;
        while i < |params|
          invariant 0 <= i <= |params|
          invariant Substitute(fullPath, params[i..]) == Substitute(net.urls[service] + path, params)
        {
          assert params[i..][1..] == params[i + 1..];
          fullPath := ReplaceAll(fullPath, ":" + params[i].0, PyStr(params[i].1));
          i := i + 1;
        }
      }
      r := Ok(fullPath);
    }

    /** `request`: resolve the URL (never substituting parameters) and hand
        the call to the transport. */
    method Request(verb: string, service: string, path: string, kwargs: Kwargs) returns (r: Result<Value>)
      modifies this
      ensures (calls, r) == Send(net, old(calls), Call(verb, service, path, kwargs))
    {
      var fullPath := FullPath(service, path, []);
      if fullPath.Err? {
        return Err(fullPath.error);
      }
      var d := Descriptor(Call(verb, service, path, kwargs), fullPath.value);
      calls := calls + [d];
      r := Reply(net.server(d));
    }

    /** `query`: builds the header dict in place, then POSTs `{query, variables}`. */
    method Query(service: string, query: Value, variables: Value := Null, token: Value := Null) returns (r: Result<Value>)
      modifies this
      ensures (calls, r) == Send(net, old(calls), QueryCall(service, query, variables, token))
    {
      var headers: seq<(string, Value)> := if Truthy(token) then AuthHeaders(token).entries else [];
      headers := Assign(headers, "Content-Type", Str(JsonType));
      headers := Assign(headers, "User-Agent", Str(SdkAgent));
      QueryHeadersInPlace(token);
      var data := Dict([("query", query), ("variables", if Truthy(variables) then variables else Dict([]))]);
      r := Request("POST", service, "", Kwargs(Some(Dict(headers)), Json(data), None));
    }
  }
}
