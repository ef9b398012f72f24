/** A declarative description of a REST resource method: its parameters and
    their isinstance checks, its verb, service and path, which argument (if
    any) supplies the bearer token, which arguments form the JSON body or the
    query params, and whether the reply is returned. `Build` interprets a
    route; each hand-written resource method is proved to do exactly what its
    route says. */
module Routes {
  import opened Values
  import opened Dispatcher

  datatype Param = Param(name: string, kind: Kind)

  /** A piece of a path f-string: literal text, or `{arg}` for an argument. */
  datatype Seg = Lit(text: string) | Hole(arg: nat)

  /** A dict literal whose values are arguments, or no keyword argument at all. */
  datatype Fields = Omitted | Fields(entries: seq<(string, nat)>)

  datatype Route = Route(
    verb: string,
    service: string,
    params: seq<Param>,
    path: seq<Seg>,
    bearer: Option<nat>,
    body: Fields,
    query: Fields,
    returnsResponse: bool)

  predicate FieldsWithin(f: Fields, n: nat) {
    f.Fields? ==> forall i :: 0 <= i < |f.entries| ==> f.entries[i].1 < n
  }

  predicate HolesWithin(path: seq<Seg>, n: nat) {
    forall i :: 0 <= i < |path| ==> path[i].Hole? ==> path[i].arg < n
  }

  /** Every argument index a route mentions names one of its parameters. */
  predicate WellFormed(rt: Route) {
    && HolesWithin(rt.path, |rt.params|)
    && (rt.bearer.Some? ==> rt.bearer.value < |rt.params|)
    && FieldsWithin(rt.body, |rt.params|)
    && FieldsWithin(rt.query, |rt.params|)
  }

  /** The isinstance checks in parameter order; the first that fails raises. */
  function Validate(params: seq<Param>, vals: seq<Value>): Option<Error>
    requires |vals| == |params|
  {
    if params == [] then None
    else if !IsInstance(vals[0], params[0].kind) then Some(TypeError(params[0].name))
    else Validate(params[1..], vals[1..])
  }

  /** Validation passes exactly when every argument has its declared class,
      and a failure names the first argument that does not. */
  lemma {:induction false} ValidateFirstFailure(params: seq<Param>, vals: seq<Value>)
    requires |vals| == |params|
    ensures Validate(params, vals).None? <==>
      forall i :: 0 <= i < |params| ==> IsInstance(vals[i], params[i].kind)
    ensures Validate(params, vals).Some? ==>
      exists j :: 0 <= j < |params| && Validate(params, vals) == Some(TypeError(params[j].name))
        && !IsInstance(vals[j], params[j].kind)
        && forall i :: 0 <= i < j ==> IsInstance(vals[i], params[i].kind)
  {
    if params != [] && IsInstance(vals[0], params[0].kind) {
      ValidateFirstFailure(params[1..], vals[1..]);
      if Validate(params, vals).Some? {
        var j :| 0 <= j < |params| - 1 && Validate(params[1..], vals[1..]) == Some(TypeError(params[1..][j].name))
          && !IsInstance(vals[1..][j], params[1..][j].kind)
          && forall i :: 0 <= i < j ==> IsInstance(vals[1..][i], params[1..][i].kind);
        assert forall i :: 0 <= i < j + 1 ==> IsInstance(vals[i], params[i].kind) by {
          forall i | 0 <= i < j + 1 ensures IsInstance(vals[i], params[i].kind) {
            if i > 0 { assert vals[1..][i - 1] == vals[i] && params[1..][i - 1] == params[i]; }
          }
        }
      } else {
        forall i | 0 <= i < |params| ensures IsInstance(vals[i], params[i].kind) {
          if i > 0 { assert vals[1..][i - 1] == vals[i] && params[1..][i - 1] == params[i]; }
        }
      }
    }
  }

  /** The path f-string with `str(argument)` in each hole. */
  function Render(path: seq<Seg>, vals: seq<Value>): string
    requires HolesWithin(path, |vals|)
  {
    if path == [] then ""
    else (match path[0] case Lit(t) => t case Hole(i) => PyStr(vals[i])) + Render(path[1..], vals)
  }

  /** The dict literal `{key: argument, ...}`. */
  function Collect(entries: seq<(string, nat)>, vals: seq<Value>): (r: seq<(string, Value)>)
    requires forall i :: 0 <= i < |entries| ==> entries[i].1 < |vals|
    ensures |r| == |entries|
    ensures forall i :: 0 <= i < |entries| ==> r[i] == (entries[i].0, vals[entries[i].1])
  {
    if entries == [] then [] else [(entries[0].0, vals[entries[0].1])] + Collect(entries[1..], vals)
  }

  /** The request a route makes for the given arguments, or the TypeError
      validation raises first. */
  function Build(rt: Route, vals: seq<Value>): Result<Call>
    requires WellFormed(rt) && |vals| == |rt.params|
  {
    match Validate(rt.params, vals)
    case Some(e) => Err(e)
    case None =>
      Ok(Call(rt.verb, rt.service, Render(rt.path, vals), Kwargs(
        if rt.bearer.Some? then Some(AuthHeaders(vals[rt.bearer.value])) else None,
        if rt.body.Fields? then Json(Dict(Collect(rt.body.entries, vals))) else NoData,
        if rt.query.Fields? then Some(Dict(Collect(rt.query.entries, vals))) else None)))
  }

  /** Closed forms of Render and Collect for the short f-strings routes use. */
  lemma RenderLit(t: string, vals: seq<Value>)
    ensures Render([Lit(t)], vals) == t
  {
    assert [Lit(t)][1..] == [];
  }

  lemma RenderLitHole(t: string, i: nat, vals: seq<Value>)
    requires i < |vals|
    ensures Render([Lit(t), Hole(i)], vals) == t + PyStr(vals[i])
  {
    assert [Lit(t), Hole(i)][1..] == [Hole(i)] && [Hole(i)][1..] == [];
    assert Render([Hole(i)], vals) == PyStr(vals[i]) + "";
  }

  lemma RenderLitHoleLit(t: string, i: nat, u: string, vals: seq<Value>)
    requires i < |vals|
    ensures Render([Lit(t), Hole(i), Lit(u)], vals) == t + PyStr(vals[i]) + u
  {
    assert [Lit(t), Hole(i), Lit(u)][1..] == [Hole(i), Lit(u)] && [Hole(i), Lit(u)][1..] == [Lit(u)];
    RenderLit(u, vals);
    assert Render([Hole(i), Lit(u)], vals) == PyStr(vals[i]) + u;
  }

  lemma CollectForms(entries: seq<(string, nat)>, vals: seq<Value>)
    requires forall i :: 0 <= i < |entries| ==> entries[i].1 < |vals|
    ensures |entries| == 1 ==> Collect(entries, vals) == [(entries[0].0, vals[entries[0].1])]
    ensures |entries| == 2 ==>
      Collect(entries, vals) == [(entries[0].0, vals[entries[0].1]), (entries[1].0, vals[entries[1].1])]
    ensures |entries| == 3 ==>
      Collect(entries, vals) == [(entries[0].0, vals[entries[0].1]), (entries[1].0, vals[entries[1].1]),
                                 (entries[2].0, vals[entries[2].1])]
  {
  }

  /** The facts a hand-written method needs to be matched with its route. */
  lemma Unfold(rt: Route, vals: seq<Value>)
    requires WellFormed(rt) && |vals| == |rt.params|
    ensures Validate(rt.params, vals).None? <==>
      forall i :: 0 <= i < |vals| ==> IsInstance(vals[i], rt.params[i].kind)
    ensures Validate(rt.params, vals).Some? ==>
      exists j :: 0 <= j < |vals| && Validate(rt.params, vals) == Some(TypeError(rt.params[j].name))
        && !IsInstance(vals[j], rt.params[j].kind)
        && forall i :: 0 <= i < j ==> IsInstance(vals[i], rt.params[i].kind)
    ensures |rt.path| == 1 && rt.path[0].Lit? ==> Render(rt.path, vals) == rt.path[0].text
    ensures |rt.path| == 2 && rt.path[0].Lit? && rt.path[1].Hole? ==>
      Render(rt.path, vals) == rt.path[0].text + PyStr(vals[rt.path[1].arg])
    ensures |rt.path| == 3 && rt.path[0].Lit? && rt.path[1].Hole? && rt.path[2].Lit? ==>
      Render(rt.path, vals) == rt.path[0].text + PyStr(vals[rt.path[1].arg]) + rt.path[2].text
    ensures rt.body.Fields? && |rt.body.entries| == 1 ==>
      Collect(rt.body.entries, vals) == [(rt.body.entries[0].0, vals[rt.body.entries[0].1])]
    ensures rt.body.Fields? && |rt.body.entries| == 2 ==>
      (var e := rt.body.entries; Collect(e, vals) == [(e[0].0, vals[e[0].1]), (e[1].0, vals[e[1].1])])
    ensures rt.body.Fields? && |rt.body.entries| == 3 ==>
      (var e := rt.body.entries;
       Collect(e, vals) == [(e[0].0, vals[e[0].1]), (e[1].0, vals[e[1].1]), (e[2].0, vals[e[2].1])])
    ensures rt.query.Fields? && |rt.query.entries| == 3 ==>
      (var e := rt.query.entries;
       Collect(e, vals) == [(e[0].0, vals[e[0].1]), (e[1].0, vals[e[1].1]), (e[2].0, vals[e[2].1])])
  {
    ValidateFirstFailure(rt.params, vals);
    if |rt.path| == 1 && rt.path[0].Lit? {
      assert rt.path == [Lit(rt.path[0].text)];
      RenderLit(rt.path[0].text, vals);
    }
    if |rt.path| == 2 && rt.path[0].Lit? && rt.path[1].Hole? {
      assert rt.path == [Lit(rt.path[0].text), Hole(rt.path[1].arg)];
      RenderLitHole(rt.path[0].text, rt.path[1].arg, vals);
    }
    if |rt.path| == 3 && rt.path[0].Lit? && rt.path[1].Hole? && rt.path[2].Lit? {
      assert rt.path == [Lit(rt.path[0].text), Hole(rt.path[1].arg), Lit(rt.path[2].text)];
      RenderLitHoleLit(rt.path[0].text, rt.path[1].arg, rt.path[2].text, vals);
    }
    if rt.body.Fields? { CollectForms(rt.body.entries, vals); }
    if rt.query.Fields? { CollectForms(rt.query.entries, vals); }
  }

  /** What the method hands back: the reply, or None for a method without a `return`. */
  function Returned(rt: Route, r: Result<Value>): Result<Value> {
    if rt.returnsResponse || r.Err? then r else Ok(Null)
  }

  /** The calls recorded and the value returned when a route's method runs. */
  function Run(net: Network, calls0: seq<Descriptor>, rt: Route, vals: seq<Value>): (seq<Descriptor>, Result<Value>)
    requires WellFormed(rt) && |vals| == |rt.params|
  {
    var (calls, r) := Issue(net, calls0, Build(rt, vals));
    (calls, Returned(rt, r))
  }

  /** A route's method raises TypeError and records nothing exactly when an
      argument fails its check; otherwise it records at most one call, to the
      route's service with the route's verb, path and headers. */
  lemma RunValidatesFirst(net: Network, calls0: seq<Descriptor>, rt: Route, vals: seq<Value>)
    requires WellFormed(rt) && |vals| == |rt.params|
    ensures (exists i :: 0 <= i < |vals| && !IsInstance(vals[i], rt.params[i].kind)) ==>
      Run(net, calls0, rt, vals).0 == calls0 && Run(net, calls0, rt, vals).1.Err?
      && Run(net, calls0, rt, vals).1.error.TypeError?
    ensures (forall i :: 0 <= i < |vals| ==> IsInstance(vals[i], rt.params[i].kind)) && rt.service in net.urls ==>
      var calls := Run(net, calls0, rt, vals).0;
      && |calls| == |calls0| + 1 && calls[..|calls0|] == calls0
      && calls[|calls0|].call.verb == rt.verb
      && calls[|calls0|].call.service == rt.service
      && calls[|calls0|].url == net.urls[rt.service] + Render(rt.path, vals)
      && calls[|calls0|].call.kwargs.headers
           == (if rt.bearer.Some? then Some(AuthHeaders(vals[rt.bearer.value])) else None)
  {
    ValidateFirstFailure(rt.params, vals);
  }

  /** A method with a `return` hands back the reply unchanged; one without
      returns None even though the request was sent. */
  lemma RunReturns(net: Network, calls0: seq<Descriptor>, rt: Route, vals: seq<Value>)
    requires WellFormed(rt) && |vals| == |rt.params|
    requires Build(rt, vals).Ok? && rt.service in net.urls
    ensures var d := Descriptor(Build(rt, vals).value, net.urls[rt.service] + Render(rt.path, vals));
      && Run(net, calls0, rt, vals).0 == calls0 + [d]
      && Run(net, calls0, rt, vals).1 ==
           (if rt.returnsResponse then Reply(net.server(d))
            else if Reply(net.server(d)).Ok? then Ok(Null) else Reply(net.server(d)))
  {
  }
}
