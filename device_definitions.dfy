/** The `DeviceDefinitions` resource group: unauthenticated GETs against
    service "DeviceDefinitions". */
module DeviceDefinitionsApi {
  import opened Values
  import opened Dispatcher
  import opened Routes

  /** An unauthenticated GET whose reply is returned. */
  function Fetch(params: seq<Param>, path: seq<Seg>, query: Fields): Route {
    Route("GET", "DeviceDefinitions", params, path, None, Omitted, query, true)
  }

  const GetByMmyRoute := Fetch(
    [Param("make", StrKind), Param("model", StrKind), Param("year", IntKind)],
    [Lit("/device-definitions")],
    Fields([("make", 0), ("model", 1), ("year", 2)]))

  const GetByIdRoute := Fetch([Param("id", StrKind)], [Lit("/device-definitions/"), Hole(0)], Omitted)

  const ListDeviceMakesRoute := Fetch([], [Lit("/device-makes")], Omitted)

  const GetDeviceTypeByIdRoute := Fetch([Param("id", StrKind)], [Lit("/device-types/"), Hole(0)], Omitted)

  /** `get_by_mmy` sends params exactly `{make, model, year}`, no headers and no body. */
  lemma GetByMmySends(net: Network, calls0: seq<Descriptor>, make: Value, model: Value, year: Value)
    requires make.Str? && model.Str? && year.Int? && "DeviceDefinitions" in net.urls
    ensures var d := Descriptor(
              Call("GET", "DeviceDefinitions", "/device-definitions",
                Kwargs(None, NoData, Some(Dict([("make", make), ("model", model), ("year", year)])))),
              net.urls["DeviceDefinitions"] + "/device-definitions");
      Run(net, calls0, GetByMmyRoute, [make, model, year]) == (calls0 + [d], Reply(net.server(d)))
  {
    Unfold(GetByMmyRoute, [make, model, year]);
  }

  /** A year that is not an int raises TypeError naming `year`, and nothing
      is sent, once make and model are strings. */
  lemma GetByMmyYearChecked(net: Network, calls0: seq<Descriptor>, make: Value, model: Value, year: Value)
    requires make.Str? && model.Str? && !year.Int?
    ensures Run(net, calls0, GetByMmyRoute, [make, model, year]) == (calls0, Err(TypeError("year")))
  {
    Unfold(GetByMmyRoute, [make, model, year]);
  }

  /** The two by-id lookups send GET `<prefix>` + id with nothing else. */
  lemma ByIdSends(net: Network, calls0: seq<Descriptor>, prefix: string, id: Value)
    requires id.Str? && "DeviceDefinitions" in net.urls
    ensures var rt := Fetch([Param("id", StrKind)], [Lit(prefix), Hole(0)], Omitted);
      var d := Descriptor(Call("GET", "DeviceDefinitions", prefix + id.s, Kwargs(None, NoData, None)),
                          net.urls["DeviceDefinitions"] + prefix + id.s);
      Run(net, calls0, rt, [id]) == (calls0 + [d], Reply(net.server(d)))
  {
    var rt := Fetch([Param("id", StrKind)], [Lit(prefix), Hole(0)], Omitted);
    Unfold(rt, [id]);
    assert net.urls["DeviceDefinitions"] + Render(rt.path, [id]) == net.urls["DeviceDefinitions"] + prefix + id.s;
  }

  /** `list_device_makes` validates nothing: it always sends its GET when the
      service is known. */
  lemma ListDeviceMakesAlwaysSends(net: Network, calls0: seq<Descriptor>)
    requires "DeviceDefinitions" in net.urls
    ensures var d := Descriptor(Call("GET", "DeviceDefinitions", "/device-makes", Kwargs(None, NoData, None)),
                                net.urls["DeviceDefinitions"] + "/device-makes");
      Run(net, calls0, ListDeviceMakesRoute, []) == (calls0 + [d], Reply(net.server(d)))
  {
    Unfold(ListDeviceMakesRoute, []);
  }

  class DeviceDefinitions {
    const dimo: Dimo

    constructor (dimo: Dimo)
      ensures this.dimo == dimo
    {
      this.dimo := dimo;
    }

    method GetByMmy(make: Value, model: Value, year: Value) returns (r: Result<Value>)
      modifies dimo
      ensures (dimo.calls, r) == Run(dimo.net, old(dimo.calls), GetByMmyRoute, [make, model, year])
    {
      Unfold(GetByMmyRoute, [make, model, year]);
      if !make.Str? { return Err(TypeError("make")); }
      if !model.Str? { return Err(TypeError("model")); }
      if !year.Int? { return Err(TypeError("year")); }
      var params := Dict([("make", make), ("model", model), ("year", year)]);
      r := dimo.Request("GET", "DeviceDefinitions", "/device-definitions", Kwargs(None, NoData, Some(params)));
    }

    method GetById(id: Value) returns (r: Result<Value>)
      modifies dimo
      ensures (dimo.calls, r) == Run(dimo.net, old(dimo.calls), GetByIdRoute, [id])
    {
      Unfold(GetByIdRoute, [id]);
      if !id.Str? { return Err(TypeError("id")); }
      var url := "/device-definitions/" + id.s;
      r := dimo.Request("GET", "DeviceDefinitions", url, Kwargs(None, NoData, None));
    }

    method ListDeviceMakes() returns (r: Result<Value>)
      modifies dimo
      ensures (dimo.calls, r) == Run(dimo.net, old(dimo.calls), ListDeviceMakesRoute, [])
    {
      Unfold(ListDeviceMakesRoute, []);
      r := dimo.Request("GET", "DeviceDefinitions", "/device-makes", Kwargs(None, NoData, None));
    }

    method GetDeviceTypeById(id: Value) returns (r: Result<Value>)
      modifies dimo
      ensures (dimo.calls, r) == Run(dimo.net, old(dimo.calls), GetDeviceTypeByIdRoute, [id])
    {
      Unfold(GetDeviceTypeByIdRoute, [id]);
      if !id.Str? { return Err(TypeError("id")); }
      var url := "/device-types/" + id.s;
      r := dimo.Request("GET", "DeviceDefinitions", url, Kwargs(None, NoData, None));
    }
  }
}
