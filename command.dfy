/** Sending a volume or mute request to the default device
    (src/pipewire/command.rs): the requested values are written as the props
    of a Route parameter that keeps the device's current route index and
    device, and the parameter is set on the device proxy. */
module Command {
  import opened Base
  import opened Spa
  import opened Scale
  import opened Runtime
  import opened PwStore
  import opened SinkPropsCodec
  import opened AudioDevice

  /** The props list `try_dispatch` builds: a channel-volume property with the
      cubic volume on both channels when a volume is given, then a mute
      property when a mute state is given. */
  function RouteProps(volume: Option<real>, muted: Option<bool>): (props: seq<Property>)
    ensures |props| == (if volume.Some? then 1 else 0) + (if muted.Some? then 1 else 0)
    ensures volume.Some? ==>
              props[0] == Property(PROP_CHANNEL_VOLUMES, FloatArray([ToCubic(volume.value), ToCubic(volume.value)]))
    ensures muted.Some? ==> props[|props| - 1] == Property(PROP_MUTE, Bool(muted.value))
  {
    (if volume.Some? then [Property(PROP_CHANNEL_VOLUMES, FloatArray([ToCubic(volume.value), ToCubic(volume.value)]))]
     else [])
    + (if muted.Some? then [Property(PROP_MUTE, Bool(muted.value))] else [])
  }

  /** The two conditional pushes onto `props`. */
  method BuildProps(volume: Option<real>, muted: Option<bool>) returns (props: seq<Property>)
    ensures props == RouteProps(volume, muted)
  {
    props := [];
    if volume.Some? {
      var cubic := ToCubic(volume.value);
      props := props + [Property(PROP_CHANNEL_VOLUMES, FloatArray([cubic, cubic]))];
    }
    if muted.Some? {
      props := props + [Property(PROP_MUTE, Bool(muted.value))];
    }
  }

  /** The Route object that is set: the current route index and device, and
      the requested props as a Props object with id `SPA_PARAM_Route`. */
  function RouteParam(route: Route, props: seq<Property>): (param: Value)
    ensures param.Object? && param.objectType == TYPE_OBJECT_PARAM_ROUTE && param.id == PARAM_ROUTE
    ensures |param.properties| == 3
    ensures param.properties[0] == Property(PARAM_ROUTE_INDEX, Int(route.0))
    ensures param.properties[1] == Property(PARAM_ROUTE_DEVICE, Int(route.1))
    ensures param.properties[2].key == PARAM_ROUTE_PROPS
    ensures param.properties[2].value == Object(TYPE_OBJECT_PROPS, PARAM_ROUTE, props)
  {
    Object(TYPE_OBJECT_PARAM_ROUTE, PARAM_ROUTE, [
      Property(PARAM_ROUTE_INDEX, Int(route.0)),
      Property(PARAM_ROUTE_DEVICE, Int(route.1)),
      Property(PARAM_ROUTE_PROPS, Object(TYPE_OBJECT_PROPS, PARAM_ROUTE, props))
    ])
  }

  /** The native call a dispatch to a resolved device makes: `set_param` of
      kind Route with no flags, whose value decodes back to the route and to
      the requested props. */
  function SetRouteCall(device: Proxy, route: Route, volume: Option<real>, muted: Option<bool>): (call: NativeCall)
    ensures call.ParamSet? && call.proxy == device && call.paramId == PARAM_ROUTE && call.flags == 0
    ensures DecodeRoute(call.param) == Ok(route)
    ensures call.param.Object? && |call.param.properties| == 3
    ensures Decode(call.param.properties[2].value)
         == Ok(SinkProps(if volume.Some? then Some(IngestVolume(ToCubic(volume.value), ToCubic(volume.value))) else None,
                         muted))
  {
    RouteParamRoundTrip(route, RouteProps(volume, muted));
    PropsRoundTrip(volume, muted);
    ParamSet(device, PARAM_ROUTE, 0, RouteParam(route, RouteProps(volume, muted)))
  }

  /** `try_dispatch`: resolve the default device and its route; when that
      fails nothing is sent and the resolution error is returned, otherwise
      exactly one Route parameter is set on the device. Both requested values
      travel in the same parameter; with neither, the props are empty. */
  method TryDispatch(volume: Option<real>, muted: Option<bool>, store: Store, core: Core) returns (r: Result<()>)
    modifies core
    ensures core.nextListener == old(core.nextListener)
    ensures store.WithDefaultDevice().Err? ==>
              r == Err(store.WithDefaultDevice().error) && core.calls == old(core.calls)
    ensures store.WithDefaultDevice().Ok? ==>
              var (device, route) := store.WithDefaultDevice().value;
              r == Ok(()) && core.calls == old(core.calls) + [SetRouteCall(device, route, volume, muted)]
  {
    var resolved := store.WithDefaultDevice();
    if resolved.Err? {
      return Err(resolved.error);
    }
    var (device, route) := resolved.value;
    var props := BuildProps(volume, muted);
    core.SetParam(device, PARAM_ROUTE, 0, RouteParam(route, props));
    r := Ok(());
  }

  /** The native calls one dispatch makes while default-device resolution
      gives `resolved`: one `set_param` when it resolves, none otherwise. */
  function DispatchedCalls(resolved: Result<(Proxy, Route)>, volume: Option<real>, muted: Option<bool>)
    : (calls: seq<NativeCall>)
    ensures |calls| == (if resolved.Ok? then 1 else 0)
    ensures resolved.Ok? ==> calls[0].ParamSet? && calls[0].proxy == resolved.value.0
                             && calls[0].paramId == PARAM_ROUTE && DecodeRoute(calls[0].param) == Ok(resolved.value.1)
  {
    if resolved.Ok? then [SetRouteCall(resolved.value.0, resolved.value.1, volume, muted)] else []
  }

  /** The errors one dispatch logs: the resolution error, if any. */
  function DispatchedErrors(resolved: Result<(Proxy, Route)>): (errors: seq<Error>)
    ensures |errors| == (if resolved.Err? then 1 else 0)
    ensures resolved.Err? ==> errors[0] == resolved.error
  {
    if resolved.Err? then [resolved.error] else []
  }

  /** `dispatch`: a failed dispatch is logged and goes no further. */
  method Dispatch(volume: Option<real>, muted: Option<bool>, store: Store, core: Core, log: Logger)
    modifies core, log
    ensures core.nextListener == old(core.nextListener)
    ensures core.calls == old(core.calls) + DispatchedCalls(store.WithDefaultDevice(), volume, muted)
    ensures log.errors == old(log.errors) + DispatchedErrors(store.WithDefaultDevice())
  {
    var r := TryDispatch(volume, muted, store, core);
    if r.Err? {
      log.LogError(r.error);
    }
  }

  /** The Route parameter sent names the route it was built from: decoding it
      as a Route change gives back exactly that route, whatever the props. */
  lemma RouteParamRoundTrip(route: Route, props: seq<Property>)
    ensures DecodeRoute(RouteParam(route, props)) == Ok(route)
  {
    var ps := RouteParam(route, props).properties;
    var withIndex := RouteFields(Some(route.0), None);
    var withBoth := RouteFields(Some(route.0), Some(route.1));
    assert RouteStep(NoFields, ps[0]) == Ok(withIndex);
    assert RouteStep(withIndex, ps[1]) == Ok(withBoth);
    assert RouteStep(withBoth, ps[2]) == Ok(withBoth);
    assert ps[1..][0] == ps[1] && ps[1..][1..] == [ps[2]] && [ps[2]][1..] == [];
    assert RouteFieldsFrom(ps, NoFields) == RouteFieldsFrom(ps[1..], withIndex)
        == RouteFieldsFrom([ps[2]], withBoth) == Ok(withBoth);
  }

  /** The props sent decode, as a sink's Props object, to the ingest-side
      reading of the same request: the volume becomes the percentage that
      ingesting the cubic value on both channels yields, and the mute state is
      carried unchanged; what was not requested stays unset. */
  lemma PropsRoundTrip(volume: Option<real>, muted: Option<bool>)
    ensures Decode(Object(TYPE_OBJECT_PROPS, PARAM_ROUTE, RouteProps(volume, muted)))
         == Ok(SinkProps(if volume.Some? then Some(IngestVolume(ToCubic(volume.value), ToCubic(volume.value))) else None,
                         muted))
  {
    var ps := RouteProps(volume, muted);
    if volume.Some? {
      var reading := SinkProps(Some(IngestVolume(ToCubic(volume.value), ToCubic(volume.value))), None);
      assert Step(Unset, ps[0]) == Ok(reading);
      assert DecodeFrom(ps, Unset) == DecodeFrom(ps[1..], reading);
      if muted.Some? {
        assert ps[1..] == [ps[1]] && [ps[1]][1..] == [];
        assert Step(reading, ps[1]) == Ok(reading.(muted := muted));
        assert DecodeFrom(ps[1..], reading) == DecodeFrom([], reading.(muted := muted));
      } else {
        assert ps[1..] == [];
      }
    } else if muted.Some? {
      assert ps == [Property(PROP_MUTE, Bool(muted.value))] && ps[1..] == [];
      assert DecodeFrom(ps, Unset) == DecodeFrom([], SinkProps(None, muted));
    }
  }
}
