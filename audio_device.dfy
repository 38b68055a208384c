/** Audio devices (src/pipewire/audio_device.rs): registration when the device
    appears, and tracking of its active route from Route parameter changes. */
module AudioDevice {
  import opened Base
  import opened Spa
  import opened Runtime
  import opened PwStore

  /** The two locals `route_changed` fills while it walks the properties. */
  datatype RouteFields = RouteFields(index: Option<I32>, device: Option<I32>)

  const NoFields := RouteFields(None, None)

  /** A route index or route device property whose value is not an `Int`. */
  predicate RouteMalformed(p: Property) {
    (p.key == PARAM_ROUTE_INDEX || p.key == PARAM_ROUTE_DEVICE) && !p.value.Int?
  }

  /** One loop iteration: the index check and the device check are two
      independent `if`s. */
  function RouteStep(acc: RouteFields, p: Property): (r: Result<RouteFields>)
    ensures r.Err? <==> RouteMalformed(p)
  {
    var afterIndex :=
      if p.key == PARAM_ROUTE_INDEX then
        match p.value
        case Int(index) => Ok(acc.(index := Some(index)))
        case _ => Err(RouteIndexNotInt)
      else Ok(acc);
    match afterIndex
    case Err(e) => Err(e)
    case Ok(fields) =>
      if p.key == PARAM_ROUTE_DEVICE then
        match p.value
        case Int(device) => Ok(fields.(device := Some(device)))
        case _ => Err(RouteDeviceNotInt)
      else Ok(fields)
  }

  function RouteFieldsFrom(ps: seq<Property>, acc: RouteFields): Result<RouteFields>
    decreases |ps|
  {
    if ps == [] then Ok(acc)
    else match RouteStep(acc, ps[0])
      case Err(e) => Err(e)
      case Ok(next) => RouteFieldsFrom(ps[1..], next)
  }

  /** The route a Route parameter names: both an index and a device are needed. */
  function DecodeRoute(param: Value): (r: Result<Route>)
    ensures !param.Object? ==> r == Err(PodNotObject)
  {
    match param
    case Object(_, _, properties) =>
      (match RouteFieldsFrom(properties, NoFields)
       case Err(e) => Err(e)
       case Ok(fields) =>
         if fields.index.None? then Err(NoRouteIndex)
         else if fields.device.None? then Err(NoRouteDevice)
         else Ok((fields.index.value, fields.device.value)))
    case _ => Err(PodNotObject)
  }

  /** `route_changed`: decode the route, then record it as the device's route.
      A decode failure leaves the store untouched. */
  method RouteChanged(deviceId: U32, param: Value, store: Store) returns (r: Result<()>)
    modifies store
    ensures store.initialised == old(store.initialised)
    ensures DecodeRoute(param).Err? ==> r == Err(DecodeRoute(param).error) && store.State() == old(store.State())
    ensures DecodeRoute(param).Ok? ==>
      && r == (if store.initialised then Ok(()) else Err(NoStore))
      && store.State() == if store.initialised
           then old(store.State()).RegisterRoute(deviceId, DecodeRoute(param).value)
           else old(store.State())
  {
    if !param.Object? {
      return Err(PodNotObject);
    }
    var properties := param.properties;
    var routeIndex: Option<I32> := None;
    var routeDevice: Option<I32> := None;
    for i := 0 to |properties|
      invariant RouteFieldsFrom(properties, NoFields)
                == RouteFieldsFrom(properties[i..], RouteFields(routeIndex, routeDevice))
    {
      var prop := properties[i];
      assert properties[i..][0] == prop && properties[i..][1..] == properties[i + 1..];
      if prop.key == PARAM_ROUTE_INDEX {
        if !prop.value.Int? {
          return Err(RouteIndexNotInt);
        }
        routeIndex := Some(prop.value.i);
      }
      if prop.key == PARAM_ROUTE_DEVICE {
        if !prop.value.Int? {
          return Err(RouteDeviceNotInt);
        }
        routeDevice := Some(prop.value.i);
      }
    }
    assert properties[|properties|..] == [];
    if routeIndex.None? {
      return Err(NoRouteIndex);
    }
    if routeDevice.None? {
      return Err(NoRouteDevice);
    }
    r := store.RegisterRoute(deviceId, (routeIndex.value, routeDevice.value));
  }

  /** The param listener registered in `added`: a failure is logged. */
  method OnParam(deviceId: U32, param: Option<Value>, store: Store, log: Logger)
    modifies store, log
    ensures store.initialised == old(store.initialised)
    ensures param.None? ==> store.State() == old(store.State()) && log.errors == old(log.errors)
    ensures param.Some? && DecodeRoute(param.value).Err? ==>
              store.State() == old(store.State()) && log.errors == old(log.errors) + [DecodeRoute(param.value).error]
    ensures param.Some? && DecodeRoute(param.value).Ok? ==>
              && store.State() == (if store.initialised
                                   then old(store.State()).RegisterRoute(deviceId, DecodeRoute(param.value).value)
                                   else old(store.State()))
              && log.errors == old(log.errors) + (if store.initialised then [] else [NoStore])
  {
    if param.Some? {
      var r := RouteChanged(deviceId, param.value, store);
      if r.Err? {
        log.LogError(r.error);
      }
    }
  }

  /** `added`: subscribes to Route parameters and registers the device and
      then one listener under the same id. */
  method Added(deviceId: U32, device: Proxy, store: Store, core: Core) returns (r: Result<()>)
    modifies store, core
    ensures store.initialised == old(store.initialised)
    ensures core.calls == old(core.calls) + [Subscribed(device, [PARAM_ROUTE]), ListenerAdded(device)]
    ensures core.nextListener == old(core.nextListener) + 1
    ensures r == if store.initialised then Ok(()) else Err(NoStore)
    ensures store.State() == if store.initialised
              then old(store.State()).RegisterDevice(deviceId, device)
                                     .RegisterListener(deviceId, ListenerHandle(old(core.nextListener)))
              else old(store.State())
  {
    core.SubscribeParams(device, [PARAM_ROUTE]);
    var listener := core.AddListener(device);
    r := store.RegisterDevice(deviceId, device);
    if r.Err? {
      return;
    }
    r := store.RegisterListener(deviceId, listener);
  }

  /** The walk fails exactly when some route index or route device is not an
      `Int`, and then with the error of the first such property. */
  lemma {:induction false} RouteFieldsOkIff(ps: seq<Property>, acc: RouteFields)
    ensures RouteFieldsFrom(ps, acc).Ok? <==> forall i :: 0 <= i < |ps| ==> !RouteMalformed(ps[i])
    decreases |ps|
  {
    if ps != [] && !RouteMalformed(ps[0]) {
      RouteFieldsOkIff(ps[1..], RouteStep(acc, ps[0]).value);
      assert forall i :: 1 <= i < |ps| ==> ps[i] == ps[1..][i - 1];
    }
  }

  lemma {:induction false} RouteFirstError(ps: seq<Property>, acc: RouteFields, i: nat)
    requires i < |ps| && RouteMalformed(ps[i])
    requires forall j :: 0 <= j < i ==> !RouteMalformed(ps[j])
    ensures RouteFieldsFrom(ps, acc)
            == Err(if ps[i].key == PARAM_ROUTE_INDEX then RouteIndexNotInt else RouteDeviceNotInt)
    decreases i
  {
    if i > 0 {
      RouteFirstError(ps[1..], RouteStep(acc, ps[0]).value, i - 1);
    }
  }

  /** When the walk succeeds, each field holds the value of the last property
      with its key, or its starting value when no property has that key. */
  lemma {:induction false} RouteFieldsLastWins(ps: seq<Property>, acc: RouteFields)
    requires RouteFieldsFrom(ps, acc).Ok?
    ensures forall i :: 0 <= i < |ps| && ps[i].key == PARAM_ROUTE_INDEX
              && (forall j :: i < j < |ps| ==> ps[j].key != PARAM_ROUTE_INDEX)
              ==> ps[i].value.Int? && RouteFieldsFrom(ps, acc).value.index == Some(ps[i].value.i)
    ensures (forall i :: 0 <= i < |ps| ==> ps[i].key != PARAM_ROUTE_INDEX)
              ==> RouteFieldsFrom(ps, acc).value.index == acc.index
    ensures forall i :: 0 <= i < |ps| && ps[i].key == PARAM_ROUTE_DEVICE
              && (forall j :: i < j < |ps| ==> ps[j].key != PARAM_ROUTE_DEVICE)
              ==> ps[i].value.Int? && RouteFieldsFrom(ps, acc).value.device == Some(ps[i].value.i)
    ensures (forall i :: 0 <= i < |ps| ==> ps[i].key != PARAM_ROUTE_DEVICE)
              ==> RouteFieldsFrom(ps, acc).value.device == acc.device
    decreases |ps|
  {
    if ps != [] {
      RouteFieldsLastWins(ps[1..], RouteStep(acc, ps[0]).value);
      assert forall i :: 1 <= i < |ps| ==> ps[i] == ps[1..][i - 1];
    }
  }

  /** A well-formed Route object decodes to its last index and its last device. */
  lemma RouteDecoded(objectType: U32, id: U32, ps: seq<Property>, i: nat, j: nat)
    requires forall k :: 0 <= k < |ps| ==> !RouteMalformed(ps[k])
    requires i < |ps| && ps[i].key == PARAM_ROUTE_INDEX
    requires forall k :: i < k < |ps| ==> ps[k].key != PARAM_ROUTE_INDEX
    requires j < |ps| && ps[j].key == PARAM_ROUTE_DEVICE
    requires forall k :: j < k < |ps| ==> ps[k].key != PARAM_ROUTE_DEVICE
    ensures ps[i].value.Int? && ps[j].value.Int?
    ensures DecodeRoute(Object(objectType, id, ps)) == Ok((ps[i].value.i, ps[j].value.i))
  {
    RouteFieldsOkIff(ps, NoFields);
    RouteFieldsLastWins(ps, NoFields);
  }

  /** A well-formed Route object without an index fails with `NoRouteIndex`;
      one with an index but without a device fails with `NoRouteDevice`. */
  lemma RouteMissingField(objectType: U32, id: U32, ps: seq<Property>)
    requires forall k :: 0 <= k < |ps| ==> !RouteMalformed(ps[k])
    ensures (forall k :: 0 <= k < |ps| ==> ps[k].key != PARAM_ROUTE_INDEX)
            ==> DecodeRoute(Object(objectType, id, ps)) == Err(NoRouteIndex)
    ensures forall i :: 0 <= i < |ps| && ps[i].key == PARAM_ROUTE_INDEX
              && (forall k :: 0 <= k < |ps| ==> ps[k].key != PARAM_ROUTE_DEVICE)
              ==> DecodeRoute(Object(objectType, id, ps)) == Err(NoRouteDevice)
  {
    RouteFieldsOkIff(ps, NoFields);
    RouteFieldsLastWins(ps, NoFields);
    var fields := RouteFieldsFrom(ps, NoFields).value;
    forall i | 0 <= i < |ps| && ps[i].key == PARAM_ROUTE_INDEX
      ensures fields.index.Some?
    {
      var last := LastWithKey(ps, PARAM_ROUTE_INDEX, i);
      assert RouteFieldsFrom(ps, NoFields).value.index == Some(ps[last].value.i);
    }
  }

  /** The last position holding `key`, given that position `i` holds it. */
  function LastWithKey(ps: seq<Property>, key: U32, i: nat): (last: nat)
    requires i < |ps| && ps[i].key == key
    ensures i <= last < |ps| && ps[last].key == key
    ensures forall k :: last < k < |ps| ==> ps[k].key != key
    decreases |ps| - i
  {
    if exists k :: i < k < |ps| && ps[k].key == key then
      var k :| i < k < |ps| && ps[k].key == key;
      LastWithKey(ps, key, k)
    else i
  }
}
