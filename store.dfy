/** The object registry of the PipeWire thread (src/pipewire/store.rs). */
module PwStore {
  import opened Base

  /** A device route: (route index, route device). */
  type Route = (I32, I32)

  /** The value of a live store: the primary maps of bound objects and their
      listeners, the derived indices, and the default sink name. */
  datatype StoreState = StoreState(
    defaultSinkName: Option<string>,
    nodes: map<U32, Proxy>,
    meta: map<U32, Proxy>,
    devices: map<U32, Proxy>,
    listeners: map<U32, seq<ListenerHandle>>,
    sinkNameToSinkId: map<string, U32>,
    sinkIdToDeviceId: map<U32, U32>,
    deviceIdToRoute: map<U32, Route>)
  {
    function RegisterMeta(id: U32, metadata: Proxy): StoreState {
      this.(meta := meta[id := metadata])
    }

    function RegisterDevice(id: U32, device: Proxy): StoreState {
      this.(devices := devices[id := device])
    }

    /** The listeners registered under `id`, oldest first. */
    function ListenersOf(id: U32): seq<ListenerHandle> {
      if id in listeners then listeners[id] else []
    }

    function RegisterListener(id: U32, listener: ListenerHandle): StoreState {
      this.(listeners := listeners[id := ListenersOf(id) + [listener]])
    }

    function RegisterSink(sinkId: U32, name: string, deviceId: U32, sink: Proxy): StoreState {
      this.(nodes := nodes[sinkId := sink],
            sinkNameToSinkId := sinkNameToSinkId[name := sinkId],
            sinkIdToDeviceId := sinkIdToDeviceId[sinkId := deviceId])
    }

    function RegisterDefaultSinkName(name: string): StoreState {
      this.(defaultSinkName := Some(name))
    }

    function RegisterRoute(deviceId: U32, route: Route): StoreState {
      this.(deviceIdToRoute := deviceIdToRoute[deviceId := route])
    }

    /** Drops `id` from the primary maps only; the derived indices keep it. */
    function Remove(id: U32): StoreState {
      this.(devices := devices - {id}, meta := meta - {id}, nodes := nodes - {id},
            listeners := listeners - {id})
    }

    /** The default sink name is set and names the sink `sinkId`. */
    predicate SinkLink(sinkId: U32) {
      defaultSinkName.Some? && defaultSinkName.value in sinkNameToSinkId
      && sinkNameToSinkId[defaultSinkName.value] == sinkId
    }

    /** ... and that sink is bound to the device `deviceId`. */
    predicate DeviceLink(sinkId: U32, deviceId: U32) {
      SinkLink(sinkId) && sinkId in sinkIdToDeviceId && sinkIdToDeviceId[sinkId] == deviceId
    }

    /** `with_default_device`: the device handle and route behind the default
        sink, or the first of the five links that is missing. */
    function DefaultDevice(): (r: Result<(Proxy, Route)>)
      ensures defaultSinkName.None? ==> r == Err(NoDefaultSinkName)
      ensures defaultSinkName.Some? && defaultSinkName.value !in sinkNameToSinkId ==> r == Err(NoDefaultSinkId)
      ensures forall sinkId :: SinkLink(sinkId) && sinkId !in sinkIdToDeviceId ==> r == Err(NoDefaultDeviceId)
      ensures forall sinkId, deviceId :: DeviceLink(sinkId, deviceId) ==>
                r == if deviceId !in devices then Err(NotDefaultDevice)
                     else if deviceId !in deviceIdToRoute then Err(NoDefaultRoute)
                     else Ok((devices[deviceId], deviceIdToRoute[deviceId]))
    {
      if defaultSinkName.None? then Err(NoDefaultSinkName)
      else if defaultSinkName.value !in sinkNameToSinkId then Err(NoDefaultSinkId)
      else
        var sinkId := sinkNameToSinkId[defaultSinkName.value];
        if sinkId !in sinkIdToDeviceId then Err(NoDefaultDeviceId)
        else
          var deviceId := sinkIdToDeviceId[sinkId];
          if deviceId !in devices then Err(NotDefaultDevice)
          else if deviceId !in deviceIdToRoute then Err(NoDefaultRoute)
          else Ok((devices[deviceId], deviceIdToRoute[deviceId]))
    }
  }

  /** The store `init_for_current_thread` installs: every map empty, no default name. */
  function Fresh(): StoreState {
    StoreState(None, map[], map[], map[], map[], map[], map[], map[])
  }

  /** The store of the current thread. `initialised` is false until
      `init_for_current_thread` runs (the thread-local slot holds `None`); until
      then every operation fails with `NoStore` and changes nothing. */
  class Store {
    var initialised: bool
    var defaultSinkName: Option<string>
    var nodes: map<U32, Proxy>
    var meta: map<U32, Proxy>
    var devices: map<U32, Proxy>
    var listeners: map<U32, seq<ListenerHandle>>
    var sinkNameToSinkId: map<string, U32>
    var sinkIdToDeviceId: map<U32, U32>
    var deviceIdToRoute: map<U32, Route>

    function State(): StoreState
      reads this
    {
      StoreState(defaultSinkName, nodes, meta, devices, listeners,
                 sinkNameToSinkId, sinkIdToDeviceId, deviceIdToRoute)
    }

    /** A thread whose slot is still empty. */
    constructor ()
      ensures !initialised
    {
      initialised := false;
      defaultSinkName := None;
      nodes, meta, devices, listeners := map[], map[], map[], map[];
      sinkNameToSinkId, sinkIdToDeviceId, deviceIdToRoute := map[], map[], map[];
    }

    method InitForCurrentThread()
      modifies this
      ensures initialised && State() == Fresh()
    {
      initialised := true;
      defaultSinkName := None;
      nodes, meta, devices, listeners := map[], map[], map[], map[];
      sinkNameToSinkId, sinkIdToDeviceId, deviceIdToRoute := map[], map[], map[];
    }

    method RegisterMeta(id: U32, metadata: Proxy) returns (r: Result<()>)
      modifies this
      ensures initialised == old(initialised)
      ensures r == if initialised then Ok(()) else Err(NoStore)
      ensures State() == if initialised then old(State()).RegisterMeta(id, metadata) else old(State())
    {
      if !initialised { return Err(NoStore); }
      meta := meta[id := metadata];
      return Ok(());
    }

    method RegisterDevice(id: U32, device: Proxy) returns (r: Result<()>)
      modifies this
      ensures initialised == old(initialised)
      ensures r == if initialised then Ok(()) else Err(NoStore)
      ensures State() == if initialised then old(State()).RegisterDevice(id, device) else old(State())
    {
      if !initialised { return Err(NoStore); }
      devices := devices[id := device];
      return Ok(());
    }

    /** `listeners.entry(id).or_default().push(listener)`. */
    method RegisterListener(id: U32, listener: ListenerHandle) returns (r: Result<()>)
      modifies this
      ensures initialised == old(initialised)
      ensures r == if initialised then Ok(()) else Err(NoStore)
      ensures State() == if initialised then old(State()).RegisterListener(id, listener) else old(State())
    {
      if !initialised { return Err(NoStore); }
      var list := if id in listeners then listeners[id] else [];
      listeners := listeners[id := list + [listener]];
      return Ok(());
    }

    method RegisterSink(sinkId: U32, name: string, deviceId: U32, sink: Proxy) returns (r: Result<()>)
      modifies this
      ensures initialised == old(initialised)
      ensures r == if initialised then Ok(()) else Err(NoStore)
      ensures State() == if initialised then old(State()).RegisterSink(sinkId, name, deviceId, sink) else old(State())
    {
      if !initialised { return Err(NoStore); }
      nodes := nodes[sinkId := sink];
      sinkNameToSinkId := sinkNameToSinkId[name := sinkId];
      sinkIdToDeviceId := sinkIdToDeviceId[sinkId := deviceId];
      return Ok(());
    }

    method RegisterDefaultSinkName(name: string) returns (r: Result<()>)
      modifies this
      ensures initialised == old(initialised)
      ensures r == if initialised then Ok(()) else Err(NoStore)
      ensures State() == if initialised then old(State()).RegisterDefaultSinkName(name) else old(State())
    {
      if !initialised { return Err(NoStore); }
      defaultSinkName := Some(name);
      return Ok(());
    }

    method RegisterRoute(deviceId: U32, route: Route) returns (r: Result<()>)
      modifies this
      ensures initialised == old(initialised)
      ensures r == if initialised then Ok(()) else Err(NoStore)
      ensures State() == if initialised then old(State()).RegisterRoute(deviceId, route) else old(State())
    {
      if !initialised { return Err(NoStore); }
      deviceIdToRoute := deviceIdToRoute[deviceId := route];
      return Ok(());
    }

    method Remove(id: U32) returns (r: Result<()>)
      modifies this
      ensures initialised == old(initialised)
      ensures r == if initialised then Ok(()) else Err(NoStore)
      ensures State() == if initialised then old(State()).Remove(id) else old(State())
    {
      if !initialised { return Err(NoStore); }
      devices := devices - {id};
      meta := meta - {id};
      nodes := nodes - {id};
      listeners := listeners - {id};
      return Ok(());
    }

    /** `with_default_device`, whose only caller applies its closure to the
        resolved pair exactly when resolution succeeds. */
    function WithDefaultDevice(): (r: Result<(Proxy, Route)>)
      reads this
      ensures !initialised ==> r == Err(NoStore)
      ensures initialised ==> r == State().DefaultDevice()
    {
      if !initialised then Err(NoStore) else State().DefaultDevice()
    }
  }

  /** A new registration under a name or an id already present replaces the
      earlier one: the default sink then resolves through the newer entry. */
  lemma RegisterSinkOverwrites(s: StoreState, sinkId: U32, name: string, deviceId: U32, sink: Proxy)
    ensures var t := s.RegisterSink(sinkId, name, deviceId, sink);
      t.nodes[sinkId] == sink && t.sinkNameToSinkId[name] == sinkId && t.sinkIdToDeviceId[sinkId] == deviceId
      && (forall n :: n in s.sinkNameToSinkId && n != name ==> t.sinkNameToSinkId[n] == s.sinkNameToSinkId[n])
      && t.devices == s.devices && t.deviceIdToRoute == s.deviceIdToRoute && t.defaultSinkName == s.defaultSinkName
  {
  }

  /** Listeners under an id accumulate in registration order; other ids keep theirs. */
  lemma ListenersAccumulate(s: StoreState, id: U32, listener: ListenerHandle, other: U32)
    requires other != id
    ensures s.RegisterListener(id, listener).ListenersOf(id) == s.ListenersOf(id) + [listener]
    ensures s.RegisterListener(id, listener).ListenersOf(other) == s.ListenersOf(other)
  {
  }

  /** At most one route per device: the last registration wins. */
  lemma RouteLastWriterWins(s: StoreState, deviceId: U32, first: Route, second: Route)
    ensures s.RegisterRoute(deviceId, first).RegisterRoute(deviceId, second) == s.RegisterRoute(deviceId, second)
    ensures s.RegisterRoute(deviceId, second).deviceIdToRoute[deviceId] == second
  {
  }

  /** Removal is idempotent, touches only the primary maps, and removing an id
      the store does not hold changes nothing. */
  lemma RemoveProperties(s: StoreState, id: U32)
    ensures s.Remove(id).Remove(id) == s.Remove(id)
    ensures var t := s.Remove(id);
      id !in t.devices && id !in t.meta && id !in t.nodes && id !in t.listeners
      && t.defaultSinkName == s.defaultSinkName && t.sinkNameToSinkId == s.sinkNameToSinkId
      && t.sinkIdToDeviceId == s.sinkIdToDeviceId && t.deviceIdToRoute == s.deviceIdToRoute
    ensures id !in s.devices && id !in s.meta && id !in s.nodes && id !in s.listeners ==> s.Remove(id) == s
  {
  }

  /** Since the derived indices are not purged, removing any object can only
      break resolution at the device-handle link: removing the default sink's
      own node leaves resolution exactly as it was. */
  lemma RemoveOnlyBreaksDeviceLink(s: StoreState, id: U32)
    ensures s.Remove(id).DefaultDevice() == s.DefaultDevice()
         || (s.Remove(id).DefaultDevice() == Err(NotDefaultDevice) && s.DefaultDevice() != Err(NotDefaultDevice))
  {
    if s.defaultSinkName.Some? && s.defaultSinkName.value in s.sinkNameToSinkId {
      var sinkId := s.sinkNameToSinkId[s.defaultSinkName.value];
      assert s.SinkLink(sinkId) && s.Remove(id).SinkLink(sinkId);
      if sinkId in s.sinkIdToDeviceId {
        var deviceId := s.sinkIdToDeviceId[sinkId];
        assert s.DeviceLink(sinkId, deviceId) && s.Remove(id).DeviceLink(sinkId, deviceId);
      }
    }
  }

  /** Registering sink 1 as "A" on device 10, device 10 with route (0, 0) and
      the default name "A" resolves to device 10 and route (0, 0); removing
      object 10 then fails at the device-handle link. */
  lemma ResolutionScenario(sink: Proxy, device: Proxy)
    ensures var s := Fresh().RegisterSink(1, "A", 10, sink).RegisterDevice(10, device)
                            .RegisterRoute(10, (0, 0)).RegisterDefaultSinkName("A");
      s.DefaultDevice() == Ok((device, (0, 0))) && s.Remove(10).DefaultDevice() == Err(NotDefaultDevice)
  {
    var s := Fresh().RegisterSink(1, "A", 10, sink).RegisterDevice(10, device)
                    .RegisterRoute(10, (0, 0)).RegisterDefaultSinkName("A");
    assert s.DeviceLink(1, 10);
    assert s.Remove(10).DeviceLink(1, 10);
  }
}
