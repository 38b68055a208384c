/** The PipeWire thread's wiring (src/pipewire/mod.rs): routing each global
    object the registry announces to the handler of its role, dropping removed
    objects from the store, and draining the request channel on each timer
    tick. */
module PipeWire {
  import opened Base
  import opened Spa
  import opened Runtime
  import opened PwStore
  import Command
  import MetadataNode
  import AudioDevice
  import AudioSink

  /** A global object as the registry announces it: its id, its interface
      type, and its properties when it has any. */
  datatype GlobalObject = GlobalObject(id: U32, kind: ObjectType, props: Option<map<string, string>>)

  /** `registry.bind`: a proxy of the requested interface, which only succeeds
      when the object is of that type. */
  function Bind(obj: GlobalObject, expected: ObjectType): (r: Result<Proxy>)
    ensures r.Ok? <==> obj.kind == expected
    ensures r.Ok? ==> r.value == Proxy(expected, obj.id)
    ensures r.Err? ==> r.error == WrongProxyType(expected)
  {
    if obj.kind == expected then Ok(Proxy(expected, obj.id)) else Err(WrongProxyType(expected))
  }

  predicate HasProp(props: map<string, string>, key: string, value: string) {
    key in props && props[key] == value
  }

  /** The three roles `on_global_object_added` checks, one independent test each. */
  predicate IsDefaultMetadata(props: map<string, string>) { HasProp(props, "metadata.name", "default") }
  predicate IsAudioDevice(props: map<string, string>) { HasProp(props, "media.class", "Audio/Device") }
  predicate IsAudioSink(props: map<string, string>) { HasProp(props, "media.class", "Audio/Sink") }

  /** An object is never both a device and a sink: both roles read the same
      `media.class` property. It can be the default metadata object and one
      of the two. */
  lemma DeviceAndSinkExclusive(props: map<string, string>)
    ensures !(IsAudioDevice(props) && IsAudioSink(props))
    ensures (IsAudioDevice(props) || IsAudioSink(props)) <==> "media.class" in props
                                                              && props["media.class"] in {"Audio/Device", "Audio/Sink"}
  {
    assert "Audio/Device" != "Audio/Sink" by { assert "Audio/Device"[6] != "Audio/Sink"[6]; }
  }

  /** The native calls each role's `added` issues on its proxy. */
  function MetadataCalls(p: Proxy): seq<NativeCall> { [ListenerAdded(p)] }
  function DeviceCalls(p: Proxy): seq<NativeCall> { [Subscribed(p, [PARAM_ROUTE]), ListenerAdded(p)] }
  function SinkCalls(p: Proxy): seq<NativeCall> { [Subscribed(p, [PARAM_PROPS]), ListenerAdded(p)] }

  /** What handling an added global object does: its result, the store it
      leaves, the native calls it makes and the number of listeners it adds. */
  datatype Handling = Handling(result: Result<()>, state: StoreState, calls: seq<NativeCall>, listeners: nat)

  /** A handling that makes no call and leaves the store `s`. */
  function Done(result: Result<()>, s: StoreState): Handling {
    Handling(result, s, [], 0)
  }

  /** `second` run after `first`: the calls and listeners add up, and the
      result and store are the later ones. */
  function AndThen(first: Handling, second: Handling): Handling {
    Handling(second.result, second.state, first.calls + second.calls, first.listeners + second.listeners)
  }

  /** The result of a role's `added` once its native calls are made: the
      registrations need a store. */
  function Registered(initialised: bool): Result<()> {
    if initialised then Ok(()) else Err(NoStore)
  }

  /** Each role's `added` on a bound proxy `p`, from store `s`, with `next`
      the token the listener it adds receives. */
  function MetadataAdded(id: U32, p: Proxy, s: StoreState, initialised: bool, next: nat): Handling {
    Handling(Registered(initialised),
             if initialised then s.RegisterMeta(id, p).RegisterListener(id, ListenerHandle(next)) else s,
             MetadataCalls(p), 1)
  }

  function DeviceAdded(id: U32, p: Proxy, s: StoreState, initialised: bool, next: nat): Handling {
    Handling(Registered(initialised),
             if initialised then s.RegisterDevice(id, p).RegisterListener(id, ListenerHandle(next)) else s,
             DeviceCalls(p), 1)
  }

  /** The sink's own property checks come before any native call. */
  function SinkAdded(id: U32, props: map<string, string>, p: Proxy, s: StoreState, initialised: bool, next: nat)
    : Handling
  {
    if "node.name" !in props then Done(Err(NoSinkName), s)
    else if "device.id" !in props then Done(Err(NoDeviceId), s)
    else if ParseU32(props["device.id"]).None? then Done(Err(DeviceIdNotNumber), s)
    else
      Handling(Registered(initialised),
               if initialised
               then s.RegisterSink(id, props["node.name"], ParseU32(props["device.id"]).value, p)
                     .RegisterListener(id, ListenerHandle(next))
               else s,
               SinkCalls(p), 1)
  }

  /** Each role: nothing when the object does not claim it; otherwise bind a
      proxy of the role's type, then run the role's `added`. */
  function MetadataRole(obj: GlobalObject, props: map<string, string>, s: StoreState, initialised: bool, next: nat)
    : Handling
  {
    if !IsDefaultMetadata(props) then Done(Ok(()), s)
    else if Bind(obj, MetadataType).Err? then Done(Err(Bind(obj, MetadataType).error), s)
    else MetadataAdded(obj.id, Bind(obj, MetadataType).value, s, initialised, next)
  }

  function DeviceRole(obj: GlobalObject, props: map<string, string>, s: StoreState, initialised: bool, next: nat)
    : Handling
  {
    if !IsAudioDevice(props) then Done(Ok(()), s)
    else if Bind(obj, DeviceType).Err? then Done(Err(Bind(obj, DeviceType).error), s)
    else DeviceAdded(obj.id, Bind(obj, DeviceType).value, s, initialised, next)
  }

  function SinkRole(obj: GlobalObject, props: map<string, string>, s: StoreState, initialised: bool, next: nat)
    : Handling
  {
    if !IsAudioSink(props) then Done(Ok(()), s)
    else if Bind(obj, NodeType).Err? then Done(Err(Bind(obj, NodeType).error), s)
    else SinkAdded(obj.id, props, Bind(obj, NodeType).value, s, initialised, next)
  }

  /** Running a role after handling `h`: nothing more once `h` has failed;
      otherwise the role runs from the store `h` left and with the listener
      tokens `h` used taken. */
  function MetadataStep(obj: GlobalObject, props: map<string, string>, initialised: bool, next: nat, h: Handling)
    : Handling
  {
    if h.result.Err? then h
    else AndThen(h, MetadataRole(obj, props, h.state, initialised, next + h.listeners))
  }

  function DeviceStep(obj: GlobalObject, props: map<string, string>, initialised: bool, next: nat, h: Handling)
    : Handling
  {
    if h.result.Err? then h
    else AndThen(h, DeviceRole(obj, props, h.state, initialised, next + h.listeners))
  }

  function SinkStep(obj: GlobalObject, props: map<string, string>, initialised: bool, next: nat, h: Handling)
    : Handling
  {
    if h.result.Err? then h
    else AndThen(h, SinkRole(obj, props, h.state, initialised, next + h.listeners))
  }

  /** `on_global_object_added` as a value: from store `s` (present when
      `initialised`) with `next` the next listener token, the roles run in
      order metadata, device, sink, and the first failure ends the handling;
      what earlier roles registered stays registered. */
  function HandleAdded(obj: GlobalObject, s: StoreState, initialised: bool, next: nat): (h: Handling)
    ensures obj.props.None? ==> h.result == Ok(()) && h.state == s && h.calls == [] && h.listeners == 0
    ensures !initialised ==> h.state == s
  {
    if obj.props.None? then Done(Ok(()), s)
    else
      var props := obj.props.value;
      SinkStep(obj, props, initialised, next,
               DeviceStep(obj, props, initialised, next,
                          MetadataStep(obj, props, initialised, next, Done(Ok(()), s))))
  }

  /** An object without properties, or with none of the three roles, is
      ignored. */
  lemma HandleIgnored(obj: GlobalObject, s: StoreState, initialised: bool, next: nat)
    ensures obj.props.None? || (!IsDefaultMetadata(obj.props.value) && !IsAudioDevice(obj.props.value)
                                && !IsAudioSink(obj.props.value))
            ==> HandleAdded(obj, s, initialised, next) == Done(Ok(()), s)
  {
  }

  /** The default metadata object that is not of the Metadata type: binding
      fails, and nothing is called or registered. */
  lemma HandleMetadataWrongType(obj: GlobalObject, s: StoreState, initialised: bool, next: nat)
    ensures obj.props.Some? && IsDefaultMetadata(obj.props.value) && obj.kind != MetadataType
            ==> HandleAdded(obj, s, initialised, next) == Done(Err(WrongProxyType(MetadataType)), s)
  {
  }

  /** The default metadata object of the Metadata type: it is registered with
      its listener, and when it also claims a device or sink class, binding
      that second proxy fails. */
  lemma HandleMetadata(obj: GlobalObject, s: StoreState, initialised: bool, next: nat)
    ensures obj.props.Some? && IsDefaultMetadata(obj.props.value) && obj.kind == MetadataType ==>
              var h := HandleAdded(obj, s, initialised, next);
              var props := obj.props.value;
              var p := Proxy(MetadataType, obj.id);
              && h.calls == MetadataCalls(p) && h.listeners == 1
              && h.state == (if initialised then s.RegisterMeta(obj.id, p).RegisterListener(obj.id, ListenerHandle(next))
                             else s)
              && h.result == if !initialised then Err(NoStore)
                             else if IsAudioDevice(props) then Err(WrongProxyType(DeviceType))
                             else if IsAudioSink(props) then Err(WrongProxyType(NodeType))
                             else Ok(())
  {
    if obj.props.Some? && IsDefaultMetadata(obj.props.value) && obj.kind == MetadataType {
      var props := obj.props.value;
      DeviceAndSinkExclusive(props);
      var m := MetadataStep(obj, props, initialised, next, Done(Ok(()), s));
      assert m == MetadataAdded(obj.id, Proxy(MetadataType, obj.id), s, initialised, next);
      if initialised {
        assert DeviceRole(obj, props, m.state, initialised, next + 1)
            == Done(if IsAudioDevice(props) then Err(WrongProxyType(DeviceType)) else Ok(()), m.state);
        var d := DeviceStep(obj, props, initialised, next, m);
        assert SinkRole(obj, props, d.state, initialised, next + 1)
            == Done(if IsAudioSink(props) then Err(WrongProxyType(NodeType)) else Ok(()), m.state);
      }
    }
  }

  /** An audio device that is not the metadata object: binding fails unless
      it is a Device object; otherwise the device and its listener are
      registered under its id. */
  lemma HandleDevice(obj: GlobalObject, s: StoreState, initialised: bool, next: nat)
    ensures obj.props.Some? && !IsDefaultMetadata(obj.props.value) && IsAudioDevice(obj.props.value) ==>
              var h := HandleAdded(obj, s, initialised, next);
              var p := Proxy(DeviceType, obj.id);
              if obj.kind != DeviceType then h == Done(Err(WrongProxyType(DeviceType)), s)
              else h == Handling(Registered(initialised),
                                 if initialised
                                 then s.RegisterDevice(obj.id, p).RegisterListener(obj.id, ListenerHandle(next))
                                 else s,
                                 DeviceCalls(p), 1)
  {
    if obj.props.Some? {
      DeviceAndSinkExclusive(obj.props.value);
    }
  }

  /** An audio sink that is not the metadata object: binding comes first,
      then the sink's checks of `node.name` and `device.id`, each failing
      with its own error before any native call; otherwise the sink, its
      name, its device and its listener are registered. */
  lemma HandleSink(obj: GlobalObject, s: StoreState, initialised: bool, next: nat)
    ensures obj.props.Some? && !IsDefaultMetadata(obj.props.value) && IsAudioSink(obj.props.value) ==>
              var h := HandleAdded(obj, s, initialised, next);
              var props := obj.props.value;
              var p := Proxy(NodeType, obj.id);
              if obj.kind != NodeType then h == Done(Err(WrongProxyType(NodeType)), s)
              else if "node.name" !in props then h == Done(Err(NoSinkName), s)
              else if "device.id" !in props then h == Done(Err(NoDeviceId), s)
              else if ParseU32(props["device.id"]).None? then h == Done(Err(DeviceIdNotNumber), s)
              else h == Handling(Registered(initialised),
                                 if initialised
                                 then s.RegisterSink(obj.id, props["node.name"], ParseU32(props["device.id"]).value, p)
                                       .RegisterListener(obj.id, ListenerHandle(next))
                                 else s,
                                 SinkCalls(p), 1)
  {
    if obj.props.Some? {
      DeviceAndSinkExclusive(obj.props.value);
    }
  }

  /** At most one role's `added` runs for an object, so it adds at most one
      listener, and an object none of whose roles ran makes no call. */
  lemma AtMostOneRoleRuns(obj: GlobalObject, s: StoreState, initialised: bool, next: nat)
    ensures HandleAdded(obj, s, initialised, next).listeners <= 1
    ensures HandleAdded(obj, s, initialised, next).listeners == 0 ==> HandleAdded(obj, s, initialised, next).calls == []
  {
    if obj.props.Some? {
      var props := obj.props.value;
      DeviceAndSinkExclusive(props);
      var m := MetadataStep(obj, props, initialised, next, Done(Ok(()), s));
      if m.result.Ok? && m.listeners == 1 {
        assert obj.kind == MetadataType;
        assert DeviceRole(obj, props, m.state, initialised, next + 1).listeners == 0;
        var d := DeviceStep(obj, props, initialised, next, m);
        assert SinkRole(obj, props, d.state, initialised, next + 1).listeners == 0;
      }
    }
  }

  /** Without a store nothing is registered, and an object whose `added` ran
      then fails with `NoStore`. */
  lemma NoStoreRegistersNothing(obj: GlobalObject, s: StoreState, next: nat)
    ensures HandleAdded(obj, s, false, next).state == s
    ensures HandleAdded(obj, s, false, next).calls != [] ==> HandleAdded(obj, s, false, next).result == Err(NoStore)
  {
    if obj.props.Some? {
      DeviceAndSinkExclusive(obj.props.value);
    }
  }

  /** One `if` block of `on_global_object_added` each, run after the
      handling `h` so far succeeded: bind the role's proxy and run its
      `added` when the object claims the role. */
  method MetadataStage(obj: GlobalObject, props: map<string, string>, store: Store, core: Core,
    ghost initialised: bool, ghost next: nat, ghost calls0: seq<NativeCall>, ghost h: Handling)
    returns (r: Result<()>)
    requires h.result.Ok? && store.initialised == initialised && store.State() == h.state
    requires core.calls == calls0 + h.calls && core.nextListener == next + h.listeners
    modifies store, core
    ensures store.initialised == initialised
    ensures var after := MetadataStep(obj, props, initialised, next, h);
            && r == after.result && store.State() == after.state
            && core.calls == calls0 + after.calls && core.nextListener == next + after.listeners
  {
    ghost var role := MetadataRole(obj, props, h.state, initialised, next + h.listeners);
    r := Ok(());
    if IsDefaultMetadata(props) {
      var metadata := Bind(obj, MetadataType);
      if metadata.Err? {
        return Err(metadata.error);
      }
      r := MetadataNode.Added(obj.id, metadata.value, store, core);
    }
    assert calls0 + h.calls + role.calls == calls0 + (h.calls + role.calls);
  }

  method DeviceStage(obj: GlobalObject, props: map<string, string>, store: Store, core: Core,
    ghost initialised: bool, ghost next: nat, ghost calls0: seq<NativeCall>, ghost h: Handling)
    returns (r: Result<()>)
    requires h.result.Ok? && store.initialised == initialised && store.State() == h.state
    requires core.calls == calls0 + h.calls && core.nextListener == next + h.listeners
    modifies store, core
    ensures store.initialised == initialised
    ensures var after := DeviceStep(obj, props, initialised, next, h);
            && r == after.result && store.State() == after.state
            && core.calls == calls0 + after.calls && core.nextListener == next + after.listeners
  {
    ghost var role := DeviceRole(obj, props, h.state, initialised, next + h.listeners);
    r := Ok(());
    if IsAudioDevice(props) {
      var device := Bind(obj, DeviceType);
      if device.Err? {
        return Err(device.error);
      }
      r := AudioDevice.Added(obj.id, device.value, store, core);
    }
    assert calls0 + h.calls + role.calls == calls0 + (h.calls + role.calls);
  }

  method SinkStage(obj: GlobalObject, props: map<string, string>, store: Store, core: Core,
    ghost initialised: bool, ghost next: nat, ghost calls0: seq<NativeCall>, ghost h: Handling)
    returns (r: Result<()>)
    requires h.result.Ok? && store.initialised == initialised && store.State() == h.state
    requires core.calls == calls0 + h.calls && core.nextListener == next + h.listeners
    modifies store, core
    ensures store.initialised == initialised
    ensures var after := SinkStep(obj, props, initialised, next, h);
            && r == after.result && store.State() == after.state
            && core.calls == calls0 + after.calls && core.nextListener == next + after.listeners
  {
    ghost var role := SinkRole(obj, props, h.state, initialised, next + h.listeners);
    r := Ok(());
    if IsAudioSink(props) {
      var node := Bind(obj, NodeType);
      if node.Err? {
        return Err(node.error);
      }
      r := AudioSink.Added(obj.id, props, node.value, store, core);
    }
    assert calls0 + h.calls + role.calls == calls0 + (h.calls + role.calls);
  }

  /** `on_global_object_added`, proved to do what `HandleAdded` describes. */
  method OnGlobalObjectAdded(obj: GlobalObject, store: Store, core: Core) returns (r: Result<()>)
    modifies store, core
    ensures store.initialised == old(store.initialised)
    ensures var h := HandleAdded(obj, old(store.State()), old(store.initialised), old(core.nextListener));
            && r == h.result && store.State() == h.state
            && core.calls == old(core.calls) + h.calls
            && core.nextListener == old(core.nextListener) + h.listeners
  {
    if obj.props.None? {
      return Ok(());
    }
    var props := obj.props.value;
    ghost var initialised, next, calls0 := store.initialised, core.nextListener, core.calls;
    ghost var h := Done(Ok(()), store.State());
    assert core.calls == calls0 + h.calls;
    r := MetadataStage(obj, props, store, core, initialised, next, calls0, h);
    h := MetadataStep(obj, props, initialised, next, h);
    if r.Err? {
      return;
    }
    r := DeviceStage(obj, props, store, core, initialised, next, calls0, h);
    h := DeviceStep(obj, props, initialised, next, h);
    if r.Err? {
      return;
    }
    r := SinkStage(obj, props, store, core, initialised, next, calls0, h);
  }

  /** The registry's `global` listener: a failed handling is logged, once,
      with its error. */
  method OnGlobal(obj: GlobalObject, store: Store, core: Core, log: Logger)
    modifies store, core, log
    ensures store.initialised == old(store.initialised)
    ensures var h := HandleAdded(obj, old(store.State()), old(store.initialised), old(core.nextListener));
            && store.State() == h.state
            && core.calls == old(core.calls) + h.calls
            && core.nextListener == old(core.nextListener) + h.listeners
            && log.errors == old(log.errors) + (if h.result.Err? then [h.result.error] else [])
  {
    var r := OnGlobalObjectAdded(obj, store, core);
    if r.Err? {
      log.LogError(r.error);
    }
  }

  /** `on_global_object_removed`: the id leaves the primary maps; without a
      store the failure is logged. */
  method OnGlobalObjectRemoved(id: U32, store: Store, log: Logger)
    modifies store, log
    ensures store.initialised == old(store.initialised)
    ensures store.State() == if store.initialised then old(store.State()).Remove(id) else old(store.State())
    ensures log.errors == old(log.errors) + (if store.initialised then [] else [NoStore])
  {
    var r := store.Remove(id);
    if r.Err? {
      log.LogError(r.error);
    }
  }

  /** The arguments of the `dispatch` a request becomes: a mute request sends
      no volume, a volume request sends no mute state. */
  function DispatchArgs(request: Request): (args: (Option<real>, Option<bool>))
    ensures args.0.Some? != args.1.Some?
    ensures args.0.Some? ==> request == SetVolume(args.0.value)
    ensures args.1.Some? ==> request == SetMuted(args.1.value)
  {
    match request
    case SetMuted(muted) => (None, Some(muted))
    case SetVolume(volume) => (Some(volume), None)
  }

  /** The native calls dispatching `requests` in order makes while default
      device resolution gives `resolved`. */
  function DispatchCalls(resolved: Result<(Proxy, Route)>, requests: seq<Request>): seq<NativeCall>
    decreases |requests|
  {
    if requests == [] then []
    else
      DispatchCalls(resolved, requests[..|requests| - 1])
      + Command.DispatchedCalls(resolved, DispatchArgs(requests[|requests| - 1]).0,
                                DispatchArgs(requests[|requests| - 1]).1)
  }

  /** The errors dispatching `requests` in order logs. */
  function DispatchErrors(resolved: Result<(Proxy, Route)>, requests: seq<Request>): seq<Error>
    decreases |requests|
  {
    if requests == [] then []
    else DispatchErrors(resolved, requests[..|requests| - 1]) + Command.DispatchedErrors(resolved)
  }

  /** Dispatching one more request appends its effects. */
  lemma DispatchSnoc(resolved: Result<(Proxy, Route)>, handled: seq<Request>, request: Request)
    ensures DispatchCalls(resolved, handled + [request])
         == DispatchCalls(resolved, handled)
            + Command.DispatchedCalls(resolved, DispatchArgs(request).0, DispatchArgs(request).1)
    ensures DispatchErrors(resolved, handled + [request])
         == DispatchErrors(resolved, handled) + Command.DispatchedErrors(resolved)
  {
    var grown := handled + [request];
    assert grown[..|grown| - 1] == handled && grown[|grown| - 1] == request;
  }

  /** Bookkeeping of one more dispatched request after `handled`, whose
      effects were appended to `calls` and `errors`. */
  lemma DispatchGrows(resolved: Result<(Proxy, Route)>, handled: seq<Request>, request: Request,
                      calls0: seq<NativeCall>, errors0: seq<Error>, calls: seq<NativeCall>, errors: seq<Error>)
    requires calls == calls0 + DispatchCalls(resolved, handled)
                      + Command.DispatchedCalls(resolved, DispatchArgs(request).0, DispatchArgs(request).1)
    requires errors == errors0 + DispatchErrors(resolved, handled) + Command.DispatchedErrors(resolved)
    ensures calls == calls0 + DispatchCalls(resolved, handled + [request])
    ensures errors == errors0 + DispatchErrors(resolved, handled + [request])
  {
    DispatchSnoc(resolved, handled, request);
    var before, added := DispatchCalls(resolved, handled),
                         Command.DispatchedCalls(resolved, DispatchArgs(request).0, DispatchArgs(request).1);
    assert calls0 + before + added == calls0 + (before + added);
    var logged, error := DispatchErrors(resolved, handled), Command.DispatchedErrors(resolved);
    assert errors0 + logged + error == errors0 + (logged + error);
  }

  /** The timer callback: receive and dispatch requests until the channel is
      empty. The queue is drained, every request is dispatched once and in the
      order it was sent, and a channel whose senders are all gone makes the
      callback panic (modelled as the returned flag) once the queue is empty. */
  method OnTimerTick(rx: RequestReceiver, store: Store, core: Core, log: Logger) returns (panicked: bool)
    modifies rx, core, log
    ensures rx.queue == [] && rx.sendersAlive == old(rx.sendersAlive)
    ensures panicked <==> !rx.sendersAlive
    ensures core.nextListener == old(core.nextListener)
    ensures core.calls == old(core.calls) + DispatchCalls(store.WithDefaultDevice(), old(rx.queue))
    ensures log.errors == old(log.errors) + DispatchErrors(store.WithDefaultDevice(), old(rx.queue))
  {
    ghost var queue := rx.queue;
    ghost var resolved := store.WithDefaultDevice();
    ghost var n := 0;
    while true
      invariant n <= |queue| && rx.queue == queue[n..]
      invariant rx.sendersAlive == old(rx.sendersAlive)
      invariant store.WithDefaultDevice() == resolved
      invariant core.nextListener == old(core.nextListener)
      invariant core.calls == old(core.calls) + DispatchCalls(resolved, queue[..n])
      invariant log.errors == old(log.errors) + DispatchErrors(resolved, queue[..n])
      decreases |queue| - n
    {
      var received := rx.TryRecv();
      match received
      case Received(request) =>
        var (volume, muted) := DispatchArgs(request);
        Command.Dispatch(volume, muted, store, core, log);
        assert queue[..n + 1] == queue[..n] + [request];
        DispatchGrows(resolved, queue[..n], request, old(core.calls), old(log.errors), core.calls, log.errors);
        n := n + 1;
      case Empty =>
        assert queue[..n] == queue;
        return false;
      case Disconnected =>
        assert queue[..n] == queue;
        return true;
    }
  }

  /** Each request becomes exactly one `set_param` on the default device when
      it resolves, the k-th call carrying the k-th request, and none when it
      does not; in that case each request logs the resolution error. */
  lemma {:induction false} OneCallPerRequest(resolved: Result<(Proxy, Route)>, requests: seq<Request>)
    ensures resolved.Err? ==> DispatchCalls(resolved, requests) == []
    ensures resolved.Err? ==> DispatchErrors(resolved, requests) == seq(|requests|, _ => resolved.error)
    ensures resolved.Ok? ==> DispatchErrors(resolved, requests) == []
    ensures resolved.Ok? ==> |DispatchCalls(resolved, requests)| == |requests|
    ensures resolved.Ok? ==> forall k :: 0 <= k < |requests| ==>
              DispatchCalls(resolved, requests)[k]
              == Command.SetRouteCall(resolved.value.0, resolved.value.1,
                                      DispatchArgs(requests[k]).0, DispatchArgs(requests[k]).1)
    decreases |requests|
  {
    if requests != [] {
      var init := requests[..|requests| - 1];
      OneCallPerRequest(resolved, init);
      if resolved.Ok? {
        assert forall k :: 0 <= k < |init| ==> requests[k] == init[k];
      } else {
        assert seq(|requests|, _ => resolved.error) == seq(|init|, _ => resolved.error) + [resolved.error];
      }
    }
  }
}
