/** Sink nodes (src/pipewire/audio_sink.rs): registration when the node
    appears, and translation of its Props changes into outbound events. */
module AudioSink {
  import opened Base
  import opened Spa
  import opened Runtime
  import opened PwStore
  import opened SinkPropsCodec
  import Scale

  /** What `prop_changed` does with a list of properties: the events it sends,
      in order, and the error it stops at, if any. */
  datatype Emission = Emission(events: seq<Event>, failure: Option<Error>)

  function EmitFrom(ps: seq<Property>): (em: Emission)
    ensures |em.events| <= |ps|
    ensures em.failure.Some? ==> exists i :: 0 <= i < |ps| && Malformed(ps[i])
    ensures em.failure.None? ==> forall i :: 0 <= i < |ps| ==> !Malformed(ps[i])
    decreases |ps|
  {
    if ps == [] then Emission([], None)
    else match Interpret(ps[0])
      case Err(e) => Emission([], Some(e))
      case Ok(None) => EmitFrom(ps[1..])
      case Ok(Some(ev)) =>
        var rest := EmitFrom(ps[1..]);
        Emission([ev] + rest.events, rest.failure)
  }

  /** A parameter that is not an object stops before any event. */
  function Emitted(param: Value): (em: Emission)
    ensures !param.Object? ==> em == Emission([], Some(PodNotObject))
  {
    match param
    case Object(_, _, properties) => EmitFrom(properties)
    case _ => Emission([], Some(PodNotObject))
  }

  /** What sending `events` in order leaves in the channel: all of them when
      the receiver is alive, none otherwise. */
  function Delivered(alive: bool, events: seq<Event>): seq<Event> {
    if alive then events else []
  }

  /** The errors logged for sending `events`: one `EventChannelClosed` per
      event when the receiver is gone. */
  function SendFailures(alive: bool, events: seq<Event>): seq<Error>
    decreases |events|
  {
    if alive || events == [] then [] else SendFailures(alive, events[..|events| - 1]) + [EventChannelClosed]
  }

  /** Bookkeeping of one more send after `sent`, whose effects were appended
      to `delivered` and `logged`. */
  lemma SendGrows(alive: bool, sent: seq<Event>, event: Event,
                  delivered0: seq<Event>, logged0: seq<Error>, delivered: seq<Event>, logged: seq<Error>)
    requires delivered == delivered0 + Delivered(alive, sent) + Delivered(alive, [event])
    requires logged == logged0 + SendFailures(alive, sent) + SendFailures(alive, [event])
    ensures delivered == delivered0 + Delivered(alive, sent + [event])
    ensures logged == logged0 + SendFailures(alive, sent + [event])
  {
    assert (sent + [event])[..|sent|] == sent;
    assert [event][..0] == [];
    assert SendFailures(alive, sent + [event]) == SendFailures(alive, sent) + SendFailures(alive, [event]);
  }

  /** One loop iteration of `prop_changed`, in terms of the emission of the
      rest: a malformed property ends the emission, an unknown key is
      skipped, and a reading is emitted before the rest. */
  lemma EmitStopsAt(ps: seq<Property>, i: nat)
    requires i < |ps| && Interpret(ps[i]).Err?
    ensures EmitFrom(ps[i..]) == Emission([], Some(Interpret(ps[i]).error))
  {
    assert ps[i..][0] == ps[i];
  }

  lemma EmitSkips(ps: seq<Property>, i: nat)
    requires i < |ps| && Interpret(ps[i]) == Ok(None)
    ensures EmitFrom(ps[i..]) == EmitFrom(ps[i + 1..])
  {
    assert ps[i..][0] == ps[i] && ps[i..][1..] == ps[i + 1..];
  }

  lemma EmitsEvent(ps: seq<Property>, i: nat, sent: seq<Event>, event: Event)
    requires i < |ps| && Interpret(ps[i]) == Ok(Some(event))
    ensures sent + EmitFrom(ps[i..]).events == (sent + [event]) + EmitFrom(ps[i + 1..]).events
    ensures EmitFrom(ps[i..]).failure == EmitFrom(ps[i + 1..]).failure
  {
    assert ps[i..][0] == ps[i] && ps[i..][1..] == ps[i + 1..];
  }

  /** `send`: a failed send is logged and not propagated. */
  method Send(eventTx: EventSender, event: Event, log: Logger)
    modifies eventTx, log
    ensures eventTx.receiverAlive == old(eventTx.receiverAlive)
    ensures eventTx.delivered == old(eventTx.delivered) + Delivered(eventTx.receiverAlive, [event])
    ensures log.errors == old(log.errors) + SendFailures(eventTx.receiverAlive, [event])
  {
    var sent := eventTx.BlockingSend(event);
    if sent.Err? {
      log.LogError(sent.error);
    }
  }

  /** `prop_changed`: one event per recognised property, sent as soon as it is
      read; a malformed property stops the loop with its error, and the events
      sent before it stay sent. */
  method PropChanged(param: Value, eventTx: EventSender, log: Logger) returns (r: Result<()>)
    modifies eventTx, log
    ensures r == if Emitted(param).failure.Some? then Err(Emitted(param).failure.value) else Ok(())
    ensures eventTx.receiverAlive == old(eventTx.receiverAlive)
    ensures eventTx.delivered == old(eventTx.delivered) + Delivered(eventTx.receiverAlive, Emitted(param).events)
    ensures log.errors == old(log.errors) + SendFailures(eventTx.receiverAlive, Emitted(param).events)
  {
    if !param.Object? {
      return Err(PodNotObject);
    }
    var properties := param.properties;
    ghost var sent: seq<Event> := [];
    for i := 0 to |properties|
      invariant EmitFrom(properties).events == sent + EmitFrom(properties[i..]).events
      invariant EmitFrom(properties).failure == EmitFrom(properties[i..]).failure
      invariant eventTx.receiverAlive == old(eventTx.receiverAlive)
      invariant eventTx.delivered == old(eventTx.delivered) + Delivered(eventTx.receiverAlive, sent)
      invariant log.errors == old(log.errors) + SendFailures(eventTx.receiverAlive, sent)
    {
      var prop := properties[i];
      if prop.key == PROP_CHANNEL_VOLUMES {
        if prop.value.FloatArray? {
          var floats := prop.value.floats;
          if |floats| != 2 {
            EmitStopsAt(properties, i);
            assert Emitted(param).events == sent + [] == sent;
            return Err(ChannelVolumesNotTwo);
          }
          var volume := Scale.IngestVolume(floats[0], floats[1]);
          EmitsEvent(properties, i, sent, Volume(volume));
          Send(eventTx, Volume(volume), log);
          SendGrows(eventTx.receiverAlive, sent, Volume(volume), old(eventTx.delivered), old(log.errors),
                    eventTx.delivered, log.errors);
          sent := sent + [Volume(volume)];
        } else {
          EmitStopsAt(properties, i);
          assert Emitted(param).events == sent + [] == sent;
          return Err(ChannelVolumesNotFloatArray);
        }
      } else if prop.key == PROP_MUTE {
        if prop.value.Bool? {
          EmitsEvent(properties, i, sent, Mute(prop.value.b));
          Send(eventTx, Mute(prop.value.b), log);
          SendGrows(eventTx.receiverAlive, sent, Mute(prop.value.b), old(eventTx.delivered), old(log.errors),
                    eventTx.delivered, log.errors);
          sent := sent + [Mute(prop.value.b)];
        } else {
          EmitStopsAt(properties, i);
          assert Emitted(param).events == sent + [] == sent;
          return Err(MuteNotBool);
        }
      } else {
        EmitSkips(properties, i);
      }
    }
    assert properties[|properties|..] == [];
    assert Emitted(param).events == sent + [] == sent;
    return Ok(());
  }

  /** The param listener registered in `added`: a failed decode is logged. */
  method OnParam(param: Option<Value>, eventTx: EventSender, log: Logger)
    modifies eventTx, log
    ensures eventTx.receiverAlive == old(eventTx.receiverAlive)
    ensures param.None? ==> eventTx.delivered == old(eventTx.delivered) && log.errors == old(log.errors)
    ensures param.Some? ==>
      var em := Emitted(param.value);
      && eventTx.delivered == old(eventTx.delivered) + Delivered(eventTx.receiverAlive, em.events)
      && log.errors == old(log.errors) + SendFailures(eventTx.receiverAlive, em.events)
           + (if em.failure.Some? then [em.failure.value] else [])
  {
    if param.Some? {
      var r := PropChanged(param.value, eventTx, log);
      if r.Err? {
        log.LogError(r.error);
      }
    }
  }

  /** `added`: reads `node.name` and `device.id` from the object's properties,
      subscribes to Props, and registers the sink and then one listener under
      the same id. A missing name or a missing or non-numeric device id fails
      before anything is subscribed or registered. */
  method Added(id: U32, props: map<string, string>, node: Proxy, store: Store, core: Core)
    returns (r: Result<()>)
    modifies store, core
    ensures store.initialised == old(store.initialised)
    ensures "node.name" !in props ==> r == Err(NoSinkName)
    ensures "node.name" in props && "device.id" !in props ==> r == Err(NoDeviceId)
    ensures "node.name" in props && "device.id" in props && ParseU32(props["device.id"]).None?
            ==> r == Err(DeviceIdNotNumber)
    ensures "node.name" !in props || "device.id" !in props || ParseU32(props["device.id"]).None?
            ==> store.State() == old(store.State()) && core.calls == old(core.calls)
                && core.nextListener == old(core.nextListener)
    ensures "node.name" in props && "device.id" in props && ParseU32(props["device.id"]).Some? ==>
      var listener := ListenerHandle(old(core.nextListener));
      && core.calls == old(core.calls) + [Subscribed(node, [PARAM_PROPS]), ListenerAdded(node)]
      && core.nextListener == old(core.nextListener) + 1
      && r == (if store.initialised then Ok(()) else Err(NoStore))
      && store.State() == if store.initialised
           then old(store.State()).RegisterSink(id, props["node.name"], ParseU32(props["device.id"]).value, node)
                                  .RegisterListener(id, listener)
           else old(store.State())
  {
    if "node.name" !in props {
      return Err(NoSinkName);
    }
    var sinkName := props["node.name"];
    if "device.id" !in props {
      return Err(NoDeviceId);
    }
    var deviceId := ParseU32(props["device.id"]);
    if deviceId.None? {
      return Err(DeviceIdNotNumber);
    }
    core.SubscribeParams(node, [PARAM_PROPS]);
    var listener := core.AddListener(node);
    r := store.RegisterSink(id, sinkName, deviceId.value, node);
    if r.Err? {
      return;
    }
    r := store.RegisterListener(id, listener);
  }

  /** Applying a sequence of readings in order. */
  function ApplyAll(acc: SinkProps, events: seq<Event>): SinkProps
    decreases |events|
  {
    if events == [] then acc else ApplyAll(Apply(acc, events[0]), events[1..])
  }

  /** The two decoders agree: `try_from` fails exactly where `prop_changed`
      stops, with the same error, and otherwise its fields are what applying
      the emitted events in order gives. */
  lemma {:induction false} EmitAgreesWithDecode(ps: seq<Property>, acc: SinkProps)
    ensures DecodeFrom(ps, acc) == if EmitFrom(ps).failure.Some? then Err(EmitFrom(ps).failure.value)
                                   else Ok(ApplyAll(acc, EmitFrom(ps).events))
    decreases |ps|
  {
    if ps != [] {
      match Interpret(ps[0])
      case Err(e) =>
      case Ok(None) => EmitAgreesWithDecode(ps[1..], acc);
      case Ok(Some(ev)) =>
        EmitAgreesWithDecode(ps[1..], Apply(acc, ev));
        var evs := [ev] + EmitFrom(ps[1..]).events;
        assert evs[0] == ev && evs[1..] == EmitFrom(ps[1..]).events;
    }
  }

  /** Events follow property order: a prefix that does not fail contributes
      its events first, and a prefix that fails hides everything after it. */
  lemma {:induction false} EmitAppend(a: seq<Property>, b: seq<Property>)
    ensures EmitFrom(a).failure.None? ==>
              EmitFrom(a + b) == Emission(EmitFrom(a).events + EmitFrom(b).events, EmitFrom(b).failure)
    ensures EmitFrom(a).failure.Some? ==> EmitFrom(a + b) == EmitFrom(a)
    decreases |a|
  {
    if a == [] {
      assert a + b == b;
    } else {
      assert (a + b)[0] == a[0] && (a + b)[1..] == a[1..] + b;
      EmitAppend(a[1..], b);
      match Interpret(a[0])
      case Err(e) =>
      case Ok(None) =>
      case Ok(Some(ev)) =>
        assert [ev] + EmitFrom(a[1..]).events + EmitFrom(b).events
            == [ev] + (EmitFrom(a[1..]).events + EmitFrom(b).events);
    }
  }

  /** The properties with a key `prop_changed` reacts to, in order. */
  function Recognised(ps: seq<Property>): seq<Property>
    decreases |ps|
  {
    if ps == [] then []
    else if ps[0].key == PROP_CHANNEL_VOLUMES || ps[0].key == PROP_MUTE then [ps[0]] + Recognised(ps[1..])
    else Recognised(ps[1..])
  }

  /** Without a malformed property, exactly one event is sent per recognised
      property, the k-th event being the reading of the k-th recognised one. */
  lemma {:induction false} OneEventPerRecognisedProperty(ps: seq<Property>)
    requires EmitFrom(ps).failure.None?
    ensures |EmitFrom(ps).events| == |Recognised(ps)|
    ensures forall k :: 0 <= k < |Recognised(ps)| ==>
              Interpret(Recognised(ps)[k]) == Ok(Some(EmitFrom(ps).events[k]))
    decreases |ps|
  {
    if ps != [] {
      OneEventPerRecognisedProperty(ps[1..]);
      var rest := Recognised(ps[1..]);
      if ps[0].key == PROP_CHANNEL_VOLUMES || ps[0].key == PROP_MUTE {
        assert forall k :: 1 <= k < |rest| + 1 ==> Recognised(ps)[k] == rest[k - 1];
      }
    }
  }
}
