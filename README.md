# PipeWire side of the volume bridge, in Dafny

This project models the PipeWire half of a bridge between PipeWire's default
audio sink and a D-Bus volume/mute interface. The PipeWire half runs on
PipeWire's own single-threaded loop. It does five things:

- It keeps a **store** of the global objects it has bound: sink nodes, audio
  devices and the "default" metadata object. It also keeps their listeners,
  the sink-name → sink-id → device-id indices, each device's active route, and
  the default sink's name. The default sink resolves to a (device, route) pair
  through a five-link chain.
- It **decodes** parameter changes:
  - a sink's Props (channel volumes, mute) become volume and mute events sent
    outward;
  - a device's Route parameter (route index, route device) becomes that
    device's route.
- It **encodes** volume and mute requests into a Route parameter that is set on
  the default device.
- It follows the `default.audio.sink` metadata property to learn the default
  sink's name.
- It **routes** registry announcements to the right handler, drops removed
  objects, and on each timer tick drains the request channel.

## Modules

| file | module | what it holds |
|---|---|---|
| base.dfy | `Base` | `u32`/`i32`, `Option`/`Result`, the error values, proxy and listener tokens, `str::parse::<u32>` |
| spa.dfy | `Spa` | the deserialized POD value tree, and the SPA ids and keys the bridge uses |
| scale.dfy | `Scale` | the cubic ↔ linear volume transforms, on exact reals |
| runtime.dfy | `Runtime` | the collaborators as recorders: the event sender, the request receiver, the PipeWire core (a log of native calls) and the error log |
| store.dfy | `PwStore` | the `Store` class, and the `StoreState` value its methods are specified by |
| sink_props.dfy | `SinkPropsCodec` | `SinkProps::try_from` |
| audio_sink.dfy | `AudioSink` | sink registration and `prop_changed` |
| audio_device.dfy | `AudioDevice` | device registration and `route_changed` |
| command.dfy | `Command` | `dispatch` / `try_dispatch` |
| metadata_node.dfy | `MetadataNode` | metadata registration and `prop_changed` |
| pipewire.dfy | `PipeWire` | global-object routing, removal, and the timer drain loop |

### How the model is built

- **The store.** The thread-local `Option<Store>` becomes the class `Store`,
  with an `initialised` flag standing for `Some`. Each method updates the
  class's map fields in place. Its contract ties the new `State()` to a pure
  transition of `StoreState`. Before initialisation, every method returns
  `NoStore` and changes nothing. The properties of the store are lemmas over
  `StoreState`.
- **The decoders.** Each decoder is a loop over the property list, proved
  equal to a recursive function over that list. The two sink decoders share one
  per-property interpretation, `SinkPropsCodec.Interpret`. The lemma
  `AudioSink.EmitAgreesWithDecode` proves that the two agree.
- **Native side effects.** `subscribe_params`, listener registration,
  `set_param`, channel sends and `log::error!` are recorded in the
  collaborator objects, in order. Contracts state exactly what each operation
  appended to those records.

## Model

| member | source | states |
|---|---|---|
| Base.ParseU32 | src/pipewire/audio_sink.rs:24-28 | a parsed `device.id` came from a non-empty string that is more than a lone `+` |
| Base.ParseDecimalRoundTrip | src/pipewire/audio_sink.rs:24-28 | every 32-bit id written in decimal parses back to itself |
| Scale.IntCubeRoot | src/pipewire/sink_props.rs:35-37 | the result is the floor of the real cube root: its cube is at most the input, and the next cube exceeds it |
| Scale.ToLinearPercent | src/pipewire/sink_props.rs:35-37 | a cubic volume of zero or below gives 0 percent; a cubic volume of at most 1 gives at most 100 percent |
| Scale.IngestSymmetric | src/pipewire/sink_props.rs:33-37 | the ingested percentage depends only on the channel mean, so swapping the channels changes nothing |
| Scale.IngestVolume | src/pipewire/sink_props.rs:33-37 | channel volumes that sum to zero or less give 0 percent; channel volumes of at most 1 give at most 100 percent |
| Scale.ToCubic | src/pipewire/command.rs:23-24 | a linear volume in [0, 1] becomes a cubic volume in [0, 1] that is no larger |
| Scale.IngestExtremes | src/pipewire/sink_props.rs:33-37 | full volume on both channels is 100 percent; silence is 0 |
| Runtime.EventSender.BlockingSend | src/pipewire/audio_sink.rs:86-90 | a send delivers exactly when the receiver is alive, and otherwise fails with `EventChannelClosed` |
| Runtime.RequestReceiver.TryRecv | src/pipewire/mod.rs:46-50 | the oldest queued request is removed and returned; an empty queue reports `Empty` while senders live and `Disconnected` once they are all gone |
| Runtime.Core.SubscribeParams | src/pipewire/audio_sink.rs:30 | records one parameter subscription on the proxy |
| Runtime.Core.AddListener | src/pipewire/audio_sink.rs:31-42 | returns a fresh listener handle and records its registration |
| Runtime.Core.SetParam | src/pipewire/command.rs:72 | records one `set_param` with the given id, flags and value |
| Runtime.Logger.LogError | src/pipewire/audio_sink.rs:88 | appends the error to the log |
| PwStore.StoreState.DefaultDevice | src/pipewire/store.rs:103-127 | resolution fails at the first missing link, in order: name unset, name → sink id, sink id → device id, device handle, route; when all five links exist it yields exactly that device and route |
| PwStore.Store.constructor | src/pipewire/store.rs:20-22 | a thread starts with no store |
| PwStore.Store.InitForCurrentThread | src/pipewire/store.rs:33-51 | after init every map is empty and there is no default sink name |
| PwStore.Store.RegisterMeta | src/pipewire/store.rs:53-58 | inserts the metadata object under its id; without a store, fails with `NoStore` and changes nothing |
| PwStore.Store.RegisterDevice | src/pipewire/store.rs:60-65 | inserts the device under its id; without a store, fails and changes nothing |
| PwStore.Store.RegisterListener | src/pipewire/store.rs:67-72 | appends the listener to the list under its id; without a store, fails and changes nothing |
| PwStore.Store.RegisterSink | src/pipewire/store.rs:74-87 | maps id → node, name → id and id → device id; without a store, fails and changes nothing |
| PwStore.Store.RegisterDefaultSinkName | src/pipewire/store.rs:89-94 | overwrites the default sink name; without a store, fails and changes nothing |
| PwStore.Store.RegisterRoute | src/pipewire/store.rs:96-101 | overwrites the device's route; without a store, fails and changes nothing |
| PwStore.Store.Remove | src/pipewire/store.rs:129-137 | drops the id from the four primary maps only; without a store, fails and changes nothing |
| PwStore.Store.WithDefaultDevice | src/pipewire/store.rs:24-30 | without a store, resolution fails with `NoStore`; otherwise it is the store's default-device resolution |
| PwStore.RegisterSinkOverwrites | src/pipewire/store.rs:81-84 | a repeated name or id overwrites the earlier entry; other names, devices, routes and the default name are untouched |
| PwStore.ListenersAccumulate | src/pipewire/store.rs:69 | listeners under an id accumulate in registration order; other ids keep theirs |
| PwStore.RouteLastWriterWins | src/pipewire/store.rs:98 | a second route registration for a device replaces the first |
| PwStore.RemoveProperties | src/pipewire/store.rs:131-135 | removal is idempotent, leaves the derived indices and the default name untouched, and is a no-op for an unknown id |
| PwStore.RemoveOnlyBreaksDeviceLink | src/pipewire/store.rs:115-135 | removing any id either leaves resolution as it was or makes it fail at the device-handle link |
| PwStore.ResolutionScenario | src/pipewire/store.rs:115-131 | sink 1 "A" on device 10 with route (0, 0) resolves to that device and route; after removing 10 it fails at the device-handle link |
| SinkPropsCodec.Interpret | src/pipewire/sink_props.rs:26-48 | a key other than channel volumes or mute means nothing; a channel-volume property is accepted exactly when it is a two-element float array and then gives a volume; a mute property is accepted exactly when it is a Bool and then gives that mute state |
| SinkPropsCodec.Decode | src/pipewire/sink_props.rs:19-21 | a top-level value that is not an Object is an error |
| SinkPropsCodec.TryFrom | src/pipewire/sink_props.rs:15-52 | the loop computes exactly `DecodeFrom` from unset fields: the per-property step applied in order, stopping at the first error |
| SinkPropsCodec.DecodeFromAppend | src/pipewire/sink_props.rs:26-49 | decoding a concatenation continues from where the first part stopped, or stops with its error |
| SinkPropsCodec.DecodeOkIff | src/pipewire/sink_props.rs:26-49 | decoding succeeds exactly when no property is malformed, where malformed means a non-float-array or non-two-element channel volume, or a non-Bool mute |
| SinkPropsCodec.DecodeFirstError | src/pipewire/sink_props.rs:28-47 | the error reported is that of the first malformed property |
| SinkPropsCodec.LastVolumeWins | src/pipewire/sink_props.rs:27-38 | after a successful decode, the volume is that of the last channel-volume property |
| SinkPropsCodec.LastMuteWins | src/pipewire/sink_props.rs:42-44 | after a successful decode, the mute state is that of the last mute property |
| SinkPropsCodec.NoKeyKeepsFields | src/pipewire/sink_props.rs:23-49 | a field whose key never occurs keeps its starting value |
| SinkPropsCodec.AbsentKeyIsNone | src/pipewire/sink_props.rs:23-24 | in a successful decode, an absent key gives `None` for its field |
| SinkPropsCodec.UnknownKeyIgnored | src/pipewire/sink_props.rs:26-48 | inserting a property with another key anywhere does not change the outcome |
| SinkPropsCodec.ChannelSwapInvariant | src/pipewire/sink_props.rs:33-37 | swapping the two channel values of any channel-volume property does not change the outcome |
| AudioSink.EmitFrom | src/pipewire/audio_sink.rs:58-81 | at most one event per property; a failure means some property is malformed, and no failure means none is |
| AudioSink.Emitted | src/pipewire/audio_sink.rs:54-56 | a top-level value that is not an Object emits nothing and fails |
| AudioSink.Send | src/pipewire/audio_sink.rs:86-90 | a failed send is logged and not propagated |
| AudioSink.PropChanged | src/pipewire/audio_sink.rs:50-84 | the events sent are exactly the emitted sequence, in property order; a malformed property stops the loop with its error, and the earlier events stay sent; each failed send logs one error |
| AudioSink.OnParam | src/pipewire/audio_sink.rs:33-41 | the receiver's liveness is untouched; an absent param is ignored; a decode failure is logged after the events already sent |
| AudioSink.Added | src/pipewire/audio_sink.rs:17-48 | a missing `node.name`, or a missing or non-numeric `device.id`, fails before anything is subscribed or registered and takes no listener token; otherwise it takes one token, subscribes to Props, then registers the sink with the parsed device id, then one listener under the same id |
| AudioSink.EmitAgreesWithDecode | src/pipewire/audio_sink.rs:58-81 | `prop_changed` and `SinkProps::try_from` agree: same failure, and the decoded fields are the events applied in order |
| AudioSink.EmitAppend | src/pipewire/audio_sink.rs:58-81 | events follow property order across a concatenation; a failing prefix hides everything after it |
| AudioSink.OneEventPerRecognisedProperty | src/pipewire/audio_sink.rs:58-81 | without a malformed property, exactly one event is sent per channel-volume or mute property, the k-th event reading the k-th such property; unknown keys emit nothing |
| AudioDevice.RouteStep | src/pipewire/audio_device.rs:47-62 | one property fails exactly when it is a route index or route device that is not an Int |
| AudioDevice.DecodeRoute | src/pipewire/audio_device.rs:41-43 | a top-level value that is not an Object is an error |
| AudioDevice.RouteChanged | src/pipewire/audio_device.rs:37-71 | a decode failure leaves the store unchanged; otherwise the device's route becomes exactly the decoded (index, device) |
| AudioDevice.OnParam | src/pipewire/audio_device.rs:19-27 | an absent param is ignored; a decode failure is logged and the store is unchanged; a decoded route is registered for the device, or `NoStore` is logged |
| AudioDevice.Added | src/pipewire/audio_device.rs:15-35 | subscribes to Route, takes one listener token, then registers the device and then that listener under the same id |
| AudioDevice.RouteFieldsOkIff | src/pipewire/audio_device.rs:47-62 | the walk succeeds exactly when no route index or route device has a non-Int value |
| AudioDevice.RouteFirstError | src/pipewire/audio_device.rs:49-59 | the error is that of the first malformed property: `RouteIndexNotInt` or `RouteDeviceNotInt` |
| AudioDevice.RouteFieldsLastWins | src/pipewire/audio_device.rs:53-60 | each field holds the value of the last property with its key, or its starting value when the key is absent |
| AudioDevice.RouteDecoded | src/pipewire/audio_device.rs:45-65 | a well-formed Route object decodes to its last index and last device |
| AudioDevice.RouteMissingField | src/pipewire/audio_device.rs:64-65 | without an index the result is `NoRouteIndex`; with an index but without a device it is `NoRouteDevice` |
| Command.RouteProps | src/pipewire/command.rs:20-38 | channel volumes are present iff a volume is given and mute iff a mute state is given, volume first; the channel-volume array holds the cubic volume twice |
| Command.BuildProps | src/pipewire/command.rs:20-38 | the two conditional pushes build exactly that list |
| Command.RouteParam | src/pipewire/command.rs:42-66 | a Route object with exactly three properties: the route index, then the route device, then the props sub-object of type Props with id Route |
| Command.SetRouteCall | src/pipewire/command.rs:72 | the call sets a Route parameter with no flags on the resolved device; its value decodes back to the route, and its props decode to the requested mute state and the ingested reading of the cubic volume |
| Command.TryDispatch | src/pipewire/command.rs:18-76 | when resolution fails, nothing is sent and its error is returned; otherwise exactly one Route parameter is set on the resolved device with the resolved route, including when neither value is given |
| Command.DispatchedCalls | src/pipewire/command.rs:12-19 | one dispatch makes one `set_param` when resolution succeeds and none when it fails; that call targets the resolved device with a Route value that decodes to the resolved route |
| Command.DispatchedErrors | src/pipewire/command.rs:12-16 | one dispatch logs exactly one error, the resolution error, when resolution fails, and none otherwise |
| Command.Dispatch | src/pipewire/command.rs:12-16 | a failed dispatch is logged and not propagated |
| Command.RouteParamRoundTrip | src/pipewire/command.rs:45-58 | the Route object sent decodes, as a route change, to the route it was built from |
| Command.PropsRoundTrip | src/pipewire/command.rs:20-38 | the props sent decode, as a sink's Props, to the requested mute state and to the ingested reading of the cubic volume; fields not requested stay unset |
| MetadataNode.AnnouncedSinkName | src/pipewire/metadata_node.rs:28-33 | a name is announced exactly when the key is `default.audio.sink` and its value parses, and it is the parsed name |
| MetadataNode.PropChanged | src/pipewire/metadata_node.rs:27-40 | a parsed name becomes exactly the default sink name; another key or an unparsable value changes nothing and logs nothing; a failed write is logged; the result is always 0 |
| MetadataNode.OnProperty | src/pipewire/metadata_node.rs:11-17 | a missing key or value changes nothing and returns 0 |
| MetadataNode.Added | src/pipewire/metadata_node.rs:8-25 | adds the property listener, taking one token, then registers the metadata object and then the listener under the same id |
| MetadataNode.LastAnnouncementWins | src/pipewire/metadata_node.rs:33-34 | a later announced name replaces an earlier one |
| PipeWire.Bind | src/pipewire/mod.rs:91-101 | binding succeeds exactly when the object has the requested interface type |
| PipeWire.DeviceAndSinkExclusive | src/pipewire/mod.rs:95-103 | no object is both a device and a sink; it is one of them iff its `media.class` is `Audio/Device` or `Audio/Sink` |
| PipeWire.HandleAdded | src/pipewire/mod.rs:85-105 | an object without properties succeeds with no call, no listener token and the store unchanged; without a store, no store entry changes |
| PipeWire.HandleIgnored | src/pipewire/mod.rs:85-105 | an object without properties, or with none of the three roles, makes no call, changes no store entry and succeeds |
| PipeWire.HandleMetadataWrongType | src/pipewire/mod.rs:90-91 | the default metadata object that is not of the Metadata type fails with `WrongProxyType(Metadata)` before any call or registration |
| PipeWire.HandleMetadata | src/pipewire/mod.rs:90-103 | the default metadata object is registered with one listener token; the three checks are independent, so one that also claims a device or sink class then fails binding that second proxy |
| PipeWire.HandleDevice | src/pipewire/mod.rs:95-98 | a device fails with `WrongProxyType(Device)` unless it is a Device object; otherwise it is subscribed to Route and registered with its listener under its id |
| PipeWire.HandleSink | src/pipewire/mod.rs:100-103 | a sink fails binding unless it is a Node object, then fails with `NoSinkName`, `NoDeviceId` or `DeviceIdNotNumber` before any call; otherwise the sink and its listener are registered with the parsed device id |
| PipeWire.AtMostOneRoleRuns | src/pipewire/mod.rs:90-105 | at most one role's `added` runs per object, so at most one listener token is taken, and none means no native call |
| PipeWire.NoStoreRegistersNothing | src/pipewire/mod.rs:90-105 | without a store nothing is registered, and an object whose `added` ran fails with `NoStore` |
| PipeWire.MetadataStage | src/pipewire/mod.rs:90-93 | after a successful handling so far, the result, store, native calls and listener tokens are those of running the metadata role on it |
| PipeWire.DeviceStage | src/pipewire/mod.rs:95-98 | after a successful handling so far, the result, store, native calls and listener tokens are those of running the device role on it |
| PipeWire.SinkStage | src/pipewire/mod.rs:100-103 | after a successful handling so far, the result, store, native calls and listener tokens are those of running the sink role on it |
| PipeWire.OnGlobalObjectAdded | src/pipewire/mod.rs:80-106 | the result, the new store, the native calls and the listener tokens taken are exactly those `HandleAdded` gives for the old store |
| PipeWire.OnGlobal | src/pipewire/mod.rs:68-78 | has the effects of `OnGlobalObjectAdded` and logs its error exactly once when it fails, nothing when it succeeds |
| PipeWire.OnGlobalObjectRemoved | src/pipewire/mod.rs:108-112 | removes the id from the store; without a store, the failure is logged |
| PipeWire.DispatchArgs | src/pipewire/mod.rs:47-48 | each request changes exactly one field: a volume only for `SetVolume`, carrying its value, and a mute state only for `SetMuted`, carrying its value |
| PipeWire.OnTimerTick | src/pipewire/mod.rs:43-53 | the queue is drained; the calls and logged errors are those of dispatching the queued requests in order; the tick panics iff the senders are gone |
| PipeWire.OneCallPerRequest | src/pipewire/mod.rs:45-52 | with a resolvable default device, each request gives exactly one `set_param`, the k-th carrying the k-th request; otherwise none are sent and each request logs the resolution error |

## Left out

- Floating point: `f32` arithmetic is modelled by exact reals. The cube root is
  `powf(1.0 / 3.0)`. It is modelled as the floor of the exact cube root of
  `10^6 ×` the mean; `as u32` as flooring and saturating; `powf(3.0)` as `v·v·v`.
  NaN and infinities are not modelled (a negative mean gives 0, as NaN does under `as u32`).
  No rounding or round-trip property of the `f32` conversions is claimed.
- POD byte serialisation (`PodSerializer`, `PodDeserializer`, `Pod::from_bytes`):
  the model works on the decoded value tree.
  - A deserialisation failure in the decoders is not modelled.
  - A serialisation failure in `try_dispatch` is not modelled.
  - Property flags are not modelled; they are always empty in the code.
- JSON: `serde_json::from_str` of the metadata payload is the parameter
  `parseName` of `MetadataNode.PropChanged`.
- The `anyhow` context strings: each error is its root cause.
- Native handles, listener closures and channels:
  - Native handles are opaque tokens.
  - The closures registered as listeners are the separate `OnParam` and
    `OnProperty` methods. `OnParam` receives the event sender and the store
    explicitly.
  - The channel's capacity and blocking are not modelled.
- `AudioSink.PropChanged` and `PipeWire.OnTimerTick` hold the far end of each
  channel fixed for one callback:
  - in `AudioSink.PropChanged` the event receiver is alive or gone for the
    whole property loop, so delivery is all or nothing. A receiver dropped
    between two sends (a prefix delivered, then one `EventChannelClosed` per
    later send) is not modelled;
  - in `PipeWire.OnTimerTick` the queue and the senders' liveness are those
    at the start of the tick. A request queued during the drain (handled in
    the same tick by the source) and a disconnect during the drain (a panic
    after a partial drain) are not modelled.
- Threads and runtime setup are not modelled:
  - `start` and `start_pw_mainloop` (src/pipewire/mod.rs:24-41,55-66);
  - the main loop and the timer setup;
  - the `thread_local` and `RefCell`;
  - registering the global listener (`start_pw_listener` appears only as `PipeWire.OnGlobal`).
- src/dbus.rs, src/warmup.rs, src/main.rs and src/event.rs are not part of this
  model. `Event` is the two-variant type that audio_sink.rs uses, and
  `Request` has the two variants mod.rs matches on.
- `remove` does not purge the derived indices (name → sink, sink → device,
  device → route), does not drop native handles beyond the primary maps, and
  nothing suppresses duplicate events. The design intent is that removal
  purges every derived entry; the code does not do this, and the model
  follows the code.
