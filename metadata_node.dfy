/** The "default" metadata object (src/pipewire/metadata_node.rs): registration
    when it appears, and tracking of the default sink's name from its
    `default.audio.sink` property. The JSON decoding of the property value
    (`serde_json::from_str` into a struct with one `name` string field) is a
    parameter of the model. */
module MetadataNode {
  import opened Base
  import opened Runtime
  import opened PwStore

  const DEFAULT_SINK_KEY: string := "default.audio.sink"

  /** The default sink name a metadata property announces: only the
      `default.audio.sink` key counts, and only when its value parses. */
  function AnnouncedSinkName(key: string, value: string, parseName: string -> Option<string>): (name: Option<string>)
    ensures name.Some? <==> key == DEFAULT_SINK_KEY && parseName(value).Some?
    ensures name.Some? ==> parseName(value) == name
  {
    if key == DEFAULT_SINK_KEY then parseName(value) else None
  }

  /** `prop_changed`: a parsed default sink name is registered as given; a
      property with another key or an unparsable value changes nothing; a
      failed registration is logged. The listener always returns 0. */
  method PropChanged(key: string, value: string, parseName: string -> Option<string>, store: Store, log: Logger)
    returns (ret: I32)
    modifies store, log
    ensures ret == 0
    ensures store.initialised == old(store.initialised)
    ensures AnnouncedSinkName(key, value, parseName).None? ==>
              store.State() == old(store.State()) && log.errors == old(log.errors)
    ensures AnnouncedSinkName(key, value, parseName).Some? ==>
              var name := AnnouncedSinkName(key, value, parseName).value;
              && store.State() == (if store.initialised then old(store.State()).RegisterDefaultSinkName(name)
                                   else old(store.State()))
              && log.errors == old(log.errors) + (if store.initialised then [] else [NoStore])
  {
    if key == DEFAULT_SINK_KEY {
      var parsed := parseName(value);
      if parsed.Some? {
        var r := store.RegisterDefaultSinkName(parsed.value);
        if r.Err? {
          log.LogError(r.error);
        }
      }
    }
    ret := 0;
  }

  /** The property listener registered in `added`: a property without a key or
      without a value (a deletion) is ignored. */
  method OnProperty(key: Option<string>, value: Option<string>, parseName: string -> Option<string>,
                    store: Store, log: Logger)
    returns (ret: I32)
    modifies store, log
    ensures ret == 0
    ensures store.initialised == old(store.initialised)
    ensures key.None? || value.None? ==> store.State() == old(store.State()) && log.errors == old(log.errors)
    ensures key.Some? && value.Some? && AnnouncedSinkName(key.value, value.value, parseName).Some? ==>
              var name := AnnouncedSinkName(key.value, value.value, parseName).value;
              && store.State() == (if store.initialised then old(store.State()).RegisterDefaultSinkName(name)
                                   else old(store.State()))
              && log.errors == old(log.errors) + (if store.initialised then [] else [NoStore])
    ensures key.Some? && value.Some? && AnnouncedSinkName(key.value, value.value, parseName).None? ==>
              store.State() == old(store.State()) && log.errors == old(log.errors)
  {
    if key.Some? && value.Some? {
      ret := PropChanged(key.value, value.value, parseName, store, log);
    } else {
      ret := 0;
    }
  }

  /** `added`: adds the property listener, then registers the metadata object
      and the listener under the same id. */
  method Added(metadataId: U32, metadata: Proxy, store: Store, core: Core) returns (r: Result<()>)
    modifies store, core
    ensures store.initialised == old(store.initialised)
    ensures core.calls == old(core.calls) + [ListenerAdded(metadata)]
    ensures core.nextListener == old(core.nextListener) + 1
    ensures r == if store.initialised then Ok(()) else Err(NoStore)
    ensures store.State() == if store.initialised
              then old(store.State()).RegisterMeta(metadataId, metadata)
                                     .RegisterListener(metadataId, ListenerHandle(old(core.nextListener)))
              else old(store.State())
  {
    var listener := core.AddListener(metadata);
    r := store.RegisterMeta(metadataId, metadata);
    if r.Err? {
      return;
    }
    r := store.RegisterListener(metadataId, listener);
  }

  /** Announcements replace each other: after two, the default sink name is
      the second one, whatever the first was. */
  lemma LastAnnouncementWins(s: StoreState, first: string, second: string)
    ensures s.RegisterDefaultSinkName(first).RegisterDefaultSinkName(second)
         == s.RegisterDefaultSinkName(second)
    ensures s.RegisterDefaultSinkName(second).defaultSinkName == Some(second)
  {
  }
}
