/**
 * The integration's discovery callback, which starts one configuration flow
 * per newly seen device, and the unload of an entry, which retracts the
 * device's retained discovery message.
 */
module Discovery {
  import opened Wrappers
  import opened Payload
  import opened Topics
  import opened Mqtt
  import opened Entries
  import opened MediaPlayer

  /** Why the callback dropped a message. */
  datatype IgnoreReason = NotConfigTopic | BlankPayload | Unparsable

  /** What the discovery callback does with one message. */
  datatype DiscoveryOutcome =
    | Ignored(reason: IgnoreReason)
    | AlreadyConfigured(id: string)
      /** One flow is started with `data`. */
    | FlowStarted(data: map<string, string>)

  /** Whether some entry is titled `id`. */
  predicate Configured(entries: seq<ConfigEntry>, id: string) {
    exists i :: 0 <= i < |entries| && entries[i].title == id
  }

  /** The data a discovery flow is started with. */
  function FlowData(id: string, topic: string): (data: map<string, string>)
    ensures data.Keys == {"name", "discovery_topic"}
    ensures data["name"] == id && data["discovery_topic"] == topic
  {
    map["name" := id, "discovery_topic" := topic]
  }

  /**
   * The callback on a message: drop it unless the topic ends in "/config",
   * the payload is not blank and json.loads accepts it; otherwise take the
   * identity from the topic, and start a flow unless an entry already has
   * that title. The decoded value itself plays no part.
   */
  function Decide(topic: string, payload: string, entries: seq<ConfigEntry>, codec: Codec): (r: DiscoveryOutcome)
    ensures r.Ignored? <==> !IsConfigTopic(topic) || IsBlank(payload) || codec.loads(payload).None?
    ensures r == Ignored(NotConfigTopic) <==> !IsConfigTopic(topic)
    ensures r == Ignored(BlankPayload) <==> IsConfigTopic(topic) && IsBlank(payload)
    ensures !r.Ignored? ==> DeviceId(topic).Some?
    ensures !r.Ignored? ==> (r.AlreadyConfigured? <==> Configured(entries, DeviceId(topic).value))
    ensures r.AlreadyConfigured? ==> r.id == DeviceId(topic).value
    ensures r.FlowStarted? ==> r.data == FlowData(DeviceId(topic).value, topic)
  {
    if !IsConfigTopic(topic) then Ignored(NotConfigTopic)
    else if IsBlank(payload) then Ignored(BlankPayload)
    else if codec.loads(payload).None? then Ignored(Unparsable)
    else
      ConfigTopicIdentity(topic);
      var id := DeviceId(topic).value;
      if Configured(entries, id) then AlreadyConfigured(id) else FlowStarted(FlowData(id, topic))
  }

  /**
   * A dropped message is dropped whatever the registry holds: the entries
   * are not consulted before the topic, the payload and the decoding pass.
   */
  lemma IgnoredWithoutLookup(topic: string, payload: string, entries: seq<ConfigEntry>, others: seq<ConfigEntry>, codec: Codec)
    requires Decide(topic, payload, entries, codec).Ignored?
    ensures Decide(topic, payload, others, codec) == Decide(topic, payload, entries, codec)
  {
  }

  /**
   * Once the flow a message started has produced its entry, the same device
   * is never discovered again: no message on any topic with that identity
   * starts another flow.
   */
  lemma NoSecondFlow(topic: string, payload: string, entries: seq<ConfigEntry>, codec: Codec,
                     topic': string, payload': string)
    requires Decide(topic, payload, entries, codec).FlowStarted?
    requires DeviceId(topic') == DeviceId(topic)
    ensures !Decide(topic', payload', entries + [EntryFromFlow(Decide(topic, payload, entries, codec).data)], codec).FlowStarted?
  {
    var data := Decide(topic, payload, entries, codec).data;
    var entries' := entries + [EntryFromFlow(data)];
    if !Decide(topic', payload', entries', codec).Ignored? {
      assert entries'[|entries|].title == DeviceId(topic').value;
    }
  }

  /**
   * Two messages on topics with the same identity that both get past the
   * filters meet the same registry answer.
   */
  lemma SameIdentitySameAnswer(t1: string, p1: string, t2: string, p2: string, entries: seq<ConfigEntry>, codec: Codec)
    requires !Decide(t1, p1, entries, codec).Ignored? && !Decide(t2, p2, entries, codec).Ignored?
    requires DeviceId(t1) == DeviceId(t2)
    ensures Decide(t1, p1, entries, codec).AlreadyConfigured? <==> Decide(t2, p2, entries, codec).AlreadyConfigured?
  {
  }

  /**
   * The player created for a discovered device listens exactly on the topic
   * it was discovered on, and its configuration handler does not drop that
   * same message as another device's, nor as blank or unparsable.
   */
  lemma DiscoveredPlayerTakesItsConfig(topic: string, payload: string, entries: seq<ConfigEntry>, codec: Codec)
    requires Decide(topic, payload, entries, codec).FlowStarted?
    ensures var entry := EntryFromFlow(Decide(topic, payload, entries, codec).data);
      && ConfigTopic(entry) == topic
      && var c := DecideConfig(entry.title, topic, payload, codec);
      && !c.IgnoredBlank? && !c.IgnoredUnparsable? && !c.IgnoredOtherDevice?
  {
  }

  /**
   * The topic unload retracts: the entry's stored discovery topic, or, for
   * an entry added by hand, "homeassistant/media_player/<title>/config".
   */
  function RetractionTopic(entry: ConfigEntry): (t: string)
    ensures "discovery_topic" in entry.data ==> t == entry.data["discovery_topic"]
    ensures "discovery_topic" !in entry.data ==> t == "homeassistant/media_player/" + entry.title + "/config"
  {
    if "discovery_topic" in entry.data then entry.data["discovery_topic"]
    else "homeassistant/media_player/" + entry.title + "/config"
  }

  /**
   * For a discovered entry, unload retracts the very topic the device was
   * discovered on, which is also the topic its player listens on, and the
   * identity of that topic is the entry's title.
   */
  lemma RetractsDiscoveredTopic(topic: string, payload: string, entries: seq<ConfigEntry>, codec: Codec)
    requires Decide(topic, payload, entries, codec).FlowStarted?
    ensures var entry := EntryFromFlow(Decide(topic, payload, entries, codec).data);
      && RetractionTopic(entry) == topic
      && RetractionTopic(entry) == ConfigTopic(entry)
      && DeviceId(RetractionTopic(entry)) == Some(entry.title)
  {
  }

  /**
   * For an entry added by hand whose title holds no "/", the constructed
   * retraction topic is a config topic whose identity is the title.
   */
  lemma ManualRetractionIdentity(entry: ConfigEntry)
    requires "discovery_topic" !in entry.data && '/' !in entry.title
    ensures IsConfigTopic(RetractionTopic(entry))
    ensures DeviceId(RetractionTopic(entry)) == Some(entry.title)
  {
    assert RetractionTopic(entry) == "homeassistant/media_player" + "/" + entry.title + ConfigSuffix;
    DeviceIdOfConfigTopic("homeassistant/media_player", entry.title);
  }

  /**
   * The retraction message (an empty payload) is dropped both by the
   * discovery callback, so it never starts a flow, and by every player's
   * configuration handler, so it changes no player.
   */
  lemma RetractionIsInert(entry: ConfigEntry, entries: seq<ConfigEntry>, title: string, codec: Codec)
    ensures Decide(RetractionTopic(entry), "", entries, codec).Ignored?
    ensures DecideConfig(title, RetractionTopic(entry), "", codec) == IgnoredBlank
  {
  }

  /** The parts of Home Assistant the callback and the unload talk to. */
  class Registry {
    /** The config entries of this integration (hass.config_entries.async_entries). */
    var entries: seq<ConfigEntry>
    /** The data of each flow started (hass.config_entries.flow.async_init), in order. */
    var flows: seq<map<string, string>>
    /** The entries whose platforms were unloaded (async_unload_platforms), in order. */
    var unloaded: seq<ConfigEntry>

    constructor (entries: seq<ConfigEntry>)
      ensures this.entries == entries && flows == [] && unloaded == []
    {
      this.entries := entries;
      flows := [];
      unloaded := [];
    }

    /** The loop over the entries: true, at the first entry titled `id`. */
    method FindEntry(id: string) returns (found: bool)
      ensures found <==> exists i :: 0 <= i < |entries| && entries[i].title == id
    {
      var i := 0;
      while i < |entries|
        invariant 0 <= i <= |entries|
        invariant forall j :: 0 <= j < i ==> entries[j].title != id
      {
        if entries[i].title == id {
          return true;
        }
        i := i + 1;
      }
      return false;
    }

    /**
     * `mqtt_discovery_callback`: the message's outcome is Decide's, and a
     * flow is started (one, with that data) exactly when Decide says so.
     * The entries are only read.
     */
    method OnDiscoveryMessage(topic: string, payload: string, codec: Codec) returns (outcome: DiscoveryOutcome)
      modifies `flows
      ensures outcome == Decide(topic, payload, entries, codec)
      ensures outcome.FlowStarted? ==> flows == old(flows) + [outcome.data]
      ensures !outcome.FlowStarted? ==> flows == old(flows)
    {
      if !IsConfigTopic(topic) {
        return Ignored(NotConfigTopic);
      }
      if IsBlank(payload) {
        return Ignored(BlankPayload);
      }
      if codec.loads(payload).None? {
        return Ignored(Unparsable);
      }
      ConfigTopicIdentity(topic);
      var id := DeviceId(topic).value;
      var found := FindEntry(id);
      if found {
        return AlreadyConfigured(id);
      }
      var data := FlowData(id, topic);
      flows := flows + [data];
      return FlowStarted(data);
    }

    /**
     * `async_unload_entry`: publish an empty retained payload to the
     * retraction topic, ignore whether that fails, then unload the platform.
     */
    method UnloadEntry(entry: ConfigEntry, transport: Transport)
      requires transport.Valid()
      modifies `unloaded, transport
      ensures transport.Valid()
      ensures transport.log == old(transport.log) + [Publish(JString(RetractionTopic(entry)), JString(""), true)]
      ensures transport.live == old(transport.live) && transport.nextHandle == old(transport.nextHandle)
      ensures transport.connected == old(transport.connected)
      ensures unloaded == old(unloaded) + [entry]
    {
      var _ := transport.Publish(JString(RetractionTopic(entry)), JString(""), true);
      unloaded := unloaded + [entry];
    }
  }
}
