/**
 * One media player entity: the configuration handler that rebuilds the topic
 * maps and the subscriptions, the ten per-topic update handlers, the `state`
 * property and the commands that publish to the configured topics.
 */
module MediaPlayer {
  import opened Wrappers
  import opened Payload
  import opened Topics
  import opened TopicMaps
  import opened Mqtt
  import opened PlayerState
  import opened Entries

  /** The topic space a player listens on when its entry has no discovery topic. */
  const WildcardTopic: string := "homeassistant/media_player/#"

  /**
   * The topic whose messages reach the configuration handler: the entry's
   * discovery topic when it has one, the whole discovery wildcard otherwise.
   */
  function ConfigTopic(entry: ConfigEntry): (t: string)
    ensures "discovery_topic" in entry.data ==> t == entry.data["discovery_topic"]
    ensures "discovery_topic" !in entry.data ==> t == WildcardTopic
  {
    if "discovery_topic" in entry.data then entry.data["discovery_topic"] else WildcardTopic
  }

  /** The Python exceptions the configuration handler can raise. */
  datatype PyError = IndexError | AttributeError

  /** Which branch of the configuration handler a message takes. */
  datatype ConfigOutcome =
    | IgnoredBlank
    | IgnoredUnparsable
    | IgnoredOtherDevice(id: string)
      /** Raised before anything was assigned. */
    | Raised(error: PyError)
      /** `_name` was assigned, then reading "availability" raised AttributeError. */
    | RaisedAfterName(name: Json)
    | Applied(name: Json, topics: TopicMap)

  /**
   * `config.get("availability", {})` as an object: None stands for the
   * AttributeError of calling `.get` on a value that is not an object.
   */
  function AvailabilityObject(config: map<string, Json>): (r: Option<map<string, Json>>)
    ensures "availability" !in config ==> r == Some(map[])
    ensures "availability" in config ==> (r.Some? <==> config["availability"].JObject?)
    ensures "availability" in config && config["availability"].JObject? ==> r == Some(config["availability"].fields)
  {
    if "availability" !in config then Some(map[])
    else match config["availability"]
      case JObject(fields) => Some(fields)
      case _ => None
  }

  /**
   * What the configuration handler of the entry titled `title` does with a
   * message: drop a blank payload, drop one json.loads rejects, raise
   * IndexError when the topic holds no "/", drop one whose identity is
   * another device's, raise AttributeError when the decoded value is not an
   * object, and otherwise take the name and build the topic maps.
   */
  function DecideConfig(title: string, topic: string, payload: string, codec: Codec): (r: ConfigOutcome)
    ensures r == IgnoredBlank <==> IsBlank(payload)
    ensures r == IgnoredUnparsable <==> !IsBlank(payload) && codec.loads(payload).None?
    ensures r.IgnoredOtherDevice? <==>
      !IsBlank(payload) && codec.loads(payload).Some? && DeviceId(topic).Some? && DeviceId(topic).value != title
    ensures r.IgnoredOtherDevice? ==> r.id == DeviceId(topic).value
    ensures r.Raised? ==> (r.error == IndexError <==> DeviceId(topic).None?)
    ensures r.Raised? ==> !IsBlank(payload) && codec.loads(payload).Some?
    ensures r == Raised(AttributeError) <==>
      !IsBlank(payload) && codec.loads(payload).Some? && DeviceId(topic) == Some(title) && !codec.loads(payload).value.JObject?
    ensures !IsBlank(payload) && codec.loads(payload).Some? && DeviceId(topic) == Some(title) && codec.loads(payload).value.JObject? ==>
      r.Applied? || r.RaisedAfterName?
    ensures r.Applied? || r.RaisedAfterName? ==>
      && !IsBlank(payload) && DeviceId(topic) == Some(title)
      && codec.loads(payload).Some? && codec.loads(payload).value.JObject?
      && var config := codec.loads(payload).value.fields;
      && (r.Applied? <==> AvailabilityObject(config).Some?)
      && r.name == Get(config, "name", JNull)
      && (r.Applied? ==> r.topics == BuildTopicMap(config, AvailabilityObject(config).value))
  {
    if IsBlank(payload) then IgnoredBlank
    else match codec.loads(payload)
      case None => IgnoredUnparsable
      case Some(config) =>
        match DeviceId(topic)
        case None => Raised(IndexError)
        case Some(id) =>
          if id != title then IgnoredOtherDevice(id)
          else if !config.JObject? then Raised(AttributeError)
          else
            var name := Get(config.fields, "name", JNull);
            match AvailabilityObject(config.fields)
            case None => RaisedAfterName(name)
            case Some(av) => Applied(name, BuildTopicMap(config.fields, av))
  }

  /**
   * The handler does not check the "/config" suffix: two topics with the same
   * identity are treated alike, so the identity is its only topic filter.
   */
  lemma IdentityIsTheOnlyTopicFilter(title: string, t1: string, t2: string, payload: string, codec: Codec)
    requires DeviceId(t1) == DeviceId(t2)
    ensures DecideConfig(title, t1, payload, codec) == DecideConfig(title, t2, payload, codec)
  {
  }

  /** What the media-source resolver turns a media-source id into. */
  datatype ResolvedMedia = ResolvedMedia(mimeType: string, url: string)

  /** The object play-media serialises: exactly the keys media_type and media_id. */
  function MediaRequest(mediaType: string, mediaId: string): (r: Json)
    ensures r.JObject? && r.fields.Keys == {"media_type", "media_id"}
    ensures r.fields["media_type"] == JString(mediaType) && r.fields["media_id"] == JString(mediaId)
  {
    JObject(map["media_type" := JString(mediaType), "media_id" := JString(mediaId)])
  }

  /** The first loop of the rebind: call every stored disposer, in order. */
  method DisposeAll(transport: Transport, hs: seq<nat>)
    requires transport.Valid()
    modifies transport
    ensures transport.Valid()
    ensures transport.nextHandle == old(transport.nextHandle) && transport.connected == old(transport.connected)
    ensures transport.live == old(transport.live) - Handles(hs)
    ensures transport.log == old(transport.log) + DisposeCalls(hs)
  {
    var i := 0;
    while i < |hs|
      invariant transport.Valid()
      invariant transport.nextHandle == old(transport.nextHandle) && transport.connected == old(transport.connected)
      invariant DisposedState(old(transport.live), old(transport.log), hs, i, transport.live, transport.log)
    {
      label Before:
      transport.Unsubscribe(hs[i]);
      DisposedStep(old(transport.live), old(transport.log), hs, i, old@Before(transport.live), old@Before(transport.log),
                   transport.live, transport.log);
      i := i + 1;
    }
    assert hs[..i] == hs;
  }


  /**
   * One pass of the subscription loop: look up the topic of `roles[k]` and
   * subscribe it when the topic is truthy.
   */
  method SubscribeRole(transport: Transport, tm: TopicMap, roles: seq<Role>, k: nat,
                       ghost live0: map<nat, Binding>, ghost log0: seq<Call>, ghost n0: nat,
                       ghost bs: seq<Binding>, hs: seq<nat>) returns (ghost bs': seq<Binding>, hs': seq<nat>)
    requires k < |roles| && bs == Bindings(tm, roles[..k])
    requires forall h :: h in live0 ==> h < n0
    requires Subscribed(transport, live0, log0, n0, bs, hs)
    modifies transport
    ensures bs' == Bindings(tm, roles[..k + 1])
    ensures Subscribed(transport, live0, log0, n0, bs', hs')
    ensures transport.connected == old(transport.connected)
  {
    var role := roles[k];
    var t := TopicOf(tm, role);
    BindingsStep(tm, roles, k);
    if Truthy(t) {
      var h := transport.Subscribe(t, role);
      SubscribedStep(live0, log0, n0, bs, hs, old(transport.live), old(transport.log), Binding(t, role), h,
                     transport.live, transport.log);
      bs', hs' := bs + [Binding(t, role)], hs + [h];
    } else {
      bs', hs' := bs, hs;
    }
  }


  /**
   * The second loop of the rebind: subscribe each of `roles` whose topic is
   * truthy, in order, collecting the handles (the player passes `Roles`). The transport hands
   * out consecutive handles, so the new generation occupies the handles from
   * the old `nextHandle` on.
   */
  method SubscribeAll(transport: Transport, tm: TopicMap, roles: seq<Role>) returns (hs: seq<nat>)
    requires transport.Valid()
    modifies transport
    ensures transport.connected == old(transport.connected)
    ensures Subscribed(transport, old(transport.live), old(transport.log), old(transport.nextHandle), Bindings(tm, roles), hs)
  {
    ghost var bs: seq<Binding> := [];
    hs := [];
    var k := 0;
    while k < |roles|
      invariant 0 <= k <= |roles|
      invariant bs == Bindings(tm, roles[..k])
      invariant transport.connected == old(transport.connected)
      invariant Subscribed(transport, old(transport.live), old(transport.log), old(transport.nextHandle), bs, hs)
    {
      bs, hs := SubscribeRole(transport, tm, roles, k, old(transport.live), old(transport.log), old(transport.nextHandle), bs, hs);
      k := k + 1;
    }
    assert roles[..k] == roles;
  }

  /**
   * The two loops of handle_config: dispose the handles `olds`, then
   * subscribe the new generation for `tm`, returning its handles.
   */
  method Resubscribe(transport: Transport, olds: seq<nat>, tm: TopicMap) returns (news: seq<nat>)
    requires transport.Valid() && Distinct(olds)
    requires forall h :: h in olds ==> h < transport.nextHandle
    modifies transport
    ensures transport.Valid() && transport.connected == old(transport.connected)
    ensures RebindCalls(Generation(tm), olds, old(transport.log), news, transport.log)
    ensures RebindLive(Generation(tm), olds, old(transport.live), old(transport.nextHandle), news, transport.live)
  {
    DisposeAll(transport, olds);
    news := SubscribeAll(transport, tm, Roles);
    RebindHolds(Generation(tm), olds, old(transport.log), old(transport.live), old(transport.nextHandle),
                news, transport.log, transport.live, transport.nextHandle);
  }

  class Player {
    /** The config entry's title: the identity this player answers to. */
    const title: string
    const transport: Transport

    var name: Json
    var available: Option<bool>
    var state: Option<string>
    var volume: real
    var mediaTitle: Option<string>
    var mediaArtist: Option<string>
    var mediaAlbum: Option<string>
    var duration: Option<real>
    var position: Option<real>
    var positionUpdatedAt: Option<Time>
    var mediaType: string
    var albumArt: Option<Bytes>
    /** The three topic dictionaries; None until the first configuration is applied. */
    var topics: Option<TopicMap>
    /** The handles of the current generation of subscriptions. */
    var subscribed: seq<nat>
    /** How many times async_write_ha_state was called. */
    var writes: nat

    function Current(): Snapshot
      reads `available, `state, `volume, `mediaTitle, `mediaArtist, `mediaAlbum,
        `duration, `position, `positionUpdatedAt, `mediaType, `albumArt
    {
      Snapshot(available, state, volume, mediaTitle, mediaArtist, mediaAlbum,
               duration, position, positionUpdatedAt, mediaType, albumArt)
    }

    /** The bindings the current topic maps call for. */
    function ActiveBindings(): seq<Binding>
      reads `topics
    {
      if topics.Some? then Generation(topics.value) else []
    }

    /** The configured "available" sentinel. */
    function Sentinel(): Json
      reads `topics
      requires topics.Some?
    {
      topics.value.availability.available
    }

    /**
     * One live subscription per binding of the current topic maps, in order,
     * with strictly increasing (so distinct) handles.
     */
    ghost predicate Valid()
      reads `topics, `subscribed, transport
    {
      && transport.Valid()
      && LiveFor(ActiveBindings(), subscribed, transport.live)
    }

    constructor (title: string, transport: Transport)
      requires transport.Valid()
      ensures Valid()
      ensures this.title == title && this.transport == transport
      ensures Current() == Initial && name == JNull && topics == None && subscribed == [] && writes == 0
    {
      this.title := title;
      this.transport := transport;
      name := JNull;
      available := None;
      state := None;
      volume := 0.0;
      mediaTitle := None;
      mediaArtist := None;
      mediaAlbum := None;
      duration := None;
      position := None;
      positionUpdatedAt := None;
      mediaType := "music";
      albumArt := None;
      topics := None;
      subscribed := [];
      writes := 0;
    }

    /**
     * The configuration handler: decide what the message calls for, then
     * apply it.
     */
    method HandleConfig(topic: string, payload: string, codec: Codec) returns (outcome: ConfigOutcome)
      requires Valid()
      modifies this, transport
      ensures outcome == DecideConfig(title, topic, payload, codec)
      ensures AfterConfig(old(name), old(topics), old(subscribed), old(Current()), old(writes),
                      old(transport.log), old(transport.live), old(transport.nextHandle), old(transport.connected), outcome)
    {
      outcome := DecideConfig(title, topic, payload, codec);
      Apply(outcome);
    }

    /**
     * The player after the configuration handler took the branch `outcome`.
     * Unless the message is applied, nothing but `name` (on the late
     * AttributeError) changes and the transport sees no call. When it is
     * applied, the subscriptions are rebuilt for the new topic maps. The
     * snapshot is kept either way.
     */
    ghost predicate AfterConfig(name0: Json, topics0: Option<TopicMap>, subscribed0: seq<nat>, snapshot0: Snapshot, writes0: nat,
                            log0: seq<Call>, live0: map<nat, Binding>, n0: nat, connected0: bool, outcome: ConfigOutcome)
      reads this, transport
    {
      && Valid()
      && Current() == snapshot0 && writes == writes0
      && transport.connected == connected0
      && (!outcome.Applied? ==>
        && topics == topics0 && subscribed == subscribed0
        && transport.log == log0 && transport.live == live0 && transport.nextHandle == n0
        && name == (if outcome.RaisedAfterName? then outcome.name else name0))
      && (outcome.Applied? ==> name == outcome.name && Rebound(outcome.topics, subscribed0, log0, live0, n0))
    }

    /** The assignments and the rebind of one branch of the configuration handler. */
    method Apply(outcome: ConfigOutcome)
      requires Valid()
      modifies `name, `topics, `subscribed, transport
      ensures AfterConfig(old(name), old(topics), old(subscribed), old(Current()), old(writes),
                      old(transport.log), old(transport.live), old(transport.nextHandle), old(transport.connected), outcome)
    {
      if outcome.Applied? {
        name := outcome.name;
        Rebind(outcome.topics);
      } else if outcome.RaisedAfterName? {
        name := outcome.name;
      }
    }

    /** The state after the rebind for topic maps `tm`: see RebindCalls and RebindLive. */
    ghost predicate Rebound(tm: TopicMap, olds: seq<nat>, log0: seq<Call>, live0: map<nat, Binding>, n0: nat)
      reads this, transport
    {
      && topics == Some(tm)
      && RebindCalls(Generation(tm), olds, log0, subscribed, transport.log)
      && RebindLive(Generation(tm), olds, live0, n0, subscribed, transport.live)
    }

    /** The two loops of handle_config, on the player's own state. */
    method Rebind(tm: TopicMap)
      requires Valid()
      modifies `topics, `subscribed, transport
      ensures Valid() && transport.connected == old(transport.connected)
      ensures Rebound(tm, old(subscribed), old(transport.log), old(transport.live), old(transport.nextHandle))
    {
      assert Distinct(subscribed);
      subscribed := Resubscribe(transport, subscribed, tm);
      topics := Some(tm);
    }

    /** `handle_availability`: available exactly when the payload is the sentinel. */
    method HandleAvailability(payload: string)
      requires topics.Some?
      modifies this
      ensures name == old(name) && topics == old(topics) && subscribed == old(subscribed)
      ensures Current() == old(Current()).(available := Some(JString(payload) == Sentinel()))
      ensures writes == old(writes) + 1
    {
      available := Some(JString(payload) == topics.value.availability.available);
      writes := writes + 1;
    }

    /** `handle_state`: the payload, verbatim. */
    method HandleState(payload: string)
      modifies this
      ensures Current() == old(Current()).(state := Some(payload))
      ensures writes == old(writes) + 1
      ensures name == old(name) && topics == old(topics) && subscribed == old(subscribed)
    {
      state := Some(payload);
      writes := writes + 1;
    }

    /** `handle_title`: the payload, verbatim. */
    method HandleTitle(payload: string)
      modifies this
      ensures Current() == old(Current()).(title := Some(payload))
      ensures writes == old(writes) + 1
      ensures name == old(name) && topics == old(topics) && subscribed == old(subscribed)
    {
      mediaTitle := Some(payload);
      writes := writes + 1;
    }

    /** `handle_artist`: the payload, verbatim. */
    method HandleArtist(payload: string)
      modifies this
      ensures Current() == old(Current()).(artist := Some(payload))
      ensures writes == old(writes) + 1
      ensures name == old(name) && topics == old(topics) && subscribed == old(subscribed)
    {
      mediaArtist := Some(payload);
      writes := writes + 1;
    }

    /** `handle_album`: the payload, verbatim. */
    method HandleAlbum(payload: string)
      modifies this
      ensures Current() == old(Current()).(album := Some(payload))
      ensures writes == old(writes) + 1
      ensures name == old(name) && topics == old(topics) && subscribed == old(subscribed)
    {
      mediaAlbum := Some(payload);
      writes := writes + 1;
    }

    /** `handle_duration`: the parsed number, None when float() raises. */
    method HandleDuration(payload: string, codec: Codec)
      modifies this
      ensures Current() == old(Current()).(duration := codec.toFloat(payload))
      ensures writes == old(writes) + 1
      ensures name == old(name) && topics == old(topics) && subscribed == old(subscribed)
    {
      match codec.toFloat(payload) {
        case Some(x) => duration := Some(x);
        case None => duration := None;
      }
      writes := writes + 1;
    }

    /** `handle_position`: the parsed number and the time `now`; only None when float() raises. */
    method HandlePosition(payload: string, now: Time, codec: Codec)
      modifies this
      ensures codec.toFloat(payload).Some? ==>
        Current() == old(Current()).(position := codec.toFloat(payload), positionUpdatedAt := Some(now))
      ensures codec.toFloat(payload).None? ==> Current() == old(Current()).(position := None)
      ensures writes == old(writes) + 1
      ensures name == old(name) && topics == old(topics) && subscribed == old(subscribed)
    {
      match codec.toFloat(payload) {
        case Some(x) =>
          position := Some(x);
          positionUpdatedAt := Some(now);
        case None =>
          position := None;
      }
      writes := writes + 1;
    }

    /** `handle_volume`: the parsed number, 0.0 when float() raises. */
    method HandleVolume(payload: string, codec: Codec)
      modifies this
      ensures Current() == old(Current()).(volume := codec.toFloat(payload).GetOr(0.0))
      ensures writes == old(writes) + 1
      ensures name == old(name) && topics == old(topics) && subscribed == old(subscribed)
    {
      match codec.toFloat(payload) {
        case Some(x) => volume := x;
        case None => volume := 0.0;
      }
      writes := writes + 1;
    }

    /** `handle_albumart`: the base64 decoding of the payload without line feeds, None when it raises. */
    method HandleAlbumArt(payload: string, codec: Codec)
      modifies this
      ensures Current() == old(Current()).(albumArt := codec.b64decode(RemoveNewlines(payload)))
      ensures writes == old(writes) + 1
      ensures name == old(name) && topics == old(topics) && subscribed == old(subscribed)
    {
      match codec.b64decode(RemoveNewlines(payload)) {
        case Some(art) => albumArt := Some(art);
        case None => albumArt := None;
      }
      writes := writes + 1;
    }

    /** `handle_mediatype`: the payload, verbatim. */
    method HandleMediaType(payload: string)
      modifies this
      ensures Current() == old(Current()).(mediaType := payload)
      ensures writes == old(writes) + 1
      ensures name == old(name) && topics == old(topics) && subscribed == old(subscribed)
    {
      mediaType := payload;
      writes := writes + 1;
    }

    /**
     * A message arriving on the live subscription `h` runs the handler of the
     * role recorded when it was subscribed: the snapshot becomes Update of the
     * old one, one state write is made, and the bindings stay as they are.
     */
    method Deliver(h: nat, payload: string, now: Time, codec: Codec)
      requires Valid() && h in subscribed
      modifies this
      ensures Valid() && topics.Some?
      ensures Current() == Update(old(Current()), old(transport.live[h].role), payload, Sentinel(), now, codec)
      ensures writes == old(writes) + 1
      ensures name == old(name) && topics == old(topics) && subscribed == old(subscribed)
    {
      assert topics.Some?;
      match transport.live[h].role {
        case Availability => HandleAvailability(payload);
        case State => HandleState(payload);
        case Title => HandleTitle(payload);
        case Artist => HandleArtist(payload);
        case Album => HandleAlbum(payload);
        case Duration => HandleDuration(payload, codec);
        case Position => HandlePosition(payload, now, codec);
        case Volume => HandleVolume(payload, codec);
        case AlbumArt => HandleAlbumArt(payload, codec);
        case MediaType => HandleMediaType(payload);
      }
    }

    /** The `state` property. */
    function StateProperty(): (r: Option<string>)
      reads this
      ensures r == Some("unavailable") <==> available == Some(false) || state == Some("unavailable")
      ensures available != Some(false) ==> r == state
    {
      Displayed(Current())
    }

    /** `async_media_play`: the stored play topic and payload, whatever they are. */
    method MediaPlay() returns (ok: bool)
      requires Valid() && topics.Some?
      modifies transport
      ensures Valid() && Current() == old(Current())
      ensures transport.log == old(transport.log) + [Publish(topics.value.cmd.play, topics.value.cmd.playPayload, false)]
      ensures ok == transport.connected
      ensures transport.live == old(transport.live) && transport.nextHandle == old(transport.nextHandle)
      ensures transport.connected == old(transport.connected)
    {
      ok := transport.Publish(topics.value.cmd.play, topics.value.cmd.playPayload, false);
    }

    /** `async_media_pause`: the stored pause topic and payload. */
    method MediaPause() returns (ok: bool)
      requires Valid() && topics.Some?
      modifies transport
      ensures Valid() && Current() == old(Current())
      ensures transport.log == old(transport.log) + [Publish(topics.value.cmd.pause, topics.value.cmd.pausePayload, false)]
      ensures ok == transport.connected
      ensures transport.live == old(transport.live) && transport.nextHandle == old(transport.nextHandle)
      ensures transport.connected == old(transport.connected)
    {
      ok := transport.Publish(topics.value.cmd.pause, topics.value.cmd.pausePayload, false);
    }

    /** `async_media_next_track`: the stored next topic and payload. */
    method MediaNextTrack() returns (ok: bool)
      requires Valid() && topics.Some?
      modifies transport
      ensures Valid() && Current() == old(Current())
      ensures transport.log == old(transport.log) + [Publish(topics.value.cmd.next, topics.value.cmd.nextPayload, false)]
      ensures ok == transport.connected
      ensures transport.live == old(transport.live) && transport.nextHandle == old(transport.nextHandle)
      ensures transport.connected == old(transport.connected)
    {
      ok := transport.Publish(topics.value.cmd.next, topics.value.cmd.nextPayload, false);
    }

    /** `async_media_previous_track`: the stored previous topic and payload. */
    method MediaPreviousTrack() returns (ok: bool)
      requires Valid() && topics.Some?
      modifies transport
      ensures Valid() && Current() == old(Current())
      ensures transport.log == old(transport.log) + [Publish(topics.value.cmd.previous, topics.value.cmd.previousPayload, false)]
      ensures ok == transport.connected
      ensures transport.live == old(transport.live) && transport.nextHandle == old(transport.nextHandle)
      ensures transport.connected == old(transport.connected)
    {
      ok := transport.Publish(topics.value.cmd.previous, topics.value.cmd.previousPayload, false);
    }

    /**
     * `async_set_volume_level`: the level rounded to two places is stored
     * first and that same value is published to the volume-set topic; no state
     * write is made, and the stored value stays when publishing fails.
     */
    method SetVolumeLevel(level: real, codec: Codec) returns (ok: bool)
      requires Valid() && topics.Some?
      modifies this, transport
      ensures Valid() && topics == old(topics) && subscribed == old(subscribed) && name == old(name)
      ensures Current() == old(Current()).(volume := codec.round2(level))
      ensures writes == old(writes)
      ensures transport.log == old(transport.log) + [Publish(topics.value.cmd.volumeSet, JNumber(volume), false)]
      ensures ok == transport.connected
      ensures transport.live == old(transport.live) && transport.nextHandle == old(transport.nextHandle)
      ensures transport.connected == old(transport.connected)
    {
      volume := codec.round2(level);
      ok := transport.Publish(topics.value.cmd.volumeSet, JNumber(volume), false);
    }

    /** `async_media_seek`: the position, as given, to the seek topic; the snapshot is not touched. */
    method MediaSeek(position: real) returns (ok: bool)
      requires Valid() && topics.Some?
      modifies transport
      ensures Valid() && Current() == old(Current())
      ensures transport.log == old(transport.log) + [Publish(topics.value.cmd.seek, JNumber(position), false)]
      ensures ok == transport.connected
      ensures transport.live == old(transport.live) && transport.nextHandle == old(transport.nextHandle)
      ensures transport.connected == old(transport.connected)
    {
      ok := transport.Publish(topics.value.cmd.seek, JNumber(position), false);
    }

    /**
     * `async_play_media`: a media-source id is first replaced by the resolved
     * mime type and URL; the serialised {media_type, media_id} object goes to
     * the play-media topic.
     */
    method PlayMedia(mediaType: string, mediaId: string, resolve: string -> Option<ResolvedMedia>, codec: Codec)
      returns (ok: bool)
      requires Valid() && topics.Some?
      modifies transport
      ensures Valid() && Current() == old(Current())
      ensures var request := match resolve(mediaId)
                             case Some(m) => MediaRequest(m.mimeType, m.url)
                             case None => MediaRequest(mediaType, mediaId);
        transport.log == old(transport.log) + [Publish(topics.value.cmd.playMedia, JString(codec.dumps(request)), false)]
      ensures ok == transport.connected
      ensures transport.live == old(transport.live) && transport.nextHandle == old(transport.nextHandle)
      ensures transport.connected == old(transport.connected)
    {
      var kind, id := mediaType, mediaId;
      match resolve(mediaId) {
        case Some(m) => kind, id := m.mimeType, m.url;
        case None =>
      }
      ok := transport.Publish(topics.value.cmd.playMedia, JString(codec.dumps(MediaRequest(kind, id))), false);
    }
  }
}
