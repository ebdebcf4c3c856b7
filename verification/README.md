# MQTT media player bridge: a Dafny model

This project models the core of the `mqtt_media_player` Home Assistant
integration. The integration bridges media players that announce themselves
over MQTT discovery. It has two parts.

- **The per-device player** (`MQTTMediaPlayer`). Its configuration handler
  parses a discovery message for its own device and builds three topic
  dictionaries (availability, state and command topics). It then disposes
  every subscription it holds and subscribes afresh to each of ten roles
  whose topic is set. Ten update handlers each write one field of the
  displayed state. The `state` property reports "unavailable" when the device
  said so. The command methods publish to the configured command topics.
- **The discovery callback and the entry unload** (`__init__.py`). The
  callback watches `homeassistant/media_player/#`. It drops messages that are
  not config topics, that have blank payloads or that do not decode. It takes
  the device identity from the topic and starts one configuration flow per
  device not yet known. Unloading an entry publishes an empty retained message
  to retract the device's discovery record.

The modules follow that structure:

| module | file | contents |
|---|---|---|
| `Wrappers` | wrappers.dfy | `Option` |
| `Payload` | payload.dfy | decoded JSON values, Python truthiness, `dict.get`, `str.strip`, newline removal, and the library decoders as an opaque `Codec` |
| `Topics` | topics.dfy | `str.split("/")`, the device identity `split("/")[-2]`, the "/config" suffix |
| `TopicMaps` | topic_maps.dfy | the three topic dictionaries, the ten roles, and the bindings one subscription generation consists of |
| `Mqtt` | mqtt.dfy | a `Transport` class recording subscribe, unsubscribe and publish calls, plus the value-level facts about a rebind |
| `PlayerState` | player_state.dfy | the displayed snapshot and what each handler does to it |
| `Entries` | entries.dfy | config entries and the title a discovery flow gives them |
| `MediaPlayer` | media_player.dfy | the `Player` class: configuration, handlers, `state`, commands |
| `Discovery` | discovery.dfy | the discovery decision, the `Registry` class (entries, started flows, unloads) and the unload |

Calls into Home Assistant and the MQTT client become state of two classes.

- `Mqtt.Transport` has a `log` of every call, the map of `live` handles to
  their (topic, role) binding, and a `connected` flag. `Publish` succeeds
  exactly when the flag is set.
- `Discovery.Registry` holds the entries, the data of each flow started, and
  the entries whose platforms were unloaded.

`async_write_ha_state` is a counter `writes`. `utcnow()` is a parameter of the
position handler. `json.loads`, `float`, `round(…, 2)`, `base64.b64decode` and
`json.dumps` are opaque functions in `Payload.Codec`; None stands for the
exception the call raises.

Behaviours of the code the model keeps as written:

- A command whose topic is not configured publishes to the topic None (`JNull`);
  nothing checks for a missing topic first.
- Unloading an entry publishes the retraction and unloads the platform; it
  does not itself call the player's stored unsubscribe callbacks. Tearing the
  entity down is left to Home Assistant.
- The player's configuration handler does not check the "/config" suffix. It
  compares the topic's identity with its entry's title, and nothing else
  (`MediaPlayer.IdentityIsTheOnlyTopicFilter`).
- A configuration object whose "availability" value is present but not an
  object raises AttributeError. By then the handler has already assigned
  `_name`, so the name changes while topics and subscriptions stay as they
  were.
- A decoded value that is not an object raises AttributeError before anything
  is assigned.
- A topic without "/" raises IndexError in the player's handler. The discovery
  callback cannot meet that case, because a topic ending in "/config" always
  has an identity (`Topics.ConfigTopicIdentity`).

## Model

| member | source | states |
|---|---|---|
| `Payload.Strip` | custom_components/mqtt_media_player/media_player.py:56 | `str.strip()`: the result is empty exactly when the input is all whitespace, and otherwise starts and ends with a non-whitespace character |
| `Payload.StripIsSlice` | custom_components/mqtt_media_player/media_player.py:56 | `str.strip()` returns the input with a run of whitespace removed at each end: a slice whose two outsides are all whitespace |
| `Payload.BlankIffAllSpace` | custom_components/mqtt_media_player/__init__.py:28 | the payload test `not p or p.strip() == ""` holds exactly for payloads made only of whitespace |
| `Payload.RemoveNewlines` | custom_components/mqtt_media_player/media_player.py:242 | `replace("\n", "")` leaves no line feed, never lengthens, and is the identity on text without line feeds |
| `Payload.RemoveNewlinesConcat` | custom_components/mqtt_media_player/media_player.py:242 | removing line feeds distributes over concatenation |
| `Payload.RemoveNewlinesKeepsOthers` | custom_components/mqtt_media_player/media_player.py:242 | `replace("\n", "")` keeps every other character as often as it occurs, so the result is as long as the input less its line feeds |
| `Topics.Split` | custom_components/mqtt_media_player/__init__.py:36 | `split(sep)` gives at least one segment, no segment holds the separator, and there is exactly one segment when the text has no separator |
| `Topics.SplitAround` | custom_components/mqtt_media_player/__init__.py:36 | splitting `a + sep + b` splits `a` and `b` independently |
| `Topics.SplitJoin` | custom_components/mqtt_media_player/__init__.py:36 | splitting undoes joining with the separator |
| `Topics.DeviceId` | custom_components/mqtt_media_player/media_player.py:66 | `split('/')[-2]` exists exactly when the topic has a "/", and holds no "/" |
| `Topics.DeviceIdAnyDepth` | custom_components/mqtt_media_player/__init__.py:17-18 | the identity is the second-to-last segment at any nesting depth |
| `Topics.ConfigTopicIdentity` | custom_components/mqtt_media_player/__init__.py:24-37 | every topic ending in "/config" has an identity: the last segment before the suffix |
| `Topics.DeviceIdOfConfigTopic` | custom_components/mqtt_media_player/__init__.py:36-37 | `<prefix>/<id>/config` ends in "/config" and has identity `id` |
| `TopicMaps.DefaultCommandPayloads` | custom_components/mqtt_media_player/media_player.py:95-101 | the fixed commands send "Play", "Pause", "Next" and "Previous" unless the configuration names a payload |
| `TopicMaps.ConfiguredCommandTopics` | custom_components/mqtt_media_player/media_player.py:92-104 | each of the seven command topics (volume set, play, pause, next, previous, play media, seek) is `config.get` of its own `command_*_topic` key, None when the key is absent |
| `TopicMaps.DefaultAvailabilitySentinels` | custom_components/mqtt_media_player/media_player.py:76-77 | the sentinels are "online" and "offline" unless the availability object names them |
| `TopicMaps.BuildTopicMap` | custom_components/mqtt_media_player/media_player.py:72-104 | the three dictionaries: each state role's topic is `config.get` of its own key, None when absent, and the availability topic is the "topic" of the availability object |
| `TopicMaps.TopicOf` | custom_components/mqtt_media_player/media_player.py:123 | the lookup `state.get(key) or availability.get(key)`: the availability role falls through to the availability topic, a state role gets its topic when truthy and None otherwise |
| `TopicMaps.TopicOfConfigured` | custom_components/mqtt_media_player/media_player.py:74-90 | a role has a topic exactly when its key is present with a truthy value, and that value is the topic |
| `TopicMaps.BindingsSpec` | custom_components/mqtt_media_player/media_player.py:111-125 | the subscription loop binds exactly the visited roles with truthy topics, each to its own topic, in visiting order |
| `TopicMaps.GenerationOnePerRole` | custom_components/mqtt_media_player/media_player.py:111-125 | one generation has one binding per role with a truthy topic, in the order of the ten listed roles, and no other |
| `Mqtt.Transport.Subscribe` | custom_components/mqtt_media_player/media_player.py:125 | a fresh handle, bound to (topic, role), and one Subscribe call logged |
| `Mqtt.Transport.Unsubscribe` | custom_components/mqtt_media_player/media_player.py:107 | the handle is no longer live, and one Unsubscribe call is logged |
| `Mqtt.Transport.Publish` | custom_components/mqtt_media_player/__init__.py:84 | one Publish call is logged, and it succeeds exactly when connected |
| `Mqtt.DisposeCalls` | custom_components/mqtt_media_player/media_player.py:106-107 | one Unsubscribe per handle, in list order |
| `Mqtt.SubscribeCalls` | custom_components/mqtt_media_player/media_player.py:124-125 | one Subscribe per binding, in order, with its handle |
| `Mqtt.DisposeEachOnce` | custom_components/mqtt_media_player/media_player.py:106-107 | disposing distinct handles unsubscribes each stored handle exactly once and nothing else |
| `Mqtt.RebindOrder` | custom_components/mqtt_media_player/media_player.py:106-125 | in a rebind every old handle is unsubscribed exactly once, and every unsubscription precedes every subscription |
| `Mqtt.RebindHolds` | custom_components/mqtt_media_player/media_player.py:106-125 | disposing then subscribing leaves exactly the new generation plus the untouched unrelated handles live, and logs the rebind's calls |
| `PlayerState.Update` | custom_components/mqtt_media_player/media_player.py:196-249 | what the ten handlers do to the displayed state: once availability is known it stays known, only the position handler records a receipt time and that time is `now`, and only the album-art handler changes the art |
| `PlayerState.FieldsCoverSnapshot` | custom_components/mqtt_media_player/media_player.py:40-52 | the ten role fields make up the whole displayed state |
| `PlayerState.UpdateIsLocal` | custom_components/mqtt_media_player/media_player.py:196-249 | each handler changes only its own role's field |
| `PlayerState.StringRolesVerbatim` | custom_components/mqtt_media_player/media_player.py:200-214 | state, title, artist, album and media type store the payload verbatim |
| `PlayerState.NumericFallbacks` | custom_components/mqtt_media_player/media_player.py:216-238 | a parsed number is stored; on failure volume becomes 0.0 and duration and position None; the position timestamp moves only on success |
| `PlayerState.AlbumArtDecoding` | custom_components/mqtt_media_player/media_player.py:240-245 | album art is the decoding of the payload without line feeds, None when decoding fails |
| `PlayerState.AvailabilityIsBinary` | custom_components/mqtt_media_player/media_player.py:196-197 | availability becomes exactly "payload equals the available sentinel", never unknown again |
| `PlayerState.Displayed` | custom_components/mqtt_media_player/media_player.py:155 | "unavailable" exactly when the flag is False or the raw state is that word; otherwise the raw state, also while availability is unknown |
| `Entries.EntryFromFlow` | custom_components/mqtt_media_player/config_flow.py:17-26 | the entry's title is the flow data's "name" (default "MQTT Media Player"), and the data is kept |
| `MediaPlayer.ConfigTopic` | custom_components/mqtt_media_player/media_player.py:26-29 | the player listens on its entry's discovery topic when it has one, else on the whole wildcard |
| `MediaPlayer.AvailabilityObject` | custom_components/mqtt_media_player/media_player.py:75-77 | an absent "availability" reads as an empty object, a present object is read as itself, and any other present value makes `.get` raise |
| `MediaPlayer.DecideConfig` | custom_components/mqtt_media_player/media_player.py:54-104 | which branch a config message takes, each with its exact condition: blank, unparsable, IndexError for a topic without "/", another device's identity, AttributeError for a decoded value that is not an object, and otherwise applied with the name and topic maps built from the object, or the late AttributeError when "availability" is not an object |
| `MediaPlayer.IdentityIsTheOnlyTopicFilter` | custom_components/mqtt_media_player/media_player.py:66-69 | two topics with the same identity are handled alike: the suffix is never checked |
| `MediaPlayer.MediaRequest` | custom_components/mqtt_media_player/media_player.py:276 | the play-media object has exactly the keys media_type and media_id |
| `MediaPlayer.DisposeAll` | custom_components/mqtt_media_player/media_player.py:106-108 | the disposal loop: exactly the stored handles stop being live, and their Unsubscribe calls are logged in order |
| `MediaPlayer.SubscribeAll` | custom_components/mqtt_media_player/media_player.py:111-125 | the subscription loop: one fresh live handle per binding of the roles visited, in order, and their Subscribe calls logged |
| `MediaPlayer.Resubscribe` | custom_components/mqtt_media_player/media_player.py:106-125 | both loops: every old handle disposed exactly once before any subscription, then one live handle per role with a topic, with no old handle left live |
| `MediaPlayer.Player.constructor` | custom_components/mqtt_media_player/media_player.py:37-52 | the initial snapshot: volume 0.0, media type "music", everything else None; no topics and no subscriptions |
| `MediaPlayer.Player.HandleConfig` | custom_components/mqtt_media_player/media_player.py:54-125 | a dropped or raising message changes nothing but (on the late AttributeError) the name and makes no transport call; an applied one stores the name and topic maps and rebinds as Resubscribe states; the snapshot is never reset |
| `MediaPlayer.Player.Rebind` | custom_components/mqtt_media_player/media_player.py:106-125 | after the rebind, the stored handles are the new generation for the new topic maps |
| `MediaPlayer.Player.HandleAvailability` | custom_components/mqtt_media_player/media_player.py:196-198 | the flag becomes "payload equals the sentinel", one state write |
| `MediaPlayer.Player.HandleState` | custom_components/mqtt_media_player/media_player.py:200-202 | the state is the payload, one state write, nothing else changes |
| `MediaPlayer.Player.HandleTitle` | custom_components/mqtt_media_player/media_player.py:204-206 | the title is the payload, one state write, nothing else changes |
| `MediaPlayer.Player.HandleArtist` | custom_components/mqtt_media_player/media_player.py:208-210 | the artist is the payload, one state write, nothing else changes |
| `MediaPlayer.Player.HandleAlbum` | custom_components/mqtt_media_player/media_player.py:212-214 | the album is the payload, one state write, nothing else changes |
| `MediaPlayer.Player.HandleDuration` | custom_components/mqtt_media_player/media_player.py:216-222 | the duration is the parsed number or None, one state write |
| `MediaPlayer.Player.HandlePosition` | custom_components/mqtt_media_player/media_player.py:224-231 | the position and its timestamp on success; only the position, to None, on failure; one state write |
| `MediaPlayer.Player.HandleVolume` | custom_components/mqtt_media_player/media_player.py:233-238 | the volume is the parsed number or 0.0, one state write |
| `MediaPlayer.Player.HandleAlbumArt` | custom_components/mqtt_media_player/media_player.py:240-245 | the art is the decoding without line feeds or None, one state write |
| `MediaPlayer.Player.HandleMediaType` | custom_components/mqtt_media_player/media_player.py:247-249 | the media type is the payload, one state write |
| `MediaPlayer.Player.Deliver` | custom_components/mqtt_media_player/media_player.py:111-125 | a message on a live handle runs the handler of the role it was bound to, and the bindings stay valid |
| `MediaPlayer.Player.StateProperty` | custom_components/mqtt_media_player/media_player.py:155 | "unavailable" when availability is False, the raw state otherwise |
| `MediaPlayer.Player.MediaPlay` | custom_components/mqtt_media_player/media_player.py:251-252 | one publish of the stored play topic and payload; the snapshot is untouched; the result is the connection state, which the call leaves as it was |
| `MediaPlayer.Player.MediaPause` | custom_components/mqtt_media_player/media_player.py:254-255 | one publish of the stored pause topic and payload; the result is the connection state, which the call leaves as it was |
| `MediaPlayer.Player.MediaNextTrack` | custom_components/mqtt_media_player/media_player.py:257-258 | one publish of the stored next topic and payload; the result is the connection state, which the call leaves as it was |
| `MediaPlayer.Player.MediaPreviousTrack` | custom_components/mqtt_media_player/media_player.py:260-261 | one publish of the stored previous topic and payload; the result is the connection state, which the call leaves as it was |
| `MediaPlayer.Player.SetVolumeLevel` | custom_components/mqtt_media_player/media_player.py:263-265 | the volume becomes the level rounded to two places, and that same value is published to the volume-set topic; the result is the connection state, which the call leaves as it was |
| `MediaPlayer.Player.MediaSeek` | custom_components/mqtt_media_player/media_player.py:267-268 | the position, as given, is published to the seek topic; the result is the connection state, which the call leaves as it was |
| `MediaPlayer.Player.PlayMedia` | custom_components/mqtt_media_player/media_player.py:271-277 | the serialised {media_type, media_id} object, resolved first for a media-source id, is published to the play-media topic; the result is the connection state, which the call leaves as it was |
| `Discovery.FlowData` | custom_components/mqtt_media_player/__init__.py:53 | the flow data has exactly the keys name (the identity) and discovery_topic (the topic) |
| `Discovery.Decide` | custom_components/mqtt_media_player/__init__.py:21-59 | a message is dropped exactly when the topic lacks "/config", the payload is blank or it does not decode; otherwise the answer is "already configured" exactly when an entry has the identity as title, and else a flow with that identity and topic |
| `Discovery.IgnoredWithoutLookup` | custom_components/mqtt_media_player/__init__.py:24-30 | a dropped message is dropped whatever the registry holds |
| `Discovery.NoSecondFlow` | custom_components/mqtt_media_player/__init__.py:42-55 | once a started flow has produced its entry, no message with the same identity starts another flow |
| `Discovery.SameIdentitySameAnswer` | custom_components/mqtt_media_player/__init__.py:36-46 | messages with the same identity meet the same registry answer, whatever their nesting |
| `Discovery.DiscoveredPlayerTakesItsConfig` | custom_components/mqtt_media_player/media_player.py:26-29 | the player made for a discovered device listens on the discovery topic and does not drop that message |
| `Discovery.RetractionTopic` | custom_components/mqtt_media_player/__init__.py:75-81 | the stored discovery topic, else "homeassistant/media_player/<title>/config" |
| `Discovery.RetractsDiscoveredTopic` | custom_components/mqtt_media_player/__init__.py:75-78 | a discovered entry retracts exactly the topic it was discovered on, whose identity is its title |
| `Discovery.ManualRetractionIdentity` | custom_components/mqtt_media_player/__init__.py:79-81 | a hand-made entry's retraction topic is a config topic whose identity is the title (when the title holds no "/") |
| `Discovery.RetractionIsInert` | custom_components/mqtt_media_player/__init__.py:84 | the empty retraction payload is dropped by the discovery callback and by every player |
| `Discovery.Registry.FindEntry` | custom_components/mqtt_media_player/__init__.py:42-46 | the search loop answers true exactly when some entry's title is the identity |
| `Discovery.Registry.OnDiscoveryMessage` | custom_components/mqtt_media_player/__init__.py:21-59 | the callback's outcome is Decide's, and exactly one flow is started when, and only when, it says so |
| `Discovery.Registry.UnloadEntry` | custom_components/mqtt_media_player/__init__.py:71-89 | an empty retained payload is published to the retraction topic, and the platform is unloaded whether or not that publish fails; handles and the connection state are left as they were |

## Left out

- Floating point: numbers are `real`; `float()` and `round(…, 2)` are opaque, and NaN and infinities are not represented.
- `json.loads` and `base64.b64decode` are opaque partial functions (their results are `Option`, None for the exception raised); `json.dumps` is an opaque total function, since the object it serialises (two strings) always serialises. The decoder's non-validating handling of stray characters is not modelled.
- Media-source resolution is a parameter of `PlayMedia`; browsing media, the MD5 image hash and `async_get_media_image` are library calls and are not modelled.
- Async scheduling: every handler, command and callback is one atomic step. The race in which two discovery messages for one new device both start a flow before either entry exists is not modelled.
- `async_subscribe` is taken to always succeed; MQTT topic validation by the client is not modelled.
- A failing publish in a command raises in the source; the model reports it as `ok == false` and logs the attempt.
- `async_setup`, `async_setup_entry` and the subscription wiring of both callbacks are not modelled, apart from the choice of the player's config topic (`MediaPlayer.ConfigTopic`).
- The configuration flow's unique-id abort (config_flow.py) is Home Assistant's; the model takes only the rule that the entry's title is the flow's "name".
- The value `async_unload_platforms` returns is Home Assistant's; the model records the unload instead.
- Logging is not modelled.
- MediaPlayer.Player.MediaPlay, MediaPause, MediaNextTrack, MediaPreviousTrack, SetVolumeLevel, MediaSeek, PlayMedia: require a first applied configuration. Called before one, the source raises AttributeError on the missing command-topic dictionary; set-volume raises only after it has stored the rounded volume. That error path is not modelled.
- Mqtt.Transport.Publish: succeeds whenever the client is connected, whatever the topic. A command whose topic is not configured publishes to None, and the model reports that publish as successful when connected; how the real client treats a None topic is not modelled.
