/**
 * The three topic dictionaries a configuration message is turned into
 * (`_availability_topics`, `_state_topics`, `_cmd_topics`), the ten roles the
 * player subscribes to, and the bindings (topic, role) one generation of
 * subscriptions consists of.
 */
module TopicMaps {
  import opened Payload

  /** The roles of the subscription loop, one per `handle_*` update handler. */
  datatype Role =
    | State | Title | Artist | Album | Duration | Position | Volume | AlbumArt | MediaType | Availability

  /** The roles in the order the subscription loop visits them. */
  const Roles: seq<Role> := [State, Title, Artist, Album, Duration, Position, Volume, AlbumArt, MediaType, Availability]

  /** The position of a role in Roles. */
  function Ord(role: Role): nat {
    match role
    case State => 0
    case Title => 1
    case Artist => 2
    case Album => 3
    case Duration => 4
    case Position => 5
    case Volume => 6
    case AlbumArt => 7
    case MediaType => 8
    case Availability => 9
  }

  /** `_availability_topics`: the topic and the two sentinel payloads. */
  datatype AvailabilityTopics = AvailabilityTopics(topic: Json, available: Json, notAvailable: Json)

  /** `_state_topics`: one topic per telemetry role. */
  datatype StateTopics = StateTopics(
    state: Json, title: Json, artist: Json, album: Json, duration: Json,
    position: Json, volume: Json, albumArt: Json, mediaType: Json)

  /** `_cmd_topics`: command topics and the payloads of the fixed commands. */
  datatype CommandTopics = CommandTopics(
    volumeSet: Json,
    play: Json, playPayload: Json,
    pause: Json, pausePayload: Json,
    next: Json, nextPayload: Json,
    previous: Json, previousPayload: Json,
    playMedia: Json,
    seek: Json)

  datatype TopicMap = TopicMap(availability: AvailabilityTopics, state: StateTopics, cmd: CommandTopics)

  /**
   * The three dictionaries built from a decoded configuration object `config`
   * and its "availability" object `av` (empty when the key is absent).
   */
  function BuildTopicMap(config: map<string, Json>, av: map<string, Json>): (tm: TopicMap)
    ensures forall role :: role != Availability ==> StateTopicOf(tm.state, role) == Get(config, ConfigKey(role), JNull)
    ensures tm.availability.topic == Get(av, ConfigKey(Availability), JNull)
  {
    TopicMap(
      AvailabilityTopics(
        Get(av, "topic", JNull),
        Get(av, "payload_available", JString("online")),
        Get(av, "payload_not_available", JString("offline"))),
      StateTopics(
        Get(config, "state_state_topic", JNull),
        Get(config, "state_title_topic", JNull),
        Get(config, "state_artist_topic", JNull),
        Get(config, "state_album_topic", JNull),
        Get(config, "state_duration_topic", JNull),
        Get(config, "state_position_topic", JNull),
        Get(config, "state_volume_topic", JNull),
        Get(config, "state_albumart_topic", JNull),
        Get(config, "state_mediatype_topic", JNull)),
      CommandTopics(
        Get(config, "command_volume_topic", JNull),
        Get(config, "command_play_topic", JNull),
        Get(config, "command_play_payload", JString("Play")),
        Get(config, "command_pause_topic", JNull),
        Get(config, "command_pause_payload", JString("Pause")),
        Get(config, "command_next_topic", JNull),
        Get(config, "command_next_payload", JString("Next")),
        Get(config, "command_previous_topic", JNull),
        Get(config, "command_previous_payload", JString("Previous")),
        Get(config, "command_playmedia_topic", JNull),
        Get(config, "command_seek_position_topic", JNull)))
  }

  /** Unless the configuration overrides them, the fixed commands send Play, Pause, Next and Previous. */
  lemma DefaultCommandPayloads(config: map<string, Json>, av: map<string, Json>)
    ensures var cmd := BuildTopicMap(config, av).cmd;
      && ("command_play_payload" !in config ==> cmd.playPayload == JString("Play"))
      && ("command_pause_payload" !in config ==> cmd.pausePayload == JString("Pause"))
      && ("command_next_payload" !in config ==> cmd.nextPayload == JString("Next"))
      && ("command_previous_payload" !in config ==> cmd.previousPayload == JString("Previous"))
      && ("command_play_payload" in config ==> cmd.playPayload == config["command_play_payload"])
      && ("command_pause_payload" in config ==> cmd.pausePayload == config["command_pause_payload"])
      && ("command_next_payload" in config ==> cmd.nextPayload == config["command_next_payload"])
      && ("command_previous_payload" in config ==> cmd.previousPayload == config["command_previous_payload"])
  {
  }

  /**
   * Each command topic is read from its own configuration key, with no
   * default: an absent key leaves the command without a topic (None).
   */
  lemma ConfiguredCommandTopics(config: map<string, Json>, av: map<string, Json>)
    ensures var cmd := BuildTopicMap(config, av).cmd;
      && cmd.volumeSet == Get(config, "command_volume_topic", JNull)
      && cmd.play == Get(config, "command_play_topic", JNull)
      && cmd.pause == Get(config, "command_pause_topic", JNull)
      && cmd.next == Get(config, "command_next_topic", JNull)
      && cmd.previous == Get(config, "command_previous_topic", JNull)
      && cmd.playMedia == Get(config, "command_playmedia_topic", JNull)
      && cmd.seek == Get(config, "command_seek_position_topic", JNull)
  {
  }

  /** Unless the availability object overrides them, the sentinels are "online" and "offline". */
  lemma DefaultAvailabilitySentinels(config: map<string, Json>, av: map<string, Json>)
    ensures var a := BuildTopicMap(config, av).availability;
      && ("payload_available" !in av ==> a.available == JString("online"))
      && ("payload_not_available" !in av ==> a.notAvailable == JString("offline"))
      && ("payload_available" in av ==> a.available == av["payload_available"])
      && ("payload_not_available" in av ==> a.notAvailable == av["payload_not_available"])
  {
  }

  /** `_state_topics.get(key)` for the key the loop pairs with `role`. */
  function StateTopicOf(st: StateTopics, role: Role): Json {
    match role
    case State => st.state
    case Title => st.title
    case Artist => st.artist
    case Album => st.album
    case Duration => st.duration
    case Position => st.position
    case Volume => st.volume
    case AlbumArt => st.albumArt
    case MediaType => st.mediaType
    case Availability => JNull
  }

  /** `_availability_topics.get(key)` for the key the loop pairs with `role`. */
  function AvailabilityTopicOf(av: AvailabilityTopics, role: Role): Json {
    if role == Availability then av.topic else JNull
  }

  /**
   * `_state_topics.get(key) or _availability_topics.get(key)`: the
   * availability role falls through to the availability topic, and a state
   * role gets its own topic when truthy and None otherwise.
   */
  function TopicOf(tm: TopicMap, role: Role): (t: Json)
    ensures role == Availability ==> t == tm.availability.topic
    ensures role != Availability && Truthy(StateTopicOf(tm.state, role)) ==> t == StateTopicOf(tm.state, role)
    ensures role != Availability && !Truthy(StateTopicOf(tm.state, role)) ==> t == JNull
  {
    Or(StateTopicOf(tm.state, role), AvailabilityTopicOf(tm.availability, role))
  }

  /** The configuration key that names the topic of `role`. */
  function ConfigKey(role: Role): string {
    match role
    case State => "state_state_topic"
    case Title => "state_title_topic"
    case Artist => "state_artist_topic"
    case Album => "state_album_topic"
    case Duration => "state_duration_topic"
    case Position => "state_position_topic"
    case Volume => "state_volume_topic"
    case AlbumArt => "state_albumart_topic"
    case MediaType => "state_mediatype_topic"
    case Availability => "topic"
  }

  /**
   * A role has a topic exactly when its key is present in the configuration
   * (in the "availability" object for Availability) with a truthy value, and
   * that value is the topic.
   */
  lemma TopicOfConfigured(config: map<string, Json>, av: map<string, Json>, role: Role)
    ensures var source := if role == Availability then av else config;
      var t := TopicOf(BuildTopicMap(config, av), role);
      && (Truthy(t) <==> ConfigKey(role) in source && Truthy(source[ConfigKey(role)]))
      && (Truthy(t) ==> t == source[ConfigKey(role)])
  {
  }

  /** One subscription request: the topic and the role whose handler it feeds. */
  datatype Binding = Binding(topic: Json, role: Role)

  predicate Increasing(roles: seq<Role>) {
    forall i, j :: 0 <= i < j < |roles| ==> Ord(roles[i]) < Ord(roles[j])
  }

  /**
   * The bindings the subscription loop makes when it visits `roles`: one per
   * role whose topic is truthy, in the order visited.
   */
  function Bindings(tm: TopicMap, roles: seq<Role>): seq<Binding> {
    if roles == [] then []
    else
      var last := roles[|roles| - 1];
      var t := TopicOf(tm, last);
      Bindings(tm, roles[..|roles| - 1]) + (if Truthy(t) then [Binding(t, last)] else [])
  }

  /**
   * Every binding is for a visited role with a truthy topic, which it carries;
   * every visited role with a truthy topic has a binding; and when the roles
   * are visited in increasing order, so are the bindings.
   */
  lemma {:induction false} BindingsSpec(tm: TopicMap, roles: seq<Role>)
    ensures var r := Bindings(tm, roles);
      && |r| <= |roles|
      && (forall i :: 0 <= i < |r| ==> r[i].role in roles && Truthy(r[i].topic) && r[i].topic == TopicOf(tm, r[i].role))
      && (forall role :: role in roles && Truthy(TopicOf(tm, role)) ==> exists i :: 0 <= i < |r| && r[i].role == role)
      && (Increasing(roles) ==> forall i, j :: 0 <= i < j < |r| ==> Ord(r[i].role) < Ord(r[j].role))
  {
    if roles != [] {
      var init := roles[..|roles| - 1];
      var last := roles[|roles| - 1];
      var t := TopicOf(tm, last);
      BindingsSpec(tm, init);
      assert roles == init + [last];
      assert Increasing(roles) ==> Increasing(init) && forall role :: role in init ==> Ord(role) < Ord(last);
      var prefix := Bindings(tm, init);
      var r := Bindings(tm, roles);
      assert r == prefix + (if Truthy(t) then [Binding(t, last)] else []);
      assert forall i :: 0 <= i < |prefix| ==> r[i] == prefix[i];
      assert Truthy(t) ==> r[|prefix|].role == last;
      assert forall role :: role in roles && role != last ==> role in init;
    }
  }

  /** One more step of the subscription loop appends at most one binding. */
  lemma BindingsStep(tm: TopicMap, roles: seq<Role>, k: nat)
    requires k < |roles|
    ensures Bindings(tm, roles[..k + 1]) ==
      Bindings(tm, roles[..k]) + (if Truthy(TopicOf(tm, roles[k])) then [Binding(TopicOf(tm, roles[k]), roles[k])] else [])
  {
    assert roles[..k + 1][..k] == roles[..k];
  }

  lemma RolesIncreasing()
    ensures Increasing(Roles)
    ensures forall role :: role in Roles
  {
    assert forall i :: 0 <= i < |Roles| ==> Ord(Roles[i]) == i;
    forall role: Role ensures role in Roles {
      assert Roles[Ord(role)] == role;
    }
  }

  /** The bindings of one full pass of the subscription loop. */
  function Generation(tm: TopicMap): seq<Binding> {
    Bindings(tm, Roles)
  }

  /**
   * A generation holds exactly one binding per role whose topic is truthy,
   * in the order of Roles, each carrying that role's topic.
   */
  lemma GenerationOnePerRole(tm: TopicMap)
    ensures |Generation(tm)| <= |Roles|
    ensures forall role :: Truthy(TopicOf(tm, role)) <==> exists i :: 0 <= i < |Generation(tm)| && Generation(tm)[i].role == role
    ensures forall i :: 0 <= i < |Generation(tm)| ==> Generation(tm)[i].topic == TopicOf(tm, Generation(tm)[i].role)
    ensures forall i, j :: 0 <= i < j < |Generation(tm)| ==> Ord(Generation(tm)[i].role) < Ord(Generation(tm)[j].role)
  {
    RolesIncreasing();
    BindingsSpec(tm, Roles);
  }
}
