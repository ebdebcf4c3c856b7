/**
 * The player's state snapshot and what each per-topic handler does to it:
 * string roles store the payload verbatim, numeric roles parse it and fall back
 * (volume to 0.0, duration and position to None), album art is base64-decoded
 * after line feeds are removed and falls back to None, and availability is a
 * comparison with the configured "available" sentinel.
 */
module PlayerState {
  import opened Wrappers
  import opened Payload
  import opened TopicMaps

  /** The wall-clock reading handed in by utcnow(). */
  type Time = int

  datatype Snapshot = Snapshot(
    available: Option<bool>,
    state: Option<string>,
    volume: real,
    title: Option<string>,
    artist: Option<string>,
    album: Option<string>,
    duration: Option<real>,
    position: Option<real>,
    positionUpdatedAt: Option<Time>,
    mediaType: string,
    albumArt: Option<Bytes>)

  /** The values the player constructor starts from. */
  const Initial: Snapshot :=
    Snapshot(None, None, 0.0, None, None, None, None, None, None, "music", None)

  /**
   * The snapshot after the handler of `role` received `payload`; `available`
   * is the configured "available" sentinel and `now` the time of receipt.
   * Once availability is known it stays known, and only the position
   * handler records a receipt time, which is then `now`.
   */
  function Update(s: Snapshot, role: Role, payload: string, available: Json, now: Time, codec: Codec): (u: Snapshot)
    ensures role == Availability ==> u.available.Some?
    ensures s.available.Some? ==> u.available.Some?
    ensures u.positionUpdatedAt != s.positionUpdatedAt ==> role == Position && u.positionUpdatedAt == Some(now)
    ensures role != AlbumArt ==> u.albumArt == s.albumArt
  {
    match role
    case Availability => s.(available := Some(JString(payload) == available))
    case State => s.(state := Some(payload))
    case Title => s.(title := Some(payload))
    case Artist => s.(artist := Some(payload))
    case Album => s.(album := Some(payload))
    case Duration => s.(duration := codec.toFloat(payload))
    case Position =>
      (match codec.toFloat(payload)
       case Some(x) => s.(position := Some(x), positionUpdatedAt := Some(now))
       case None => s.(position := None))
    case Volume => s.(volume := codec.toFloat(payload).GetOr(0.0))
    case AlbumArt => s.(albumArt := codec.b64decode(RemoveNewlines(payload)))
    case MediaType => s.(mediaType := payload)
  }

  /** The part of the snapshot owned by one role's handler. */
  datatype Field =
    | FlagField(flag: Option<bool>)
    | TextField(text: Option<string>)
    | LevelField(level: real)
    | SecondsField(seconds: Option<real>)
    | PositionField(at: Option<real>, updatedAt: Option<Time>)
    | ArtField(art: Option<Bytes>)
    | KindField(kind: string)

  function FieldOf(s: Snapshot, role: Role): Field {
    match role
    case Availability => FlagField(s.available)
    case State => TextField(s.state)
    case Title => TextField(s.title)
    case Artist => TextField(s.artist)
    case Album => TextField(s.album)
    case Duration => SecondsField(s.duration)
    case Position => PositionField(s.position, s.positionUpdatedAt)
    case Volume => LevelField(s.volume)
    case AlbumArt => ArtField(s.albumArt)
    case MediaType => KindField(s.mediaType)
  }

  /** The fields of the ten roles make up the whole snapshot. */
  lemma FieldsCoverSnapshot(s: Snapshot, t: Snapshot)
    requires forall role :: FieldOf(s, role) == FieldOf(t, role)
    ensures s == t
  {
    assert FieldOf(s, Availability) == FieldOf(t, Availability);
    assert FieldOf(s, State) == FieldOf(t, State);
    assert FieldOf(s, Title) == FieldOf(t, Title);
    assert FieldOf(s, Artist) == FieldOf(t, Artist);
    assert FieldOf(s, Album) == FieldOf(t, Album);
    assert FieldOf(s, Duration) == FieldOf(t, Duration);
    assert FieldOf(s, Position) == FieldOf(t, Position);
    assert FieldOf(s, Volume) == FieldOf(t, Volume);
    assert FieldOf(s, AlbumArt) == FieldOf(t, AlbumArt);
    assert FieldOf(s, MediaType) == FieldOf(t, MediaType);
  }

  /** Each handler changes only its own role's field. */
  lemma UpdateIsLocal(s: Snapshot, role: Role, payload: string, available: Json, now: Time, codec: Codec)
    ensures forall other :: other != role ==> FieldOf(Update(s, role, payload, available, now, codec), other) == FieldOf(s, other)
  {
  }

  /** The state, title, artist, album and media-type handlers store the payload verbatim. */
  lemma StringRolesVerbatim(s: Snapshot, payload: string, available: Json, now: Time, codec: Codec)
    ensures Update(s, State, payload, available, now, codec).state == Some(payload)
    ensures Update(s, Title, payload, available, now, codec).title == Some(payload)
    ensures Update(s, Artist, payload, available, now, codec).artist == Some(payload)
    ensures Update(s, Album, payload, available, now, codec).album == Some(payload)
    ensures Update(s, MediaType, payload, available, now, codec).mediaType == payload
  {
  }

  /**
   * Numeric payloads: a parse stores the number; a failed parse stores 0.0
   * for volume and None for duration and position, and leaves the position
   * timestamp alone, which is refreshed only by a successful parse.
   */
  lemma NumericFallbacks(s: Snapshot, payload: string, available: Json, now: Time, codec: Codec)
    ensures codec.toFloat(payload).None? ==>
      && Update(s, Volume, payload, available, now, codec).volume == 0.0
      && Update(s, Duration, payload, available, now, codec).duration == None
      && Update(s, Position, payload, available, now, codec).position == None
      && Update(s, Position, payload, available, now, codec).positionUpdatedAt == s.positionUpdatedAt
    ensures codec.toFloat(payload).Some? ==>
      && Update(s, Volume, payload, available, now, codec).volume == codec.toFloat(payload).value
      && Update(s, Duration, payload, available, now, codec).duration == codec.toFloat(payload)
      && Update(s, Position, payload, available, now, codec).position == codec.toFloat(payload)
      && Update(s, Position, payload, available, now, codec).positionUpdatedAt == Some(now)
  {
  }

  /**
   * Album art is the decoding of the payload with every line feed removed,
   * or None when that decoding fails; line feeds never reach the decoder.
   */
  lemma AlbumArtDecoding(s: Snapshot, payload: string, available: Json, now: Time, codec: Codec)
    ensures var art := Update(s, AlbumArt, payload, available, now, codec).albumArt;
      && art == codec.b64decode(RemoveNewlines(payload))
      && (codec.b64decode(RemoveNewlines(payload)).None? ==> art == None)
      && '\n' !in RemoveNewlines(payload)
  {
  }

  /**
   * The availability handler sets the flag to exactly "the payload equals the
   * configured available sentinel": any other payload means unavailable.
   */
  lemma AvailabilityIsBinary(s: Snapshot, payload: string, available: Json, now: Time, codec: Codec)
    ensures Update(s, Availability, payload, available, now, codec).available == Some(available == JString(payload))
    ensures Update(s, Availability, payload, available, now, codec).available != None
  {
  }

  /**
   * The `state` property: "unavailable" when the availability flag is False,
   * the raw state otherwise, also while availability is still unknown.
   */
  function Displayed(s: Snapshot): (r: Option<string>)
    ensures s.available == Some(false) ==> r == Some("unavailable")
    ensures s.available != Some(false) ==> r == s.state
    ensures r == Some("unavailable") <==> s.available == Some(false) || s.state == Some("unavailable")
  {
    if s.available == Some(false) then Some("unavailable") else s.state
  }
}
