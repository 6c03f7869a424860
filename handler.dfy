/**
 * The pure decisions of the WebSocket message handler (crates/api/src/ws/handler.rs): the
 * checks of `media:join` and `media:produce`, the TURN servers offered to a joining client,
 * the default source of a producer, the parsing of `media:transcript_toggle`, and who is told
 * that a peer left. Message payloads are JSON values; the media router, the HMAC signer and
 * the clock are inputs.
 */
module Handler {
  import opened Wrappers
  import opened Text

  /** A JSON value, as far as the handler inspects one. */
  datatype Json = JObject(fields: map<string, Json>) | JString(s: string) | JBool(b: bool) | JOther

  /** `data.get(name)`: a field of an object payload; none for a missing payload or a non-object. */
  function Field(data: Option<Json>, name: string): Option<Json>
  {
    if data.Some? && data.value.JObject? && name in data.value.fields then Some(data.value.fields[name]) else None
  }

  /** `.get(name).and_then(as_str)`. */
  function StrField(data: Option<Json>, name: string): (r: Option<string>)
    ensures r.Some? <==> Field(data, name).Some? && Field(data, name).value.JString?
  {
    match Field(data, name)
    case Some(JString(s)) => Some(s)
    case _ => None
  }

  predicate IsHexChar(c: char) { IsAsciiDigit(c) || 'a' <= c <= 'f' || 'A' <= c <= 'F' }

  /** `ObjectId::parse_str`: 24 hex digits of either case; the id is kept as `to_hex` renders it. */
  function ParseObjectId(s: string): (r: Option<string>)
    ensures r.Some? <==> |s| == 24 && forall i :: 0 <= i < |s| ==> IsHexChar(s[i])
  {
    if |s| == 24 && forall i :: 0 <= i < |s| ==> IsHexChar(s[i]) then Some(ToLower(s)) else None
  }

  /** A parsed id is 24 lower-case hex digits and holds no ':'. */
  lemma ParsedIdShape(s: string)
    requires ParseObjectId(s).Some?
    ensures var id := ParseObjectId(s).value;
      |id| == 24 && (forall i :: 0 <= i < |id| ==> IsAsciiDigit(id[i]) || 'a' <= id[i] <= 'f') && ':' !in id
  {
    var id := ToLower(s);
    forall i | 0 <= i < |id| ensures IsAsciiDigit(id[i]) || 'a' <= id[i] <= 'f' {
      assert id[i] == LowerChar(s[i]);
    }
  }

  // ---------------------------------------------------------------- media:join

  datatype JoinOutcome = JoinFailed(message: string) | Joined(roomHex: string)

  /**
   * The checks of `handle_media_join`, in order: the room id is present, parses, names a
   * room the media router has, and its transports are created.
   */
  function MediaJoin(data: Option<Json>, rooms: set<string>, transportError: Option<string>): (r: JoinOutcome)
  {
    match StrField(data, "room_id")
    case None => JoinFailed("Missing room_id")
    case Some(s) =>
      match ParseObjectId(s)
      case None => JoinFailed("Invalid room_id")
      case Some(rid) =>
        if rid !in rooms then JoinFailed("Room does not exist")
        else if transportError.Some? then JoinFailed("Failed to create transports: " + transportError.value)
        else Joined(rid)
  }

  /**
   * Each error has exactly its condition, and the first three are decided before any transport
   * is created: they do not depend on what creating transports would give.
   */
  lemma MediaJoinOrder(data: Option<Json>, rooms: set<string>, e1: Option<string>, e2: Option<string>)
    ensures MediaJoin(data, rooms, e1) == JoinFailed("Missing room_id") <==> StrField(data, "room_id").None?
    ensures MediaJoin(data, rooms, e1) == JoinFailed("Invalid room_id") <==>
      StrField(data, "room_id").Some? && ParseObjectId(StrField(data, "room_id").value).None?
    ensures MediaJoin(data, rooms, e1) == JoinFailed("Room does not exist") <==>
      StrField(data, "room_id").Some? && ParseObjectId(StrField(data, "room_id").value).Some?
      && ParseObjectId(StrField(data, "room_id").value).value !in rooms
    ensures MediaJoin(data, rooms, e1).Joined? <==>
      StrField(data, "room_id").Some? && ParseObjectId(StrField(data, "room_id").value).Some?
      && ParseObjectId(StrField(data, "room_id").value).value in rooms && e1.None?
    ensures MediaJoin(data, rooms, e1).Joined? ==> MediaJoin(data, rooms, e1).roomHex in rooms
    ensures MediaJoin(data, rooms, e1) != MediaJoin(data, rooms, e2) ==>
      StrField(data, "room_id").Some? && ParseObjectId(StrField(data, "room_id").value).Some?
      && ParseObjectId(StrField(data, "room_id").value).value in rooms
  {
    if e1.Some? {
      var m := "Failed to create transports: " + e1.value;
      assert m[0] == 'F';
    }
  }

  // ---------------------------------------------------------------- TURN

  datatype TurnSettings = TurnSettings(url: Option<string>, sharedSecret: Option<string>,
                                       username: Option<string>, password: Option<string>, forceRelay: Option<bool>)

  datatype IceServer = IceServer(urls: seq<string>, username: string, credential: string)

  /** Lifetime of an ephemeral TURN username, in seconds. */
  const TURN_TTL_SECS: nat := 86400

  /** The TLS variant: "turn:" becomes "turns:" once and every ":3478" becomes ":5349". */
  function TurnsUrl(url: string): string
    requires StartsWith(url, "turn:")
  {
    ReplaceAll("turns:" + url[5..], ":3478", ":5349")
  }

  /** The URL list: the configured URL, then its TCP and TLS variants for a plain "turn:" URL. */
  function TurnUrls(url: string): seq<string>
  {
    if StartsWith(url, "turn:") && !Contains(url, "?transport=") then
      [url, url + "?transport=tcp", TurnsUrl(url) + "?transport=tcp"]
    else [url]
  }

  lemma TurnsPrefix(url: string)
    requires StartsWith(url, "turn:")
    ensures StartsWith(TurnsUrl(url), "turns:")
  {
    var rest := url[5..];
    var from, to := ":3478", ":5349";
    assert "turns:" + rest == "turns" + ([':'] + rest);
    ReplaceAllPrefix("turns", [':'] + rest, from, to);
    var tail := ReplaceAll([':'] + rest, from, to);
    assert tail[0] == ':' by {
      assert ([':'] + rest)[1..] == rest;
    }
    assert TurnsUrl(url) == "turns" + tail;
  }

  /**
   * The URL list always starts with the configured URL; the two variants are added exactly
   * for a "turn:" URL with no "?transport=", the second being a "turns:" URL over TCP.
   */
  lemma TurnUrlsShape(url: string)
    ensures |TurnUrls(url)| == 1 || |TurnUrls(url)| == 3
    ensures TurnUrls(url)[0] == url
    ensures |TurnUrls(url)| == 3 <==> StartsWith(url, "turn:") && !Contains(url, "?transport=")
    ensures |TurnUrls(url)| == 3 ==>
      TurnUrls(url)[1] == url + "?transport=tcp"
      && StartsWith(TurnUrls(url)[2], "turns:")
      && TurnUrls(url)[2][|TurnUrls(url)[2]| - 14..] == "?transport=tcp"
  {
    if StartsWith(url, "turn:") && !Contains(url, "?transport=") {
      TurnsPrefix(url);
      var t := TurnsUrl(url);
      assert (t + "?transport=tcp")[..6] == t[..6];
      assert (t + "?transport=tcp")[|t + "?transport=tcp"| - 14..] == "?transport=tcp";
    }
  }

  /**
   * The TURN username and credential: with a shared secret, "<expiry>:<user hex>" expiring a
   * day after `nowSecs`, signed by `sign`; otherwise the static ones, empty when unset.
   */
  function TurnCredentials(t: TurnSettings, nowSecs: nat, userHex: string, sign: (string, string) -> string): (string, string)
  {
    if t.sharedSecret.Some? then
      var username := NatToString(nowSecs + TURN_TTL_SECS) + ([':'] + userHex);
      (username, sign(t.sharedSecret.value, username))
    else (t.username.UnwrapOr(""), t.password.UnwrapOr(""))
  }

  /** `ice_servers`: none without a TURN URL, else one server with the URL list and the credentials. */
  function IceServers(t: TurnSettings, nowSecs: nat, userHex: string, sign: (string, string) -> string): (r: seq<IceServer>)
    ensures |r| <= 1
  {
    if t.url.None? then []
    else
      var (username, credential) := TurnCredentials(t, nowSecs, userHex, sign);
      [IceServer(TurnUrls(t.url.value), username, credential)]
  }

  function ForceRelay(t: TurnSettings): bool
  {
    t.forceRelay.UnwrapOr(false)
  }

  /**
   * An ephemeral username splits at its ':' into the expiry, a day after `nowSecs`, and the
   * user's hex; without a secret the configured username, or "", is used as it is.
   */
  lemma TurnUsernameShape(t: TurnSettings, nowSecs: nat, userHex: string, sign: (string, string) -> string)
    requires ':' !in userHex
    ensures var (username, credential) := TurnCredentials(t, nowSecs, userHex, sign);
      t.sharedSecret.Some? ==>
        |SplitOn(username, ':')| == 2
        && AllDigits(SplitOn(username, ':')[0])
        && DigitsValue(SplitOn(username, ':')[0]) == nowSecs + TURN_TTL_SECS
        && SplitOn(username, ':')[1] == userHex
        && credential == sign(t.sharedSecret.value, username)
    ensures var (username, credential) := TurnCredentials(t, nowSecs, userHex, sign);
      t.sharedSecret.None? ==>
        username == (if t.username.Some? then t.username.value else "")
        && credential == (if t.password.Some? then t.password.value else "")
  {
    if t.sharedSecret.Some? {
      var expiry := NatToString(nowSecs + TURN_TTL_SECS);
      forall i | 0 <= i < |expiry| ensures expiry[i] != ':' {
        assert IsAsciiDigit(expiry[i]);
      }
      SplitOnCons(expiry, ':', userHex);
      SplitOnAbsent(userHex, ':');
      NatToStringRoundTrip(nowSecs + TURN_TTL_SECS);
    }
  }

  /** Without a TURN URL no server is offered; with one, exactly one, whose list starts with it. */
  lemma IceServersShape(t: TurnSettings, nowSecs: nat, userHex: string, sign: (string, string) -> string)
    ensures IceServers(t, nowSecs, userHex, sign) == [] <==> t.url.None?
    ensures t.url.Some? ==> IceServers(t, nowSecs, userHex, sign)[0].urls[0] == t.url.value
    ensures t.forceRelay.None? ==> !ForceRelay(t)
  {
    if t.url.Some? {
      TurnUrlsShape(t.url.value);
    }
  }

  // ---------------------------------------------------------------- media:produce

  datatype MediaKind = Audio | Video

  /** `MediaKind` as it deserialises: "audio" or "video". */
  function ParseKind(j: Option<Json>): Option<MediaKind>
  {
    match j
    case Some(JString(s)) => if s == "audio" then Some(Audio) else if s == "video" then Some(Video) else None
    case _ => None
  }

  /** The source of a producer: the one given, else "audio" for audio and "camera" for video. */
  function ProduceSource(data: Option<Json>, kind: MediaKind): (r: string)
    ensures StrField(data, "source").Some? ==> r == StrField(data, "source").value
    ensures StrField(data, "source").None? ==> r == (if kind == Audio then "audio" else "camera")
  {
    StrField(data, "source").UnwrapOr(if kind == Audio then "audio" else "camera")
  }

  datatype ProduceRequest = ProduceRequest(roomHex: string, kind: MediaKind, source: string)

  /**
   * The checks of `handle_media_produce`, in order: a payload, a room id, a kind, RTP
   * parameters that deserialise, and a room id that parses (checked after the source is read).
   */
  function MediaProduce(data: Option<Json>, rtpParametersValid: bool): (r: Result<ProduceRequest, string>)
    ensures r.Ok? ==> r.value.source == ProduceSource(data, r.value.kind)
    ensures r.Ok? ==> data.Some? && ParseKind(Field(data, "kind")) == Some(r.value.kind)
  {
    if data.None? then Err("Missing data")
    else if StrField(data, "room_id").None? then Err("Missing room_id")
    else if ParseKind(Field(data, "kind")).None? then Err("Invalid kind")
    else if !rtpParametersValid then Err("Invalid rtp_parameters")
    else
      var kind := ParseKind(Field(data, "kind")).value;
      var source := ProduceSource(data, kind);
      match ParseObjectId(StrField(data, "room_id").value)
      case None => Err("Invalid room_id")
      case Some(rid) => Ok(ProduceRequest(rid, kind, source))
  }

  /** A produce fails with "Invalid kind" exactly when the payload names a room but no valid kind. */
  lemma MediaProduceKind(data: Option<Json>, rtpParametersValid: bool)
    ensures MediaProduce(data, rtpParametersValid) == Err("Invalid kind") <==>
      data.Some? && StrField(data, "room_id").Some? && ParseKind(Field(data, "kind")).None?
    ensures MediaProduce(data, rtpParametersValid) == Err("Missing data") <==> data.None?
  {
  }

  // ---------------------------------------------------------------- media:transcript_toggle

  datatype Toggle = Toggle(roomHex: string, enabled: bool, model: Option<string>)

  /** The model asked for: kept only when it is "whisper" or "canary". */
  function RequestedModel(data: Option<Json>): (r: Option<string>)
    ensures r.Some? <==> StrField(data, "model") == Some("whisper") || StrField(data, "model") == Some("canary")
    ensures r.Some? ==> r == StrField(data, "model")
  {
    match StrField(data, "model")
    case Some(s) => if s == "whisper" || s == "canary" then Some(s) else None
    case None => None
  }

  /** `handle_transcript_toggle`'s reading of the payload; none stops the handler silently. */
  function ParseToggle(data: Option<Json>): (r: Option<Toggle>)
    ensures r.Some? <==> data.Some? && StrField(data, "room_id").Some? && ParseObjectId(StrField(data, "room_id").value).Some?
    ensures r.Some? ==> r.value.model == RequestedModel(data)
    ensures r.Some? ==> (r.value.enabled <==> Field(data, "enabled") == Some(JBool(true)))
  {
    if data.None? then None
    else match StrField(data, "room_id")
      case None => None
      case Some(s) =>
        var enabled := match Field(data, "enabled") case Some(JBool(b)) => b case _ => false;
        match ParseObjectId(s)
        case None => None
        case Some(rid) => Some(Toggle(rid, enabled, RequestedModel(data)))
  }

  /** What the toggle does to the engine: enable with a model or disable the room. */
  datatype EngineAction = EnableRoom(roomHex: string, model: string) | DisableRoom(roomHex: string)

  /** Enabling uses the requested model, else the engine's default backend. */
  function ToggleAction(t: Toggle, defaultBackend: string): (r: EngineAction)
    ensures r.roomHex == t.roomHex
    ensures r.EnableRoom? <==> t.enabled
    ensures r.EnableRoom? ==> r.model == (if t.model.Some? then t.model.value else defaultBackend)
  {
    if t.enabled then EnableRoom(t.roomHex, t.model.UnwrapOr(defaultBackend)) else DisableRoom(t.roomHex)
  }

  /** An enable request with no model field, or with an unknown model, falls back to the default backend. */
  lemma ToggleDefaults(data: Option<Json>, defaultBackend: string)
    requires ParseToggle(data).Some?
    requires StrField(data, "model").None? || StrField(data, "model").value !in {"whisper", "canary"}
    ensures ParseToggle(data).value.model.None?
    ensures Field(data, "enabled").None? ==> !ParseToggle(data).value.enabled
    ensures ParseToggle(data).value.enabled ==> ToggleAction(ParseToggle(data).value, defaultBackend).model == defaultBackend
  {
  }

  // ---------------------------------------------------------------- peer_left

  /** `get_other_connection_ids`: the room's connections other than this one, in order. */
  function OtherConnections(roomConnections: seq<string>, connectionId: string): (r: seq<string>)
    ensures |r| <= |roomConnections|
  {
    if roomConnections == [] then []
    else if roomConnections[0] == connectionId then OtherConnections(roomConnections[1..], connectionId)
    else [roomConnections[0]] + OtherConnections(roomConnections[1..], connectionId)
  }

  lemma {:induction false} OtherConnectionsExact(roomConnections: seq<string>, connectionId: string)
    ensures forall c :: c in OtherConnections(roomConnections, connectionId) <==> c in roomConnections && c != connectionId
    decreases |roomConnections|
  {
    if roomConnections != [] {
      OtherConnectionsExact(roomConnections[1..], connectionId);
      assert roomConnections == [roomConnections[0]] + roomConnections[1..];
    }
  }

  /**
   * The connections sent `media:peer_left` when a connection leaves its room, by `media:leave`
   * or by disconnecting: the room's other connections, taken before the participant is closed;
   * none when it was in no room.
   */
  function PeerLeftTargets(room: Option<seq<string>>, connectionId: string): seq<string>
  {
    if room.None? then [] else OtherConnections(room.value, connectionId)
  }

  /** The leaver is never told, every other connection of the room is, and nobody when it was alone. */
  lemma PeerLeftTargeting(room: Option<seq<string>>, connectionId: string)
    ensures connectionId !in PeerLeftTargets(room, connectionId)
    ensures room.Some? ==> forall c :: c in room.value && c != connectionId ==> c in PeerLeftTargets(room, connectionId)
    ensures room.Some? && (forall c :: c in room.value ==> c == connectionId) ==> PeerLeftTargets(room, connectionId) == []
  {
    if room.Some? {
      OtherConnectionsExact(room.value, connectionId);
      if forall c :: c in room.value ==> c == connectionId {
        var others := PeerLeftTargets(room, connectionId);
        if others != [] {
          assert others[0] in others;
        }
      }
    }
  }
}
