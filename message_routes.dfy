/**
 * The message endpoints' decisions (crates/api/src/routes/message.rs): who a new message is
 * broadcast to, who its mentions notify and with what notification, and the event a pin toggle
 * sends. The message store, the tenant membership check and the room member lookup
 * (crates/services/src/dao/message.rs and the tenant store are not part of this model) are inputs:
 * their answers are passed in as results. Notifications go through the modelled notification store.
 */
module MessageRoutes {
  import opened Wrappers
  import opened ApiErrors
  import opened Seqs
  import opened NotificationDao
  import Handler

  datatype MentionRequest = MentionRequest(users: seq<string>, everyone: bool, here: bool)

  datatype CreateMessageRequest = CreateMessageRequest(
    content: string,
    threadId: Option<string>,
    referencedMessageId: Option<string>,
    nonce: Option<string>,
    mentions: Option<MentionRequest>)

  /** The mentions stored with the message. */
  datatype Mentions = Mentions(users: seq<string>, roles: seq<string>, rooms: seq<string>, everyone: bool, here: bool)

  /** The ids among `ss` that parse, in order; the others are dropped. */
  function ParsedIds(ss: seq<string>): (r: seq<string>)
    ensures |r| <= |ss|
  {
    if ss == [] then []
    else
      (match Handler.ParseObjectId(ss[0]) case Some(id) => [id] case None => []) + ParsedIds(ss[1..])
  }

  /** An id is kept exactly when some entry parses to it; when every entry parses, none is lost. */
  lemma {:induction false} ParsedIdsExact(ss: seq<string>)
    ensures forall id :: id in ParsedIds(ss) <==> exists i :: 0 <= i < |ss| && Handler.ParseObjectId(ss[i]) == Some(id)
    ensures (forall i :: 0 <= i < |ss| ==> Handler.ParseObjectId(ss[i]).Some?) ==> |ParsedIds(ss)| == |ss|
  {
    if ss != [] {
      ParsedIdsExact(ss[1..]);
      forall id
        ensures id in ParsedIds(ss) <==> exists i :: 0 <= i < |ss| && Handler.ParseObjectId(ss[i]) == Some(id)
      {
        if exists i :: 0 <= i < |ss| && Handler.ParseObjectId(ss[i]) == Some(id) {
          var i :| 0 <= i < |ss| && Handler.ParseObjectId(ss[i]) == Some(id);
          if i > 0 {
            assert ss[1..][i - 1] == ss[i];
          }
        }
        if id in ParsedIds(ss[1..]) {
          var i :| 0 <= i < |ss[1..]| && Handler.ParseObjectId(ss[1..][i]) == Some(id);
          assert ss[i + 1] == ss[1..][i];
        }
      }
    }
  }

  /** The stored mentions: the parsed user ids, no roles or rooms, and the two flags as sent. */
  function MentionsOf(m: MentionRequest): (r: Mentions)
    ensures r.roles == [] && r.rooms == [] && r.everyone == m.everyone && r.here == m.here
    ensures forall id :: id in r.users ==> exists i :: 0 <= i < |m.users| && Handler.ParseObjectId(m.users[i]) == Some(id)
  {
    ParsedIdsExact(m.users);
    Mentions(ParsedIds(m.users), [], [], m.everyone, m.here)
  }

  function NotAuthor(author: string): string -> bool { (id: string) => id != author }

  /** `@everyone` notifies the broadcast list; otherwise the parsed mentioned ids other than the author. */
  function MentionTargets(m: MentionRequest, author: string, broadcastTo: seq<string>): seq<string>
  {
    if m.everyone then broadcastTo else Filter(ParsedIds(m.users), NotAuthor(author))
  }

  /**
   * The author is never notified of their own mention; `@everyone` reaches exactly the other room
   * members; otherwise exactly the mentioned ids that parse, other than the author, whether
   * they are room members or not.
   */
  lemma MentionTargetsExact(m: MentionRequest, author: string, members: seq<string>)
    ensures var targets := MentionTargets(m, author, Filter(members, NotAuthor(author)));
      author !in targets
      && (m.everyone ==> forall id :: id in targets <==> id in members && id != author)
      && (!m.everyone ==> forall id :: id in targets <==>
            id != author && exists i :: 0 <= i < |m.users| && Handler.ParseObjectId(m.users[i]) == Some(id))
  {
    FilterMembers(members, NotAuthor(author));
    FilterMembers(ParsedIds(m.users), NotAuthor(author));
    ParsedIdsExact(m.users);
  }

  // ---------------------------------------------------------------- mention notifications

  const BODY_LIMIT: nat := 200

  /** `chars().take(200)`: the content's first 200 characters, or all of it when shorter. */
  function NotificationBody(content: string): (r: string)
    ensures |r| <= BODY_LIMIT && r <= content
    ensures |content| <= BODY_LIMIT ==> r == content
    ensures |content| >= BODY_LIMIT ==> |r| == BODY_LIMIT
  {
    if |content| <= BODY_LIMIT then content else content[..BODY_LIMIT]
  }

  function MentionTitle(roomName: string): string { "Mentioned in #" + roomName }

  /** The link is built from the path segments as the request gave them. */
  function RoomLink(tenantHex: string, roomHex: string): string { "/tenant/" + tenantHex + "/room/" + roomHex }

  const MENTION_KIND := "mention"

  /** The notifications the mentions create, one per target in order, with ids from `startId` on. */
  function MentionNotifications(tenantId: string, targets: seq<string>, title: string, body: string, link: string,
                                source: NotificationSource, startId: nat, nowMs: int): (r: seq<Notification>)
    ensures |r| == |targets|
    ensures forall i :: 0 <= i < |r| ==> r[i].userId == targets[i] && r[i].id == startId + i
    ensures forall n :: n in r ==>
      (n.kind == MENTION_KIND && !n.isRead && n.readAt.None?
       && n.tenantId == tenantId && n.title == title && n.body == body && n.link == Some(link))
  {
    seq(|targets|, i requires 0 <= i < |targets| =>
      NewNotification(startId + i, tenantId, targets[i], MENTION_KIND, title, body, Some(link), source, nowMs))
  }

  /** The first `i + 1` mention notifications: the first `i`, then the one for target `i`. */
  lemma MentionPrefixSnoc(tenantId: string, targets: seq<string>, title: string, body: string, link: string,
                          source: NotificationSource, startId: nat, nowMs: int, i: nat)
    requires i < |targets|
    ensures var made := MentionNotifications(tenantId, targets, title, body, link, source, startId, nowMs);
      made[..i + 1] == made[..i] + [NewNotification(startId + i, tenantId, targets[i], MENTION_KIND, title, body, Some(link), source, nowMs)]
  {
    var made := MentionNotifications(tenantId, targets, title, body, link, source, startId, nowMs);
    assert made[..i + 1] == made[..i] + [made[i]];
  }

  // ---------------------------------------------------------------- create

  /** What `create` settles before it creates notifications. */
  datatype Prepared = Prepared(tenantId: string, messageId: string, mentions: Option<Mentions>, broadcastTo: seq<string>, targets: seq<string>)

  /** An optional id that is given but does not parse. */
  predicate BadOptionalId(s: Option<string>) { s.Some? && Handler.ParseObjectId(s.value).None? }

  /**
   * `create` up to the notifications: the path ids, membership, the optional thread and referenced
   * ids in that order; then the stored message and the room's members, whose failures pass
   * through; then the broadcast list (members but the author) and the mention targets.
   */
  function PrepareCreate(tenantHex: string, roomHex: string, author: string, req: CreateMessageRequest,
                         isMember: Result<bool, DaoError>, created: Result<string, DaoError>,
                         members: Result<seq<string>, DaoError>): Result<Prepared, ApiError>
  {
    match Handler.ParseObjectId(tenantHex)
    case None => Err(BadRequest("Invalid tenant_id"))
    case Some(tid) =>
      if Handler.ParseObjectId(roomHex).None? then Err(BadRequest("Invalid room_id"))
      else match isMember
        case Err(e) => Err(FromDao(e))
        case Ok(false) => Err(Forbidden("Not a member"))
        case Ok(true) =>
          if BadOptionalId(req.threadId) then Err(BadRequest("Invalid thread_id"))
          else if BadOptionalId(req.referencedMessageId) then Err(BadRequest("Invalid referenced_message_id"))
          else match created
            case Err(e) => Err(FromDao(e))
            case Ok(messageId) =>
              match members
              case Err(e) => Err(FromDao(e))
              case Ok(ms) =>
                var broadcastTo := Filter(ms, NotAuthor(author));
                var targets := if req.mentions.Some? then MentionTargets(req.mentions.value, author, broadcastTo) else [];
                Ok(Prepared(tid, messageId, if req.mentions.Some? then Some(MentionsOf(req.mentions.value)) else None, broadcastTo, targets))
  }

  /**
   * Each error has exactly its condition in the order the handler checks them; on success the
   * broadcast reaches exactly the room members other than the author, and nobody is notified
   * without mentions.
   */
  lemma CreateOutcome(tenantHex: string, roomHex: string, author: string, req: CreateMessageRequest,
                      isMember: Result<bool, DaoError>, created: Result<string, DaoError>, members: Result<seq<string>, DaoError>)
    ensures var r := PrepareCreate(tenantHex, roomHex, author, req, isMember, created, members);
      (r == Err(BadRequest("Invalid tenant_id")) <==> Handler.ParseObjectId(tenantHex).None?)
      && (Handler.ParseObjectId(tenantHex).Some? && Handler.ParseObjectId(roomHex).Some? && isMember == Ok(false)
          ==> r == Err(Forbidden("Not a member")))
      && (r.Ok? <==>
            Handler.ParseObjectId(tenantHex).Some? && Handler.ParseObjectId(roomHex).Some? && isMember == Ok(true)
            && !BadOptionalId(req.threadId) && !BadOptionalId(req.referencedMessageId) && created.Ok? && members.Ok?)
      && (r.Ok? ==>
            (r.value.messageId == created.value && r.value.tenantId == Handler.ParseObjectId(tenantHex).value
             && author !in r.value.broadcastTo && author !in r.value.targets
             && (forall id :: id in r.value.broadcastTo <==> id in members.value && id != author)
             && (req.mentions.None? ==> r.value.targets == [] && r.value.mentions.None?)))
  {
    if members.Ok? {
      FilterMembers(members.value, NotAuthor(author));
      if req.mentions.Some? {
        MentionTargetsExact(req.mentions.value, author, members.value);
      }
    }
  }

  /** The answer of `create`: what it settled, and the notifications it created in order. */
  datatype Posted = Posted(prepared: Prepared, notified: seq<Notification>)

  const CREATE_EVENT := "message:create"

  /**
   * `create`: on success every mention target gets one unread mention notification titled after
   * the room (an unknown room gives an empty name) whose body is the content's first 200
   * characters and whose link is the room's page; on failure no notification is created.
   */
  method CreateMessage(notes: NotificationStore, tenantHex: string, roomHex: string, author: string, req: CreateMessageRequest,
                       isMember: Result<bool, DaoError>, created: Result<string, DaoError>,
                       members: Result<seq<string>, DaoError>, roomName: Option<string>, nowMs: int)
    returns (r: Result<Posted, ApiError>)
    requires notes.Valid()
    modifies notes
    ensures notes.Valid()
    ensures var p := PrepareCreate(tenantHex, roomHex, author, req, isMember, created, members);
      if p.Err? then r == Err(p.error) && notes.notes == old(notes.notes) && notes.nextId == old(notes.nextId)
      else
        var made := MentionNotifications(p.value.tenantId, p.value.targets, MentionTitle(roomName.UnwrapOr("")),
                                         NotificationBody(req.content), RoomLink(tenantHex, roomHex),
                                         NotificationSource("message", p.value.messageId, Some(author)), old(notes.nextId), nowMs);
        r == Ok(Posted(p.value, made)) && notes.notes == old(notes.notes) + made
  {
    var p := PrepareCreate(tenantHex, roomHex, author, req, isMember, created, members);
    if p.Err? {
      return Err(p.error);
    }
    var prepared := p.value;
    var title := MentionTitle(roomName.UnwrapOr(""));
    var body := NotificationBody(req.content);
    var link := RoomLink(tenantHex, roomHex);
    var source := NotificationSource("message", prepared.messageId, Some(author));
    var notified := NotifyMentions(notes, prepared.tenantId, prepared.targets, title, body, link, source, nowMs);
    return Ok(Posted(prepared, notified));
  }

  /** The loop of `create` over the mention targets: one notification each, in target order. */
  method NotifyMentions(notes: NotificationStore, tenantId: string, targets: seq<string>, title: string, body: string,
                        link: string, source: NotificationSource, nowMs: int) returns (notified: seq<Notification>)
    requires notes.Valid()
    modifies notes
    ensures notes.Valid()
    ensures notified == MentionNotifications(tenantId, targets, title, body, link, source, old(notes.nextId), nowMs)
    ensures notes.notes == old(notes.notes) + notified && notes.nextId == old(notes.nextId) + |targets|
  {
    ghost var startId := notes.nextId;
    ghost var made := MentionNotifications(tenantId, targets, title, body, link, source, startId, nowMs);
    notified := [];
    var i := 0;
    while i < |targets|
      invariant 0 <= i <= |targets| && notes.Valid()
      invariant notified == made[..i]
      invariant notes.notes == old(notes.notes) + notified && notes.nextId == startId + i
    {
      var n := notes.Create(tenantId, targets[i], MENTION_KIND, title, body, Some(link), source, nowMs);
      MentionPrefixSnoc(tenantId, targets, title, body, link, source, startId, nowMs, i);
      assert notes.notes == old(notes.notes) + (notified + [n]);
      notified := notified + [n];
      i := i + 1;
    }
    assert made[..i] == made;
  }

  // ---------------------------------------------------------------- pin toggle

  /** The event type a pin toggle broadcasts. */
  function PinEventType(pinned: bool): (t: string)
    ensures pinned <==> t == "message:pin"
    ensures !pinned <==> t == "message:unpin"
  {
    if pinned then "message:pin" else "message:unpin"
  }

  datatype PinBroadcast = PinBroadcast(recipients: seq<string>, eventType: string, pinned: bool)

  /**
   * `toggle_pin`: the three path ids, then membership, then the store's toggle and the member
   * lookup, whose failures pass through; the event goes to every member, the actor included.
   */
  function TogglePin(tenantHex: string, roomHex: string, messageHex: string, pinned: bool,
                     isMember: Result<bool, DaoError>, toggled: Result<bool, DaoError>,
                     members: Result<seq<string>, DaoError>): Result<PinBroadcast, ApiError>
  {
    if Handler.ParseObjectId(tenantHex).None? then Err(BadRequest("Invalid tenant_id"))
    else if Handler.ParseObjectId(roomHex).None? then Err(BadRequest("Invalid room_id"))
    else if Handler.ParseObjectId(messageHex).None? then Err(BadRequest("Invalid message_id"))
    else match isMember
      case Err(e) => Err(FromDao(e))
      case Ok(false) => Err(Forbidden("Not a member"))
      case Ok(true) =>
        match toggled
        case Err(e) => Err(FromDao(e))
        case Ok(_) =>
          match members
          case Err(e) => Err(FromDao(e))
          case Ok(ms) => Ok(PinBroadcast(ms, PinEventType(pinned), pinned))
  }

  /**
   * A successful toggle announces the new state under its own event type to all members; unlike
   * a new message, the actor is not left out.
   */
  lemma TogglePinOutcome(tenantHex: string, roomHex: string, messageHex: string, pinned: bool,
                         isMember: Result<bool, DaoError>, toggled: Result<bool, DaoError>, members: Result<seq<string>, DaoError>)
    ensures var r := TogglePin(tenantHex, roomHex, messageHex, pinned, isMember, toggled, members);
      (r.Ok? <==>
         Handler.ParseObjectId(tenantHex).Some? && Handler.ParseObjectId(roomHex).Some? && Handler.ParseObjectId(messageHex).Some?
         && isMember == Ok(true) && toggled.Ok? && members.Ok?)
      && (r.Ok? ==>
            (r.value.recipients == members.value && r.value.pinned == pinned
             && (r.value.eventType == "message:pin" <==> pinned)))
      && ((Handler.ParseObjectId(tenantHex).Some? && Handler.ParseObjectId(roomHex).Some? && Handler.ParseObjectId(messageHex).Some?
           && isMember == Ok(false))
          ==> r == Err(Forbidden("Not a member")))
  {
  }
}
