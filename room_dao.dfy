/**
 * The room store (crates/services/src/dao/room.rs): dot-separated room paths and their ancestors,
 * the escaping of an explore query, meeting codes, room membership with its member counter, and
 * call participation with its sessions and participant counter. The rooms and the memberships are
 * maps; a membership is keyed by (room, user), which the unique index on room_members makes a key.
 * Ids are the hex of object ids, times are milliseconds and counters are unbounded integers.
 */
module RoomDao {
  import opened Wrappers
  import opened Text
  import opened ApiErrors

  // ---------------------------------------------------------------- paths

  /** The path of a new room: the parent's path, a dot and the name; a root room's path is its name. */
  function ChildPath(parentPath: Option<string>, name: string): string
  {
    if parentPath.Some? then parentPath.value + "." + name else name
  }

  /** Joining back `parts` around one split point. */
  lemma {:induction false} JoinSplitAt(parts: seq<string>, k: nat, sep: string)
    requires 0 < k < |parts|
    ensures Join(parts, sep) == Join(parts[..k], sep) + sep + Join(parts[k..], sep)
    decreases k
  {
    if k == 1 {
      assert parts[..1] == [parts[0]];
    } else {
      var head, mid, tail := parts[0], Join(parts[1..k], sep), Join(parts[k..], sep);
      JoinSplitAt(parts[1..], k - 1, sep);
      assert parts[1..][..k - 1] == parts[1..k];
      assert parts[1..][k - 1..] == parts[k..];
      assert Join(parts, sep) == head + sep + (mid + sep + tail);
      assert parts[..k][1..] == parts[1..k];
      assert Join(parts[..k], sep) == head + sep + mid;
      assert head + sep + (mid + sep + tail) == (head + sep + mid) + sep + tail;
    }
  }

  /** Splitting around a separator splits each side on its own. */
  lemma {:induction false} SplitOnAppend(a: string, c: char, b: string)
    ensures SplitOn(a + ([c] + b), c) == SplitOn(a, c) + SplitOn(b, c)
    decreases |a|
  {
    match IndexOf(a, c)
    case None => SplitOnCons(a, c, b);
    case Some(i) =>
      var x, rest := a[..i], a[i + 1..];
      assert a == x + ([c] + rest);
      SplitOnAppend(rest, c, b);
      SplitOnAppendStep(x, c, rest, b);
  }

  lemma SplitOnAppendStep(x: string, c: char, rest: string, b: string)
    requires c !in x
    requires SplitOn(rest + ([c] + b), c) == SplitOn(rest, c) + SplitOn(b, c)
    ensures SplitOn((x + ([c] + rest)) + ([c] + b), c) == SplitOn(x + ([c] + rest), c) + SplitOn(b, c)
  {
    ConsAssoc(x, c, rest, b);
    SplitOnCons(x, c, rest + ([c] + b));
    SplitOnCons(x, c, rest);
    PartsAssoc(x, SplitOn(rest, c), SplitOn(b, c));
  }

  lemma ConsAssoc(x: string, c: char, rest: string, b: string)
    ensures (x + ([c] + rest)) + ([c] + b) == x + ([c] + (rest + ([c] + b)))
  {
  }

  lemma PartsAssoc(x: string, p: seq<string>, q: seq<string>)
    ensures [x] + (p + q) == ([x] + p) + q
  {
  }

  /** The ancestor paths of a path split into `parts`: the first k parts joined, for k = 1 .. |parts| - 1. */
  function AncestorPaths(parts: seq<string>): (r: seq<string>)
    ensures |r| == if |parts| <= 1 then 0 else |parts| - 1
  {
    if |parts| <= 1 then [] else AncestorPaths(parts[..|parts| - 1]) + [Join(parts[..|parts| - 1], ".")]
  }

  function Ancestors(path: string): seq<string>
  {
    AncestorPaths(SplitOn(path, '.'))
  }

  lemma {:induction false} AncestorAt(parts: seq<string>, i: nat)
    requires i < |parts| - 1
    ensures AncestorPaths(parts)[i] == Join(parts[..i + 1], ".")
    decreases |parts|
  {
    var init := parts[..|parts| - 1];
    if i < |parts| - 2 {
      AncestorAt(init, i);
      assert init[..i + 1] == parts[..i + 1];
    } else {
      assert init == parts[..i + 1];
    }
  }

  /**
   * The ancestors of a path of k segments are its k - 1 proper prefixes that end before a dot,
   * shortest first, each the previous one extended by one segment; a path without a dot has none.
   */
  lemma AncestorsShape(path: string)
    ensures var parts, a := SplitOn(path, '.'), Ancestors(path);
      |a| == |parts| - 1
      && ('.' !in path ==> a == [])
      && (|a| > 0 ==> a[0] == parts[0])
      && (forall i :: 0 <= i < |a| - 1 ==> a[i + 1] == a[i] + "." + parts[i + 1])
      && (forall i :: 0 <= i < |a| ==> StartsWith(path, a[i] + "."))
  {
    var parts, a := SplitOn(path, '.'), Ancestors(path);
    if '.' !in path {
      SplitOnAbsent(path, '.');
    }
    if |a| > 0 {
      AncestorAt(parts, 0);
      assert parts[..1] == [parts[0]];
    }
    forall i | 0 <= i < |a| - 1
      ensures a[i + 1] == a[i] + "." + parts[i + 1]
    {
      AncestorStep(parts, i);
    }
    forall i | 0 <= i < |a|
      ensures StartsWith(path, a[i] + ".")
    {
      AncestorPrefix(path, i);
    }
  }

  /** Each ancestor extends the one before it by a dot and the next part. */
  lemma AncestorStep(parts: seq<string>, i: nat)
    requires i + 2 < |parts|
    ensures AncestorPaths(parts)[i + 1] == AncestorPaths(parts)[i] + "." + parts[i + 1]
  {
    AncestorAt(parts, i);
    AncestorAt(parts, i + 1);
    JoinSplitAt(parts[..i + 2], i + 1, ".");
    assert parts[..i + 2][..i + 1] == parts[..i + 1];
    assert parts[..i + 2][i + 1..] == [parts[i + 1]];
  }

  /** Each ancestor, followed by a dot, begins the path. */
  lemma AncestorPrefix(path: string, i: nat)
    requires i + 1 < |SplitOn(path, '.')|
    ensures StartsWith(path, Ancestors(path)[i] + ".")
  {
    var parts, a := SplitOn(path, '.'), Ancestors(path);
    SplitOnJoin(path, '.');
    AncestorAt(parts, i);
    JoinSplitAt(parts, i + 1, ".");
    assert path == (a[i] + ".") + Join(parts[i + 1..], ".");
  }

  /** A child room's ancestors are its parent's ancestors and then the parent itself. */
  lemma ChildAncestors(parentPath: string, name: string)
    requires '.' !in name
    ensures Ancestors(ChildPath(Some(parentPath), name)) == Ancestors(parentPath) + [parentPath]
  {
    var child := ChildPath(Some(parentPath), name);
    assert child == parentPath + (['.'] + name);
    SplitOnAppend(parentPath, '.', name);
    SplitOnAbsent(name, '.');
    AncestorPathsSnoc(SplitOn(parentPath, '.'), name);
    SplitOnJoin(parentPath, '.');
  }

  lemma AncestorPathsSnoc(parts: seq<string>, name: string)
    requires |parts| >= 1
    ensures AncestorPaths(parts + [name]) == AncestorPaths(parts) + [Join(parts, ".")]
  {
    assert (parts + [name])[..|parts|] == parts;
  }

  /** `get_ancestors`' path list, built segment by segment as the source's loop does. */
  method AncestorPathList(path: string) returns (paths: seq<string>)
    ensures paths == Ancestors(path)
  {
    var parts := SplitOn(path, '.');
    if |parts| <= 1 {
      return [];
    }
    paths := [];
    var i := 1;
    while i < |parts|
      invariant 1 <= i <= |parts|
      invariant paths == AncestorPaths(parts[..i])
    {
      assert parts[..i + 1][..i] == parts[..i];
      paths := paths + [Join(parts[..i], ".")];
      i := i + 1;
    }
    assert parts[..i] == parts;
  }

  // ---------------------------------------------------------------- explore

  /** The characters `explore` escapes before using the query as a regular expression. */
  const REGEX_META: string := ".*+?^${}()|[]\\"

  /** `explore`'s escape: a backslash before each special character, every other character as it is. */
  function Escape(query: string): (r: string)
  {
    if query == [] then []
    else (if query[0] in REGEX_META then ['\\', query[0]] else [query[0]]) + Escape(query[1..])
  }

  /** Reading an escaped text back: a backslash stands for the character after it. */
  function Unescape(text: string): string
  {
    if text == [] then []
    else if text[0] == '\\' && |text| >= 2 then [text[1]] + Unescape(text[2..])
    else [text[0]] + Unescape(text[1..])
  }

  function MetaCount(query: string): nat
  {
    if query == [] then 0 else (if query[0] in REGEX_META then 1 else 0) + MetaCount(query[1..])
  }

  /** Escaping loses nothing, adds one backslash per special character, and leaves plain text alone. */
  lemma {:induction false} EscapeRoundTrip(query: string)
    ensures Unescape(Escape(query)) == query
    ensures |Escape(query)| == |query| + MetaCount(query)
    ensures MetaCount(query) == 0 ==> Escape(query) == query
  {
    if query != [] {
      EscapeRoundTrip(query[1..]);
      var head := if query[0] in REGEX_META then ['\\', query[0]] else [query[0]];
      var e := head + Escape(query[1..]);
      if query[0] in REGEX_META {
        assert e[2..] == Escape(query[1..]);
      } else {
        assert query[0] != '\\';
        assert e[1..] == Escape(query[1..]);
      }
      assert query == [query[0]] + query[1..];
    }
  }

  // ---------------------------------------------------------------- meeting codes

  /** The three random numbers of a meeting code come from [100, 999). */
  predicate CodePartsInRange(a: nat, b: nat, c: nat)
  {
    100 <= a < 999 && 100 <= b < 999 && 100 <= c < 999
  }

  function MeetingCode(a: nat, b: nat, c: nat): string
  {
    NatToString(a) + "-" + NatToString(b) + "-" + NatToString(c)
  }

  /** A meeting code is three three-digit numbers joined by dashes, and it gives them back. */
  lemma MeetingCodeShape(a: nat, b: nat, c: nat)
    requires CodePartsInRange(a, b, c)
    ensures var code := MeetingCode(a, b, c);
      |code| == 11 && code[3] == '-' && code[7] == '-'
      && SplitOn(code, '-') == [NatToString(a), NatToString(b), NatToString(c)]
      && DigitsValue(SplitOn(code, '-')[0]) == a && DigitsValue(SplitOn(code, '-')[1]) == b
      && DigitsValue(SplitOn(code, '-')[2]) == c
  {
    CodePart(a);
    CodePart(b);
    CodePart(c);
    DashJoined(NatToString(a), NatToString(b), NatToString(c));
  }

  /** A code part is three digits, so no dash, and reads back as itself. */
  lemma CodePart(n: nat)
    requires 100 <= n < 999
    ensures |NatToString(n)| == 3 && '-' !in NatToString(n) && DigitsValue(NatToString(n)) == n
  {
    var x := NatToString(n);
    NatToStringLength3(n);
    NatToStringRoundTrip(n);
    assert forall i :: 0 <= i < |x| ==> IsAsciiDigit(x[i]);
  }

  /** Three dash-free three-character parts joined by dashes: dashes at 3 and 7, and they split back. */
  lemma DashJoined(x: string, y: string, z: string)
    requires |x| == 3 && |y| == 3 && |z| == 3
    requires '-' !in x && '-' !in y && '-' !in z
    ensures var code := x + "-" + y + "-" + z;
      |code| == 11 && code[3] == '-' && code[7] == '-' && SplitOn(code, '-') == [x, y, z]
  {
    assert x + "-" + y + "-" + z == x + (['-'] + (y + (['-'] + z)));
    SplitOnCons(x, '-', y + (['-'] + z));
    SplitOnCons(y, '-', z);
    SplitOnAbsent(z, '-');
  }

  /** `create`'s meeting code and join url: both set exactly when media or conference settings are given. */
  function MeetingFields(hasMedia: bool, hasConference: bool, a: nat, b: nat, c: nat): (r: (Option<string>, Option<string>))
    ensures r.0.Some? <==> hasMedia || hasConference
    ensures r.1.Some? <==> hasMedia || hasConference
    ensures r.0.Some? ==> r.1.value == "/join/" + r.0.value
  {
    if hasMedia || hasConference then (Some(MeetingCode(a, b, c)), Some("/join/" + MeetingCode(a, b, c))) else (None, None)
  }

  /** A room's meeting code, when it has one, is three numbers joined by dashes, eleven characters long. */
  lemma MeetingFieldsShape(hasMedia: bool, hasConference: bool, a: nat, b: nat, c: nat)
    requires CodePartsInRange(a, b, c)
    ensures var f := MeetingFields(hasMedia, hasConference, a, b, c);
      f.0.Some? ==> |f.0.value| == 11 && f.0.value[3] == '-' && f.0.value[7] == '-'
  {
    MeetingCodeShape(a, b, c);
  }

  // ---------------------------------------------------------------- rooms and members

  datatype ParticipantRole = Organizer | CoOrganizer | Presenter | Attendee

  datatype Session = Session(joinedAt: int, leftAt: Option<int>, deviceType: string)

  datatype Member = Member(
    tenantId: string,
    roomId: string,
    userId: string,
    displayName: Option<string>,
    role: Option<ParticipantRole>,
    sessions: seq<Session>,
    isVideoOn: bool,
    updatedAt: int)

  datatype Room = Room(
    tenantId: string,
    parentId: Option<string>,
    name: string,
    path: string,
    topic: Option<string>,
    purpose: Option<string>,
    isOpen: bool,
    isArchived: bool,
    isReadOnly: bool,
    meetingCode: Option<string>,
    joinUrl: Option<string>,
    creatorId: string,
    memberCount: int,
    participantCount: int)

  /** A membership's key: (room, user). */
  type MemberKey = (string, string)

  datatype Store = Store(rooms: map<string, Room>, members: map<MemberKey, Member>)

  /** Each membership is stored under its own room and user. */
  ghost predicate Keyed(members: map<MemberKey, Member>)
  {
    forall k :: k in members ==> members[k].roomId == k.0 && members[k].userId == k.1
  }

  /** `$inc` on a room's member counter; a missing room is left alone. */
  function BumpMembers(rooms: map<string, Room>, roomId: string, delta: int): map<string, Room>
  {
    if roomId in rooms then rooms[roomId := rooms[roomId].(memberCount := rooms[roomId].memberCount + delta)] else rooms
  }

  /** `$inc` on a room's participant counter; a missing room is left alone. */
  function BumpParticipants(rooms: map<string, Room>, roomId: string, delta: int): map<string, Room>
  {
    if roomId in rooms then rooms[roomId := rooms[roomId].(participantCount := rooms[roomId].participantCount + delta)] else rooms
  }

  /** What `join` inserts: a plain member without a role, sessions or video. */
  function NewMember(tenantId: string, roomId: string, userId: string, nowMs: int): Member
  {
    Member(tenantId, roomId, userId, None, None, [], false, nowMs)
  }

  /** The store after `join`: the membership and one more member; an existing membership is refused and nothing changes. */
  function JoinStep(s: Store, tenantId: string, roomId: string, userId: string, nowMs: int): Store
  {
    if (roomId, userId) in s.members then s
    else Store(BumpMembers(s.rooms, roomId, 1), s.members[(roomId, userId) := NewMember(tenantId, roomId, userId, nowMs)])
  }

  /** The store after `leave`, and whether a membership was deleted; the counter drops only then. */
  function LeaveStep(s: Store, tenantId: string, roomId: string, userId: string): (Store, bool)
  {
    var k := (roomId, userId);
    if k in s.members && s.members[k].tenantId == tenantId then (Store(BumpMembers(s.rooms, roomId, -1), s.members - {k}), true)
    else (s, false)
  }

  /** Joining then leaving again restores the store exactly. */
  lemma JoinLeaveRoundTrip(s: Store, tenantId: string, roomId: string, userId: string, nowMs: int)
    requires (roomId, userId) !in s.members
    ensures LeaveStep(JoinStep(s, tenantId, roomId, userId, nowMs), tenantId, roomId, userId) == (s, true)
  {
    var joined := JoinStep(s, tenantId, roomId, userId, nowMs);
    assert joined.members - {(roomId, userId)} == s.members;
    if roomId in s.rooms {
      assert BumpMembers(joined.rooms, roomId, -1) == s.rooms;
    }
  }

  /** `leave` deletes only the caller's own membership in that tenant, and reports exactly that. */
  lemma LeaveOnlyOwn(s: Store, tenantId: string, roomId: string, userId: string)
    ensures var (after, deleted) := LeaveStep(s, tenantId, roomId, userId);
      (deleted <==> (roomId, userId) in s.members && s.members[(roomId, userId)].tenantId == tenantId)
      && (forall k :: k in s.members && k != (roomId, userId) ==> k in after.members && after.members[k] == s.members[k])
      && (deleted ==> (roomId, userId) !in after.members)
      && (roomId in s.rooms ==> after.rooms[roomId].memberCount == s.rooms[roomId].memberCount - (if deleted then 1 else 0))
  {
  }

  // ---------------------------------------------------------------- call participation

  predicate IsOpen(session: Session) { session.leftAt.None? }

  /** The comment's reading of the `sessions.left_at: null` filter: the member has a session still open. */
  predicate InCall(m: Member)
  {
    exists i :: 0 <= i < |m.sessions| && IsOpen(m.sessions[i])
  }

  /** `join_participant`'s three cases: already in the call, returning, or new to the room. */
  function JoinParticipantStep(s: Store, tenantId: string, roomId: string, userId: string, displayName: string,
                               deviceType: string, nowMs: int): Store
  {
    var k := (roomId, userId);
    var session := Session(nowMs, None, deviceType);
    if k in s.members && InCall(s.members[k]) then
      Store(s.rooms, s.members[k := s.members[k].(sessions := s.members[k].sessions + [session], updatedAt := nowMs)])
    else if k in s.members then
      var m := s.members[k].(sessions := s.members[k].sessions + [session], updatedAt := nowMs,
                             displayName := Some(displayName), role := Some(Attendee), isVideoOn := true);
      Store(BumpParticipants(s.rooms, roomId, 1), s.members[k := m])
    else
      var m := Member(tenantId, roomId, userId, Some(displayName), Some(Attendee), [session], true, nowMs);
      Store(BumpParticipants(BumpMembers(s.rooms, roomId, 1), roomId, 1), s.members[k := m])
  }

  /** Every open session closed at `nowMs`; closed ones keep their time. */
  function CloseOpen(sessions: seq<Session>, nowMs: int): (r: seq<Session>)
    ensures |r| == |sessions|
    ensures forall i :: 0 <= i < |r| ==> r[i] == if IsOpen(sessions[i]) then sessions[i].(leftAt := Some(nowMs)) else sessions[i]
  {
    if sessions == [] then []
    else [if IsOpen(sessions[0]) then sessions[0].(leftAt := Some(nowMs)) else sessions[0]] + CloseOpen(sessions[1..], nowMs)
  }

  /** `leave_participant`: the member's open sessions are closed, and the participant counter always drops. */
  function LeaveParticipantStep(s: Store, roomId: string, userId: string, nowMs: int): Store
  {
    var k := (roomId, userId);
    var members := if k in s.members then s.members[k := s.members[k].(sessions := CloseOpen(s.members[k].sessions, nowMs), updatedAt := nowMs)] else s.members;
    Store(BumpParticipants(s.rooms, roomId, -1), members)
  }

  /**
   * join_participant: the member ends up in the call with the new open session appended; the
   * participant counter grows unless the member was already in the call, and the member counter
   * grows only for a member new to the room, who becomes an attendee with video on.
   */
  lemma JoinParticipantCounts(s: Store, tenantId: string, roomId: string, userId: string, displayName: string,
                              deviceType: string, nowMs: int)
    requires roomId in s.rooms
    ensures var k, after := (roomId, userId), JoinParticipantStep(s, tenantId, roomId, userId, displayName, deviceType, nowMs);
      var wasIn, wasInCall := k in s.members, k in s.members && InCall(s.members[k]);
      k in after.members && InCall(after.members[k])
      && after.members[k].sessions == (if wasIn then s.members[k].sessions else []) + [Session(nowMs, None, deviceType)]
      && after.rooms[roomId].participantCount == s.rooms[roomId].participantCount + (if wasInCall then 0 else 1)
      && after.rooms[roomId].memberCount == s.rooms[roomId].memberCount + (if wasIn then 0 else 1)
      && (!wasInCall ==> after.members[k].role == Some(Attendee) && after.members[k].isVideoOn
                         && after.members[k].displayName == Some(displayName))
      && (forall j :: j in s.members && j != k ==> j in after.members && after.members[j] == s.members[j])
  {
    var k, after := (roomId, userId), JoinParticipantStep(s, tenantId, roomId, userId, displayName, deviceType, nowMs);
    var last := |after.members[k].sessions| - 1;
    assert IsOpen(after.members[k].sessions[last]);
  }

  /** leave_participant leaves the member with no open session and always lowers the counter by one. */
  lemma LeaveParticipantCloses(s: Store, roomId: string, userId: string, nowMs: int)
    requires roomId in s.rooms
    ensures var k, after := (roomId, userId), LeaveParticipantStep(s, roomId, userId, nowMs);
      (k in after.members <==> k in s.members)
      && (k in after.members ==> !InCall(after.members[k]) && |after.members[k].sessions| == |s.members[k].sessions|)
      && after.rooms[roomId].participantCount == s.rooms[roomId].participantCount - 1
      && after.rooms[roomId].memberCount == s.rooms[roomId].memberCount
      && (forall j :: j in s.members && j != k ==> j in after.members && after.members[j] == s.members[j])
  {
    var k, after := (roomId, userId), LeaveParticipantStep(s, roomId, userId, nowMs);
    if k in after.members {
      assert forall i :: 0 <= i < |after.members[k].sessions| ==> !IsOpen(after.members[k].sessions[i]);
    }
  }

  /**
   * A member joining a call and leaving it again leaves the participant counter where it was;
   * leaving twice lowers it twice, even though the second leave closes nothing.
   */
  lemma ParticipantCountAcrossCalls(s: Store, tenantId: string, roomId: string, userId: string, displayName: string,
                                    deviceType: string, t1: int, t2: int, t3: int)
    requires roomId in s.rooms
    requires (roomId, userId) !in s.members || !InCall(s.members[(roomId, userId)])
    ensures var joined := JoinParticipantStep(s, tenantId, roomId, userId, displayName, deviceType, t1);
      var left := LeaveParticipantStep(joined, roomId, userId, t2);
      left.rooms[roomId].participantCount == s.rooms[roomId].participantCount
      && LeaveParticipantStep(left, roomId, userId, t3).rooms[roomId].participantCount == s.rooms[roomId].participantCount - 1
  {
    JoinParticipantCounts(s, tenantId, roomId, userId, displayName, deviceType, t1);
    var joined := JoinParticipantStep(s, tenantId, roomId, userId, displayName, deviceType, t1);
    LeaveParticipantCloses(joined, roomId, userId, t2);
    LeaveParticipantCloses(LeaveParticipantStep(joined, roomId, userId, t2), roomId, userId, t3);
  }

  // ---------------------------------------------------------------- update

  /** A value in the `$set` document of `update`. */
  datatype Bson = BStr(s: string) | BBool(b: bool) | BDoc(fields: map<string, Bson>)

  datatype RoomUpdate = RoomUpdate(name: Option<string>, topic: Option<string>, purpose: Option<string>,
                                   isOpen: Option<bool>, isArchived: Option<bool>, isReadOnly: Option<bool>)

  predicate NoFields(u: RoomUpdate)
  {
    u.name.None? && u.topic.None? && u.purpose.None? && u.isOpen.None? && u.isArchived.None? && u.isReadOnly.None?
  }

  /** The `$set` document the source builds, the topic written as a document `{value: topic}`. */
  function SetDocAsWritten(u: RoomUpdate): (r: map<string, Bson>)
  {
    if u.topic.Some? then SetDoc(u)["topic" := BDoc(map["value" := BStr(u.topic.value)])] else SetDoc(u)
  }

  /** The `$set` document with the topic stored as the string the room's field holds, built field by field. */
  function SetDoc(u: RoomUpdate): (r: map<string, Bson>)
  {
    var d0: map<string, Bson> := map[];
    var d1 := if u.name.Some? then d0["name" := BStr(u.name.value)] else d0;
    var d2 := if u.topic.Some? then d1["topic" := BStr(u.topic.value)] else d1;
    var d3 := if u.purpose.Some? then d2["purpose" := BStr(u.purpose.value)] else d2;
    var d4 := if u.isOpen.Some? then d3["is_open" := BBool(u.isOpen.value)] else d3;
    var d5 := if u.isArchived.Some? then d4["is_archived" := BBool(u.isArchived.value)] else d4;
    if u.isReadOnly.Some? then d5["is_read_only" := BBool(u.isReadOnly.value)] else d5
  }

  /** The room as read back after the `$set`: each field decodes to its type, or the read fails. */
  function ReadBack(room: Room, fields: map<string, Bson>): Result<Room, DaoError>
  {
    if "name" in fields && !fields["name"].BStr? then Err(BsonDe("name"))
    else if "topic" in fields && !fields["topic"].BStr? then Err(BsonDe("topic"))
    else if "purpose" in fields && !fields["purpose"].BStr? then Err(BsonDe("purpose"))
    else if "is_open" in fields && !fields["is_open"].BBool? then Err(BsonDe("is_open"))
    else if "is_archived" in fields && !fields["is_archived"].BBool? then Err(BsonDe("is_archived"))
    else if "is_read_only" in fields && !fields["is_read_only"].BBool? then Err(BsonDe("is_read_only"))
    else Ok(room.(
      name := if "name" in fields then fields["name"].s else room.name,
      topic := if "topic" in fields then Some(fields["topic"].s) else room.topic,
      purpose := if "purpose" in fields then Some(fields["purpose"].s) else room.purpose,
      isOpen := if "is_open" in fields then fields["is_open"].b else room.isOpen,
      isArchived := if "is_archived" in fields then fields["is_archived"].b else room.isArchived,
      isReadOnly := if "is_read_only" in fields then fields["is_read_only"].b else room.isReadOnly))
  }

  /** The room with exactly the provided fields replaced. */
  function Patched(room: Room, u: RoomUpdate): Room
  {
    room.(name := u.name.UnwrapOr(room.name),
          topic := if u.topic.Some? then u.topic else room.topic,
          purpose := if u.purpose.Some? then u.purpose else room.purpose,
          isOpen := u.isOpen.UnwrapOr(room.isOpen),
          isArchived := u.isArchived.UnwrapOr(room.isArchived),
          isReadOnly := u.isReadOnly.UnwrapOr(room.isReadOnly))
  }

  /** As written, an update that gives a topic stores a room whose topic no longer reads back as a string. */
  lemma TopicAsWrittenUnreadable(room: Room, u: RoomUpdate)
    requires u.topic.Some?
    ensures ReadBack(room, SetDocAsWritten(u)) == Err(BsonDe("topic"))
  {
    SetDocKeys(u);
  }

  /** Each provided field, and only those, is in the `$set` document with its value. */
  lemma SetDocKeys(u: RoomUpdate)
    ensures var d := SetDoc(u);
      ("name" in d <==> u.name.Some?) && (u.name.Some? ==> d["name"] == BStr(u.name.value))
      && ("topic" in d <==> u.topic.Some?) && (u.topic.Some? ==> d["topic"] == BStr(u.topic.value))
      && ("purpose" in d <==> u.purpose.Some?) && (u.purpose.Some? ==> d["purpose"] == BStr(u.purpose.value))
      && ("is_open" in d <==> u.isOpen.Some?) && (u.isOpen.Some? ==> d["is_open"] == BBool(u.isOpen.value))
      && ("is_archived" in d <==> u.isArchived.Some?) && (u.isArchived.Some? ==> d["is_archived"] == BBool(u.isArchived.value))
      && ("is_read_only" in d <==> u.isReadOnly.Some?) && (u.isReadOnly.Some? ==> d["is_read_only"] == BBool(u.isReadOnly.value))
  {
  }

  /** With the topic stored as a string, an update sets exactly the provided fields. */
  lemma UpdateSetsProvided(room: Room, u: RoomUpdate)
    ensures ReadBack(room, SetDoc(u)) == Ok(Patched(room, u))
  {
    SetDocKeys(u);
  }

  /** An update with no field writes nothing, in both forms of the `$set` document. */
  lemma UpdateEmptyIffNoFields(u: RoomUpdate)
    ensures SetDoc(u) == map[] <==> NoFields(u)
    ensures SetDocAsWritten(u) == map[] <==> NoFields(u)
  {
    if !NoFields(u) {
      if u.name.Some? { assert "name" in SetDoc(u); }
      else if u.topic.Some? { assert "topic" in SetDoc(u); }
      else if u.purpose.Some? { assert "purpose" in SetDoc(u); }
      else if u.isOpen.Some? { assert "is_open" in SetDoc(u); }
      else if u.isArchived.Some? { assert "is_archived" in SetDoc(u); }
      else { assert "is_read_only" in SetDoc(u); }
      assert SetDoc(u).Keys <= SetDocAsWritten(u).Keys;
    }
  }

  // ---------------------------------------------------------------- the store

  /** The room a new room is created as: member counter 1 before the creator's own join. */
  function NewRoom(tenantId: string, name: string, parentId: Option<string>, path: string, creatorId: string,
                   isOpen: bool, hasMedia: bool, hasConference: bool, a: nat, b: nat, c: nat): Room
  {
    var (code, url) := MeetingFields(hasMedia, hasConference, a, b, c);
    Room(tenantId, parentId, name, path, None, None, isOpen, false, false, code, url, creatorId, 1, 0)
  }

  /** Some room of the tenant already has the path: the unique (tenant_id, path) index refuses another. */
  predicate PathTaken(rooms: map<string, Room>, tenantId: string, path: string)
  {
    exists id :: id in rooms && rooms[id].tenantId == tenantId && rooms[id].path == path
  }

  /** Some room already has the meeting code: the sparse unique index refuses another; a room without one is exempt. */
  predicate CodeTaken(rooms: map<string, Room>, code: Option<string>)
  {
    code.Some? && exists id :: id in rooms && rooms[id].meetingCode == code
  }

  /** The two unique indexes of the rooms collection hold. */
  predicate UniqueRoomKeys(rooms: map<string, Room>)
  {
    forall i, j :: i in rooms && j in rooms && i != j ==>
      && !(rooms[i].tenantId == rooms[j].tenantId && rooms[i].path == rooms[j].path)
      && (rooms[i].meetingCode.Some? ==> rooms[i].meetingCode != rooms[j].meetingCode)
  }

  /** Moving a counter keeps every room's tenant, path and meeting code, so the unique keys still hold. */
  lemma BumpMembersKeepsKeys(rooms: map<string, Room>, roomId: string, delta: int)
    ensures BumpMembers(rooms, roomId, delta).Keys == rooms.Keys
    ensures forall id :: id in rooms ==> var b := BumpMembers(rooms, roomId, delta)[id];
      b.tenantId == rooms[id].tenantId && b.path == rooms[id].path && b.meetingCode == rooms[id].meetingCode
    ensures UniqueRoomKeys(rooms) ==> UniqueRoomKeys(BumpMembers(rooms, roomId, delta))
  {
  }

  class RoomStore {
    var rooms: map<string, Room>
    var members: map<MemberKey, Member>

    ghost function State(): Store
      reads this
    {
      Store(rooms, members)
    }

    ghost predicate Valid()
      reads this
    {
      Keyed(members)
    }

    constructor ()
      ensures Valid() && rooms == map[] && members == map[]
    {
      rooms, members := map[], map[];
    }

    /**
     * `create`: the path under the parent (which must be a room of the tenant), the meeting code
     * when media or conference settings are given, and the creator's own join, which takes the
     * member counter from 1 to 2.
     */
    method Create(roomId: string, tenantId: string, name: string, parentId: Option<string>, creatorId: string,
                  isOpen: bool, hasMedia: bool, hasConference: bool, a: nat, b: nat, c: nat, nowMs: int,
                  duplicateMessage: string)
      returns (r: Result<Room, DaoError>)
      requires Valid() && roomId !in rooms && forall k :: k in members ==> k.0 != roomId
      requires CodePartsInRange(a, b, c)
      modifies this
      ensures Valid()
      ensures parentId.Some? && (parentId.value !in old(rooms) || old(rooms)[parentId.value].tenantId != tenantId) ==>
        r == Err(DaoNotFound) && State() == old(State())
      ensures r.Err? ==> State() == old(State())
      ensures r.Ok? ==>
        var path := ChildPath(if parentId.Some? then Some(old(rooms)[parentId.value].path) else None, name);
        var room := NewRoom(tenantId, name, parentId, path, creatorId, isOpen, hasMedia, hasConference, a, b, c);
        && r.value == room.(memberCount := 2)
        && !PathTaken(old(rooms), tenantId, path) && !CodeTaken(old(rooms), room.meetingCode)
        && State() == JoinStep(Store(old(rooms)[roomId := room], old(members)), tenantId, roomId, creatorId, nowMs)
      ensures r.Err? && r.error != DaoNotFound ==> r == Err(DuplicateKey(duplicateMessage))
      ensures parentId.None? || (parentId.value in old(rooms) && old(rooms)[parentId.value].tenantId == tenantId) ==>
        var path := ChildPath(if parentId.Some? then Some(old(rooms)[parentId.value].path) else None, name);
        var code := MeetingFields(hasMedia, hasConference, a, b, c).0;
        && (r.Ok? <==> !PathTaken(old(rooms), tenantId, path) && !CodeTaken(old(rooms), code))
        && (r.Err? ==> r == Err(DuplicateKey(duplicateMessage)))
      ensures UniqueRoomKeys(old(rooms)) ==> UniqueRoomKeys(rooms)
      ensures r.Ok? && (hasMedia || hasConference) ==>
        var code := r.value.meetingCode.value;
        |code| == 11 && code[3] == '-' && code[7] == '-' && r.value.joinUrl == Some("/join/" + code)
    {
      var parentPath: Option<string> := None;
      if parentId.Some? {
        if parentId.value !in rooms || rooms[parentId.value].tenantId != tenantId {
          return Err(DaoNotFound);
        }
        parentPath := Some(rooms[parentId.value].path);
      }
      var room := NewRoom(tenantId, name, parentId, ChildPath(parentPath, name), creatorId, isOpen, hasMedia, hasConference, a, b, c);
      if PathTaken(rooms, tenantId, room.path) || CodeTaken(rooms, room.meetingCode) {
        return Err(DuplicateKey(duplicateMessage));
      }
      ghost var before := rooms;
      rooms := rooms[roomId := room];
      assert UniqueRoomKeys(before) ==> UniqueRoomKeys(rooms);
      BumpMembersKeepsKeys(rooms, roomId, 1);
      var _ := Join(tenantId, roomId, creatorId, nowMs, "");
      MeetingFieldsShape(hasMedia, hasConference, a, b, c);
      r := Ok(rooms[roomId]);
    }

    /** `join`: a new membership and one more member; the unique index refuses a second one. */
    method Join(tenantId: string, roomId: string, userId: string, nowMs: int, duplicateMessage: string)
      returns (r: Result<Member, DaoError>)
      requires Valid()
      modifies this
      ensures Valid()
      ensures State() == JoinStep(old(State()), tenantId, roomId, userId, nowMs)
      ensures (roomId, userId) in old(members) <==> r == Err(DuplicateKey(duplicateMessage))
      ensures (roomId, userId) !in old(members) <==> r == Ok(NewMember(tenantId, roomId, userId, nowMs))
    {
      if (roomId, userId) in members {
        return Err(DuplicateKey(duplicateMessage));
      }
      var m := NewMember(tenantId, roomId, userId, nowMs);
      members := members[(roomId, userId) := m];
      if roomId in rooms {
        rooms := rooms[roomId := rooms[roomId].(memberCount := rooms[roomId].memberCount + 1)];
      }
      r := Ok(m);
    }

    /** `leave`: deletes the membership in the tenant and lowers the counter only when one was deleted. */
    method Leave(tenantId: string, roomId: string, userId: string) returns (deleted: bool)
      requires Valid()
      modifies this
      ensures Valid()
      ensures (State(), deleted) == LeaveStep(old(State()), tenantId, roomId, userId)
    {
      var k := (roomId, userId);
      deleted := k in members && members[k].tenantId == tenantId;
      if deleted {
        members := members - {k};
        if roomId in rooms {
          rooms := rooms[roomId := rooms[roomId].(memberCount := rooms[roomId].memberCount - 1)];
        }
      }
    }

    /** `join_participant`: a session is pushed in every case, and the counters move as the case demands. */
    method JoinParticipant(tenantId: string, roomId: string, userId: string, displayName: string, deviceType: string, nowMs: int)
      returns (m: Member)
      requires Valid()
      modifies this
      ensures Valid()
      ensures State() == JoinParticipantStep(old(State()), tenantId, roomId, userId, displayName, deviceType, nowMs)
      ensures (roomId, userId) in members && m == members[(roomId, userId)]
    {
      var k := (roomId, userId);
      var session := Session(nowMs, None, deviceType);
      if k in members && InCall(members[k]) {
        members := members[k := members[k].(sessions := members[k].sessions + [session], updatedAt := nowMs)];
      } else if k in members {
        members := members[k := members[k].(sessions := members[k].sessions + [session], updatedAt := nowMs,
                                            displayName := Some(displayName), role := Some(Attendee), isVideoOn := true)];
        rooms := BumpParticipants(rooms, roomId, 1);
      } else {
        members := members[k := Member(tenantId, roomId, userId, Some(displayName), Some(Attendee), [session], true, nowMs)];
        rooms := BumpParticipants(BumpMembers(rooms, roomId, 1), roomId, 1);
      }
      m := members[k];
    }

    /** `leave_participant`: closes the open sessions, lowers the participant counter, and answers true. */
    method LeaveParticipant(roomId: string, userId: string, nowMs: int) returns (done: bool)
      requires Valid()
      modifies this
      ensures Valid()
      ensures State() == LeaveParticipantStep(old(State()), roomId, userId, nowMs)
      ensures done
    {
      var k := (roomId, userId);
      if k in members {
        var closed := CloseOpen(members[k].sessions, nowMs);
        members := members[k := members[k].(sessions := closed, updatedAt := nowMs)];
      }
      rooms := BumpParticipants(rooms, roomId, -1);
      done := true;
    }

    /** `find_participant_name`: the member's display name, else the first 8 hex digits of the user id. */
    method FindParticipantName(roomId: string, userId: string) returns (name: string)
      requires |userId| == 24
      ensures (roomId, userId) in members && members[(roomId, userId)].displayName.Some? ==>
        name == members[(roomId, userId)].displayName.value
      ensures !((roomId, userId) in members && members[(roomId, userId)].displayName.Some?) ==>
        name == userId[..8] && |name| == 8 && StartsWith(userId, name)
    {
      var k := (roomId, userId);
      if k in members && members[k].displayName.Some? {
        name := members[k].displayName.value;
      } else {
        name := userId[..8];
      }
    }

    /**
     * `update` with the topic stored as a string: nothing is written and false is answered when no
     * field is given; otherwise the room of the tenant gets exactly the given fields, and the
     * answer says whether one matched.
     */
    method Update(tenantId: string, roomId: string, u: RoomUpdate) returns (matched: bool)
      requires Valid()
      modifies this`rooms
      ensures Valid()
      ensures NoFields(u) ==> !matched && rooms == old(rooms)
      ensures !NoFields(u) ==> (matched <==> roomId in old(rooms) && old(rooms)[roomId].tenantId == tenantId)
      ensures matched ==> rooms == old(rooms)[roomId := Patched(old(rooms)[roomId], u)]
      ensures !matched ==> rooms == old(rooms)
    {
      var fields := SetDoc(u);
      UpdateEmptyIffNoFields(u);
      if fields == map[] {
        return false;
      }
      matched := roomId in rooms && rooms[roomId].tenantId == tenantId;
      if matched {
        UpdateSetsProvided(rooms[roomId], u);
        var read := ReadBack(rooms[roomId], fields);
        rooms := rooms[roomId := read.value];
      }
    }
  }
}
