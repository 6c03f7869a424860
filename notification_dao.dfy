/**
 * The notification store (crates/services/src/dao/notification.rs): creating a notification,
 * the per-user listings newest first, the unread count and the two ways of marking notifications
 * read. The collection is a sequence in insertion order; the database's ids are modelled as a
 * counter the store increments, and times are milliseconds.
 */
module NotificationDao {
  import opened Wrappers
  import opened Seqs

  /** What a notification points back to (crates/db/src/models is not part of this model beyond these fields). */
  datatype NotificationSource = NotificationSource(entityType: string, entityId: string, actorId: Option<string>)

  datatype Notification = Notification(
    id: nat,
    tenantId: string,
    userId: string,
    kind: string,
    title: string,
    body: string,
    link: Option<string>,
    source: NotificationSource,
    isRead: bool,
    readAt: Option<int>,
    createdAt: int)

  /** The notification `create` inserts: unread, never read. */
  function NewNotification(id: nat, tenantId: string, userId: string, kind: string, title: string, body: string,
                           link: Option<string>, source: NotificationSource, nowMs: int): Notification
  {
    Notification(id, tenantId, userId, kind, title, body, link, source, false, None, nowMs)
  }

  /** The notification after it is marked read at `nowMs`. */
  function MarkedRead(n: Notification, nowMs: int): Notification
  {
    n.(isRead := true, readAt := Some(nowMs))
  }

  /** The selectors of the queries. */
  function ForUser(userId: string): Notification -> bool { (n: Notification) => n.userId == userId }
  function UnreadFor(userId: string): Notification -> bool { (n: Notification) => n.userId == userId && !n.isRead }
  function Unread(): Notification -> bool { (n: Notification) => !n.isRead }
  function HasIdForUser(id: nat, userId: string): Notification -> bool { (n: Notification) => n.id == id && n.userId == userId }

  /** `unread_count` on a collection. */
  function CountUnread(notes: seq<Notification>, userId: string): nat
  {
    |Filter(notes, UnreadFor(userId))|
  }

  // ---------------------------------------------------------------- newest first

  predicate NewestFirst(s: seq<Notification>)
  {
    forall i, j :: 0 <= i < j < |s| ==> s[i].createdAt >= s[j].createdAt
  }

  /** Places `n` before the first notification that is not newer than it. */
  function InsertByTime(n: Notification, s: seq<Notification>): (r: seq<Notification>)
    ensures |r| == |s| + 1
  {
    if s == [] || n.createdAt >= s[0].createdAt then [n] + s
    else [s[0]] + InsertByTime(n, s[1..])
  }

  /** The sort `created_at: -1` asks for; notifications created in the same millisecond keep the order this insertion gives them. */
  function Newest(s: seq<Notification>): (r: seq<Notification>)
    ensures |r| == |s|
  {
    if s == [] then [] else InsertByTime(s[0], Newest(s[1..]))
  }

  /** No notification in `s` is newer than `t`. */
  predicate NoneAfter(s: seq<Notification>, t: int)
  {
    forall i :: 0 <= i < |s| ==> s[i].createdAt <= t
  }

  lemma {:induction false} InsertNoneAfter(n: Notification, s: seq<Notification>, t: int)
    requires NoneAfter(s, t) && n.createdAt <= t
    ensures NoneAfter(InsertByTime(n, s), t)
  {
    if s != [] && n.createdAt < s[0].createdAt {
      InsertNoneAfter(n, s[1..], t);
    }
  }

  lemma {:induction false} FilterNoneAfter(s: seq<Notification>, keep: Notification -> bool, t: int)
    requires NoneAfter(s, t)
    ensures NoneAfter(Filter(s, keep), t)
  {
    if s != [] {
      FilterNoneAfter(s[1..], keep, t);
    }
  }

  lemma {:induction false} InsertByTimeSorted(n: Notification, s: seq<Notification>)
    requires NewestFirst(s)
    ensures NewestFirst(InsertByTime(n, s))
  {
    if s != [] && n.createdAt < s[0].createdAt {
      InsertByTimeSorted(n, s[1..]);
      InsertNoneAfter(n, s[1..], s[0].createdAt);
    }
  }

  lemma {:induction false} InsertByTimeMultiset(n: Notification, s: seq<Notification>)
    ensures multiset(InsertByTime(n, s)) == multiset(s) + multiset{n}
  {
    if s != [] && n.createdAt < s[0].createdAt {
      InsertByTimeMultiset(n, s[1..]);
      assert s == [s[0]] + s[1..];
    }
  }

  /** The listing is newest first and holds exactly the notifications it was given. */
  lemma {:induction false} NewestSorts(s: seq<Notification>)
    ensures NewestFirst(Newest(s)) && multiset(Newest(s)) == multiset(s)
  {
    if s != [] {
      NewestSorts(s[1..]);
      InsertByTimeSorted(s[0], Newest(s[1..]));
      InsertByTimeMultiset(s[0], Newest(s[1..]));
      assert s == [s[0]] + s[1..];
    }
  }

  lemma {:induction false} FilterInsertByTime(n: Notification, s: seq<Notification>, keep: Notification -> bool)
    requires NewestFirst(s)
    ensures Filter(InsertByTime(n, s), keep) == if keep(n) then InsertByTime(n, Filter(s, keep)) else Filter(s, keep)
  {
    if s == [] || n.createdAt >= s[0].createdAt {
      FilterAppend([n], s, keep);
      if s != [] {
        FilterNoneAfter(s, keep, s[0].createdAt);
      }
    } else {
      assert s == [s[0]] + s[1..];
      FilterAppend([s[0]], s[1..], keep);
      FilterAppend([s[0]], InsertByTime(n, s[1..]), keep);
      FilterInsertByTime(n, s[1..], keep);
      var rest := Filter(s[1..], keep);
      if keep(s[0]) {
        assert Filter(s, keep) == [s[0]] + rest;
        assert ([s[0]] + rest)[1..] == rest;
        if keep(n) {
          assert InsertByTime(n, [s[0]] + rest) == [s[0]] + InsertByTime(n, rest);
        }
      } else {
        assert Filter(s, keep) == rest;
        assert Filter([s[0]], keep) == [];
      }
    }
  }

  /** Sorting commutes with selecting: the sorted selection is the selection of the sorted listing. */
  lemma {:induction false} FilterNewest(s: seq<Notification>, keep: Notification -> bool)
    ensures Filter(Newest(s), keep) == Newest(Filter(s, keep))
  {
    if s != [] {
      FilterNewest(s[1..], keep);
      NewestSorts(s[1..]);
      FilterInsertByTime(s[0], Newest(s[1..]), keep);
      assert s == [s[0]] + s[1..];
      FilterAppend([s[0]], s[1..], keep);
      var rest := Filter(s[1..], keep);
      if keep(s[0]) {
        assert Filter(s, keep) == [s[0]] + rest;
        assert ([s[0]] + rest)[1..] == rest;
      } else {
        assert Filter(s, keep) == rest;
      }
    }
  }

  /** The unread listing is the user's listing with the read notifications taken out, in the same order. */
  lemma UnreadListingIsSubset(notes: seq<Notification>, userId: string)
    ensures Newest(Filter(notes, UnreadFor(userId))) == Filter(Newest(Filter(notes, ForUser(userId))), Unread())
    ensures |Newest(Filter(notes, UnreadFor(userId)))| == CountUnread(notes, userId)
  {
    FilterNewest(Filter(notes, ForUser(userId)), Unread());
    FilterFilter(notes, ForUser(userId), Unread(), UnreadFor(userId));
    NewestSorts(Filter(notes, UnreadFor(userId)));
    assert |multiset(Newest(Filter(notes, UnreadFor(userId))))| == |multiset(Filter(notes, UnreadFor(userId)))|;
  }

  // ---------------------------------------------------------------- marking all read

  /** `mark_all_read` on a collection: every unread notification of the user is marked read at `nowMs`. */
  function MarkAll(notes: seq<Notification>, userId: string, nowMs: int): (r: seq<Notification>)
    ensures |r| == |notes|
    ensures forall i :: 0 <= i < |r| ==> r[i].id == notes[i].id && r[i].userId == notes[i].userId
    ensures forall i :: 0 <= i < |r| && notes[i].userId == userId ==> r[i].isRead
    ensures forall i :: 0 <= i < |r| && (notes[i].userId != userId || notes[i].isRead) ==> r[i] == notes[i]
  {
    var r := seq(|notes|, i requires 0 <= i < |notes| => MarkIfUnread(notes[i], userId, nowMs));
    assert forall i :: 0 <= i < |r| ==> r[i] == MarkIfUnread(notes[i], userId, nowMs);
    r
  }

  /** One notification under `mark_all_read`: marked read when it is the user's and unread. */
  function MarkIfUnread(n: Notification, userId: string, nowMs: int): Notification
  {
    if UnreadFor(userId)(n) then MarkedRead(n, nowMs) else n
  }

  lemma {:induction false} MarkAllCount(notes: seq<Notification>, userId: string, other: string, nowMs: int)
    ensures |Filter(MarkAll(notes, userId, nowMs), UnreadFor(other))| == if other == userId then 0 else CountUnread(notes, other)
    ensures |Filter(MarkAll(notes, userId, nowMs), ForUser(other))| == |Filter(notes, ForUser(other))|
  {
    if notes != [] {
      MarkAllCount(notes[1..], userId, other, nowMs);
      assert MarkAll(notes, userId, nowMs)[1..] == MarkAll(notes[1..], userId, nowMs);
    }
  }

  /**
   * After marking all read, the user has no unread notification; every other user's notifications,
   * and their unread count, are as they were; and no notification changes hands.
   */
  lemma MarkAllClears(notes: seq<Notification>, userId: string, nowMs: int)
    ensures CountUnread(MarkAll(notes, userId, nowMs), userId) == 0
    ensures forall other :: other != userId ==> CountUnread(MarkAll(notes, userId, nowMs), other) == CountUnread(notes, other)
    ensures forall i :: 0 <= i < |notes| && notes[i].userId != userId ==> MarkAll(notes, userId, nowMs)[i] == notes[i]
    ensures forall i :: 0 <= i < |notes| ==> MarkAll(notes, userId, nowMs)[i].userId == notes[i].userId
  {
    MarkAllCount(notes, userId, userId, nowMs);
    forall other | other != userId
      ensures CountUnread(MarkAll(notes, userId, nowMs), other) == CountUnread(notes, other)
    {
      MarkAllCount(notes, userId, other, nowMs);
    }
  }

  class NotificationStore {
    /** The collection, in insertion order. */
    var notes: seq<Notification>
    /** The id the next inserted notification gets. */
    var nextId: nat

    /** Ids are distinct and below the next id. */
    ghost predicate Valid()
      reads this
    {
      (forall i :: 0 <= i < |notes| ==> notes[i].id < nextId)
      && forall i, j :: 0 <= i < j < |notes| ==> notes[i].id != notes[j].id
    }

    constructor ()
      ensures Valid() && notes == [] && nextId == 0
    {
      notes := [];
      nextId := 0;
    }

    /** `create`: a new unread notification with a fresh id, appended and returned. */
    method Create(tenantId: string, userId: string, kind: string, title: string, body: string,
                  link: Option<string>, source: NotificationSource, nowMs: int) returns (n: Notification)
      requires Valid()
      modifies this
      ensures Valid()
      ensures n == NewNotification(old(nextId), tenantId, userId, kind, title, body, link, source, nowMs)
      ensures notes == old(notes) + [n] && nextId == old(nextId) + 1
    {
      n := NewNotification(nextId, tenantId, userId, kind, title, body, link, source, nowMs);
      notes := notes + [n];
      nextId := nextId + 1;
    }

    /** `find_for_user`, before paging: the user's notifications, newest first. */
    method FindForUser(userId: string) returns (r: seq<Notification>)
      ensures r == Newest(Filter(notes, ForUser(userId)))
    {
      r := Newest(Filter(notes, ForUser(userId)));
    }

    /** `find_unread_for_user`, before paging: the user's unread notifications, newest first. */
    method FindUnreadForUser(userId: string) returns (r: seq<Notification>)
      ensures r == Newest(Filter(notes, UnreadFor(userId)))
    {
      r := Newest(Filter(notes, UnreadFor(userId)));
    }

    /** `unread_count`: the user's notifications that are not read. */
    method UnreadCount(userId: string) returns (count: nat)
      ensures count == CountUnread(notes, userId)
    {
      count := 0;
      var i := 0;
      while i < |notes|
        invariant 0 <= i <= |notes|
        invariant count == |Filter(notes[..i], UnreadFor(userId))|
      {
        FilterAppend(notes[..i], [notes[i]], UnreadFor(userId));
        assert notes[..i + 1] == notes[..i] + [notes[i]];
        if notes[i].userId == userId && !notes[i].isRead {
          count := count + 1;
        }
        i := i + 1;
      }
      assert notes[..i] == notes;
    }

    /** `mark_read`: the notification with both the id and the user is marked read; true iff one matched. */
    method MarkRead(id: nat, userId: string, nowMs: int) returns (matched: bool)
      requires Valid()
      modifies this`notes
      ensures Valid()
      ensures var k := IndexWhere(old(notes), HasIdForUser(id, userId));
        matched == k.Some?
        && notes == if k.Some? then old(notes)[k.value := MarkedRead(old(notes)[k.value], nowMs)] else old(notes)
    {
      var k := IndexWhere(notes, HasIdForUser(id, userId));
      matched := k.Some?;
      if k.Some? {
        notes := notes[k.value := MarkedRead(notes[k.value], nowMs)];
      }
    }

    /** `mark_all_read`: the user's unread notifications are marked read; the number changed is returned. */
    method MarkAllRead(userId: string, nowMs: int) returns (changed: nat)
      requires Valid()
      modifies this`notes
      ensures Valid()
      ensures notes == MarkAll(old(notes), userId, nowMs)
      ensures changed == CountUnread(old(notes), userId)
    {
      changed := 0;
      var i := 0;
      while i < |notes|
        invariant 0 <= i <= |notes| && |notes| == |old(notes)|
        invariant forall j :: 0 <= j < i ==> notes[j] == MarkAll(old(notes), userId, nowMs)[j]
        invariant forall j :: i <= j < |notes| ==> notes[j] == old(notes)[j]
        invariant changed == |Filter(old(notes)[..i], UnreadFor(userId))|
        invariant Valid()
      {
        FilterAppend(old(notes)[..i], [old(notes)[i]], UnreadFor(userId));
        assert old(notes)[..i + 1] == old(notes)[..i] + [old(notes)[i]];
        if notes[i].userId == userId && !notes[i].isRead {
          notes := notes[i := MarkedRead(notes[i], nowMs)];
          changed := changed + 1;
        }
        i := i + 1;
      }
      assert old(notes)[..i] == old(notes);
    }
  }
}
