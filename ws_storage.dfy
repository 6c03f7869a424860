/**
 * The WebSocket connection registry (crates/api/src/ws/storage.rs): each user's senders, in the
 * order their connections were added, and each connection id's user and sender. A sender is
 * compared by identity, so it is modelled as a number; a user is the hex of its id.
 */
module WsStorage {
  import opened Wrappers

  type UserId = string
  type ConnectionId = string
  /** The identity of a shared sender handle. */
  type SenderId = nat

  /** The user's senders; an unknown user has none. */
  function SendersOf(connections: map<UserId, seq<SenderId>>, user: UserId): seq<SenderId>
  {
    if user in connections then connections[user] else []
  }

  /** `retain(|s| !ptr_eq(s, sender))`: the list without the entries identical to `sender`, in order. */
  function Without(senders: seq<SenderId>, sender: SenderId): (r: seq<SenderId>)
    ensures |r| <= |senders|
  {
    if senders == [] then []
    else if senders[0] == sender then Without(senders[1..], sender)
    else [senders[0]] + Without(senders[1..], sender)
  }

  /** How many entries are identical to `sender`. */
  function Occurrences(senders: seq<SenderId>, sender: SenderId): nat
  {
    if senders == [] then 0 else (if senders[0] == sender then 1 else 0) + Occurrences(senders[1..], sender)
  }

  /** `Without` drops exactly the entries identical to `sender` and keeps every other one. */
  lemma {:induction false} WithoutKeepsOthers(senders: seq<SenderId>, sender: SenderId)
    ensures forall x :: x in Without(senders, sender) <==> x in senders && x != sender
    ensures |Without(senders, sender)| == |senders| - Occurrences(senders, sender)
    ensures sender !in senders ==> Without(senders, sender) == senders
  {
    if senders != [] {
      WithoutKeepsOthers(senders[1..], sender);
      assert senders == [senders[0]] + senders[1..];
    }
  }

  /** The total number of senders over all users. */
  ghost function TotalSenders(connections: map<UserId, seq<SenderId>>): nat
    decreases |connections.Keys|
  {
    if connections.Keys == {} then 0
    else
      var u :| u in connections.Keys;
      |connections[u]| + TotalSenders(connections - {u})
  }

  /** The total does not depend on which user is counted first. */
  lemma {:induction false} TotalSendersAt(connections: map<UserId, seq<SenderId>>, user: UserId)
    requires user in connections
    ensures TotalSenders(connections) == |connections[user]| + TotalSenders(connections - {user})
    decreases |connections.Keys|
  {
    var u :| u in connections.Keys && TotalSenders(connections) == |connections[u]| + TotalSenders(connections - {u});
    if u != user {
      var withoutU, withoutUser := connections - {u}, connections - {user};
      assert withoutU.Keys == connections.Keys - {u};
      assert withoutUser.Keys == connections.Keys - {user};
      TotalSendersAt(withoutU, user);
      TotalSendersAt(withoutUser, u);
      assert withoutU[user] == connections[user] && withoutUser[u] == connections[u];
      assert withoutU - {user} == withoutUser - {u};
    }
  }

  /** Setting one user's list changes the total by the change in that list's length. */
  lemma TotalSendersUpdate(connections: map<UserId, seq<SenderId>>, user: UserId, senders: seq<SenderId>)
    ensures TotalSenders(connections[user := senders]) + |SendersOf(connections, user)| == TotalSenders(connections) + |senders|
  {
    var updated := connections[user := senders];
    TotalSendersAt(updated, user);
    assert updated - {user} == connections - {user};
    if user in connections {
      TotalSendersAt(connections, user);
    } else {
      assert connections - {user} == connections;
    }
  }

  /** Dropping a user's key altogether takes away that user's senders from the total. */
  lemma TotalSendersRemove(connections: map<UserId, seq<SenderId>>, user: UserId)
    ensures TotalSenders(connections - {user}) + |SendersOf(connections, user)| == TotalSenders(connections)
  {
    if user in connections {
      TotalSendersAt(connections, user);
    } else {
      assert connections - {user} == connections;
    }
  }

  class Storage {
    var connections: map<UserId, seq<SenderId>>
    var connectionMap: map<ConnectionId, (UserId, SenderId)>

    /** A user is listed only while it has a sender. */
    ghost predicate Valid()
      reads this
    {
      forall u :: u in connections ==> connections[u] != []
    }

    constructor ()
      ensures Valid() && connections == map[] && connectionMap == map[]
    {
      connections, connectionMap := map[], map[];
    }

    /** `add`: the sender is appended to the user's list, and the connection id maps to both. */
    method Add(user: UserId, connectionId: ConnectionId, sender: SenderId)
      requires Valid()
      modifies this
      ensures Valid()
      ensures connections == old(connections)[user := SendersOf(old(connections), user) + [sender]]
      ensures connectionMap == old(connectionMap)[connectionId := (user, sender)]
      ensures TotalSenders(connections) == TotalSenders(old(connections)) + 1
    {
      TotalSendersUpdate(connections, user, SendersOf(connections, user) + [sender]);
      connections := connections[user := SendersOf(connections, user) + [sender]];
      connectionMap := connectionMap[connectionId := (user, sender)];
    }

    /**
     * `remove`: the entries identical to the sender leave the user's list, the user's key goes
     * when the list is empty, and the connection id's entry always goes.
     */
    method Remove(user: UserId, connectionId: ConnectionId, sender: SenderId)
      requires Valid()
      modifies this
      ensures Valid()
      ensures var kept := Without(SendersOf(old(connections), user), sender);
        connections == if user !in old(connections) then old(connections)
          else if kept == [] then old(connections) - {user}
          else old(connections)[user := kept]
      ensures connectionMap == old(connectionMap) - {connectionId}
      ensures TotalSenders(connections) + Occurrences(SendersOf(old(connections), user), sender) == TotalSenders(old(connections))
    {
      if user in connections {
        var kept := Without(connections[user], sender);
        WithoutKeepsOthers(connections[user], sender);
        if kept == [] {
          TotalSendersRemove(connections, user);
          connections := connections - {user};
        } else {
          TotalSendersUpdate(connections, user, kept);
          connections := connections[user := kept];
        }
      } else {
        assert Occurrences([], sender) == 0;
      }
      connectionMap := connectionMap - {connectionId};
    }

    /** `get_senders`: the user's list in order, empty for an unknown user. */
    method GetSenders(user: UserId) returns (senders: seq<SenderId>)
      ensures senders == SendersOf(connections, user)
      ensures user !in connections ==> senders == []
    {
      senders := if user in connections then connections[user] else [];
    }

    /** `get_sender_by_connection`: the sender registered under the id, if any. */
    method GetSenderByConnection(connectionId: ConnectionId) returns (sender: Option<SenderId>)
      ensures sender.Some? <==> connectionId in connectionMap
      ensures sender.Some? ==> sender.value == connectionMap[connectionId].1
    {
      if connectionId in connectionMap {
        sender := Some(connectionMap[connectionId].1);
      } else {
        sender := None;
      }
    }

    /** `all_user_ids`: each listed user once, in some order. */
    method AllUserIds() returns (users: seq<UserId>)
      ensures forall u :: u in users <==> u in connections
      ensures |users| == |connections.Keys|
    {
      users := [];
      var rest := connections.Keys;
      while rest != {}
        invariant rest <= connections.Keys
        invariant forall u :: u in users <==> u in connections && u !in rest
        invariant |users| + |rest| == |connections.Keys|
        decreases |rest|
      {
        var u :| u in rest;
        users := users + [u];
        rest := rest - {u};
      }
    }

    /** `connection_count`: the sum of the users' list lengths, summed user by user. */
    method ConnectionCount() returns (n: nat)
      ensures n == TotalSenders(connections)
    {
      n := 0;
      var rest := connections;
      while rest.Keys != {}
        invariant n + TotalSenders(rest) == TotalSenders(connections)
        decreases |rest.Keys|
      {
        var u :| u in rest.Keys;
        TotalSendersAt(rest, u);
        n := n + |rest[u]|;
        rest := rest - {u};
      }
    }
  }

  /** After `add`, the connection's sender is the one added and the user's list holds it, last. */
  lemma AddThenLookup(connections: map<UserId, seq<SenderId>>, connectionMap: map<ConnectionId, (UserId, SenderId)>,
                      user: UserId, connectionId: ConnectionId, sender: SenderId)
    ensures var c', m' := connections[user := SendersOf(connections, user) + [sender]], connectionMap[connectionId := (user, sender)];
      m'[connectionId].1 == sender && sender in SendersOf(c', user)
      && |SendersOf(c', user)| == |SendersOf(connections, user)| + 1
      && SendersOf(c', user)[..|SendersOf(connections, user)|] == SendersOf(connections, user)
  {
    var before := SendersOf(connections, user);
    assert (before + [sender])[..|before|] == before;
  }
}
