/** The registry of live websocket clients: clients by room, and connections counted by user. */
module Hub {
  import opened Mailbox

  type Rooms = map<RoomId, set<Client>>

  datatype Registry = Registry(rooms: Rooms, userCounts: map<UserId, nat>, maxPerUser: int, closed: bool)

  const NEW_REGISTRY := Registry(map[], map[], 0, false)

  function Count(g: Registry, u: UserId): nat {
    if u in g.userCounts then g.userCounts[u] else 0
  }

  // The live connections of one user, over all rooms.
  function Connections(rooms: Rooms, u: UserId): set<(RoomId, Client)> {
    set r, c | r in rooms && c in rooms[r] && c.userID == u :: (r, c)
  }

  predicate AgreesOn(g: Registry, u: UserId) {
    (u in g.userCounts <==> Connections(g.rooms, u) != {}) && Count(g, u) == |Connections(g.rooms, u)|
  }

  function Members(g: Registry, room: RoomId): set<Client> {
    if room in g.rooms then g.rooms[room] else {}
  }

  predicate MayJoin(g: Registry, c: Client) {
    !g.closed && !(g.maxPerUser > 0 && Count(g, c.userID) >= g.maxPerUser)
  }

  function Joined(g: Registry, room: RoomId, c: Client): Registry {
    if !MayJoin(g, c) then g
    else g.(rooms := g.rooms[room := Members(g, room) + {c}],
            userCounts := g.userCounts[c.userID := Count(g, c.userID) + 1])
  }

  function Decremented(counts: map<UserId, nat>, u: UserId): map<UserId, nat> {
    if u !in counts || counts[u] == 0 then counts
    else if counts[u] == 1 then counts - {u}
    else counts[u := counts[u] - 1]
  }

  // The usernames in the room, each once.
  ghost predicate IsPresence(g: Registry, room: RoomId, online: seq<string>) {
    && (forall i, j :: 0 <= i < j < |online| ==> online[i] != online[j])
    && (forall name :: name in online <==> exists c :: c in Members(g, room) && c.username == name)
  }

  // The count goes down whether or not c was in the room.
  function WithoutMember(g: Registry, room: RoomId, c: Client): Registry {
    if room !in g.rooms then g
    else
      var rest := g.rooms[room] - {c};
      g.(rooms := if rest == {} then g.rooms - {room} else g.rooms[room := rest],
         userCounts := Decremented(g.userCounts, c.userID))
  }

  function ClosedRegistry(g: Registry): Registry {
    if g.closed then g else Registry(map[], map[], g.maxPerUser, true)
  }

  function Everyone(g: Registry): set<Client> {
    set r, c | r in g.rooms && c in g.rooms[r] :: c
  }

  class Hub {
    var rooms: Rooms
    var userCounts: map<UserId, nat>
    var maxPerUser: int
    var closed: bool

    constructor ()
      ensures State() == NEW_REGISTRY
    {
      rooms, userCounts, maxPerUser, closed := map[], map[], 0, false;
    }

    function State(): Registry
      reads this
    {
      Registry(rooms, userCounts, maxPerUser, closed)
    }

    method SetMaxConnsPerUser(n: int)
      modifies this
      ensures State() == old(State()).(maxPerUser := n)
    {
      maxPerUser := n;
    }

    method Join(roomID: RoomId, c: Client) returns (ok: bool)
      modifies this
      ensures ok == MayJoin(old(State()), c)
      ensures State() == Joined(old(State()), roomID, c)
    {
      if closed {
        return false;
      }
      var count := if c.userID in userCounts then userCounts[c.userID] else 0;
      if maxPerUser > 0 && count >= maxPerUser {
        return false;
      }
      var members := {};
      if roomID in rooms {
        members := rooms[roomID];
      }
      rooms := rooms[roomID := members + {c}];
      userCounts := userCounts[c.userID := count + 1];
      return true;
    }

    method Leave(roomID: RoomId, c: Client)
      modifies this
      ensures State() == WithoutMember(old(State()), roomID, c)
    {
      if roomID !in rooms {
        return;
      }
      var members := rooms[roomID] - {c};
      rooms := rooms[roomID := members];
      if members == {} {
        rooms := rooms - {roomID};
        assert rooms == old(rooms) - {roomID};
      }
      if c.userID in userCounts && userCounts[c.userID] > 0 {
        userCounts := userCounts[c.userID := userCounts[c.userID] - 1];
        if userCounts[c.userID] == 0 {
          userCounts := userCounts - {c.userID};
          assert userCounts == old(userCounts) - {c.userID};
        }
      }
    }

    method Snapshot(roomID: RoomId) returns (clients: seq<Client>)
      ensures forall i, j :: 0 <= i < j < |clients| ==> clients[i] != clients[j]
      ensures forall c :: c in clients <==> c in Members(State(), roomID)
    {
      clients := [];
      var todo := if roomID in rooms then rooms[roomID] else {};
      while todo != {}
        invariant todo <= Members(State(), roomID)
        invariant forall c :: c in clients <==> c in Members(State(), roomID) - todo
        invariant forall i, j :: 0 <= i < j < |clients| ==> clients[i] != clients[j]
        decreases |todo|
      {
        var c :| c in todo;
        assert c !in clients;
        todo := todo - {c};
        clients := clients + [c];
      }
    }

    // Each client in the room is offered the event once, and nobody else is touched.
    method Broadcast(roomID: RoomId, e: Event)
      modifies Members(State(), roomID)
      ensures forall c :: c in Members(old(State()), roomID) ==> c.Contents() == Sent(old(c.Contents()), e)
    {
      ghost var members := Members(State(), roomID);
      var clients := Snapshot(roomID);
      for i := 0 to |clients|
        invariant forall k :: 0 <= k < |clients| ==> clients[k] in members
        invariant forall k :: 0 <= k < i ==> clients[k].Contents() == Sent(old(clients[k].Contents()), e)
        invariant forall k :: i <= k < |clients| ==> clients[k].Contents() == old(clients[k].Contents())
      {
        clients[i].SendNow(e);
      }
    }

    // The user's live connections over all rooms, if the counters are right; and the test made before
    // an upgrade is the one Join makes.
    method ConnCount(userID: UserId) returns (n: nat)
      ensures AgreesOn(State(), userID) ==> n == |Connections(rooms, userID)|
      ensures userID in userCounts ==> n == userCounts[userID]
      ensures userID !in userCounts ==> n == 0
      ensures forall c: Client :: c.userID == userID && !closed ==>
        (MayJoin(State(), c) <==> maxPerUser <= 0 || n < maxPerUser)
    {
      n := if userID in userCounts then userCounts[userID] else 0;
    }

    method Presence(roomID: RoomId) returns (online: seq<string>)
      ensures IsPresence(State(), roomID, online)
    {
      online := [];
      var seen: set<string> := {};
      var todo := if roomID in rooms then rooms[roomID] else {};
      ghost var past: set<Client> := {};
      while todo != {}
        invariant todo + past == Members(State(), roomID)
        invariant forall i, j :: 0 <= i < j < |online| ==> online[i] != online[j]
        invariant forall name :: name in online <==> name in seen
        invariant forall name :: name in seen <==> exists c :: c in past && c.username == name
        decreases |todo|
      {
        var c :| c in todo;
        todo, past := todo - {c}, past + {c};
        if c.username !in seen {
          seen := seen + {c.username};
          online := online + [c.username];
        }
      }
    }

    // Empties the registry for good and closes everyone who was in it.
    method Close()
      modifies this, Everyone(State())`done
      ensures State() == ClosedRegistry(old(State())) && closed
      ensures !old(closed) ==> rooms == map[] && userCounts == map[]
      ensures !old(closed) ==> forall c :: c in Everyone(old(State())) ==> c.done
    {
      if closed {
        return;
      }
      closed := true;
      ghost var before := old(State());
      var todo := Everyone(Registry(rooms, userCounts, maxPerUser, closed));
      rooms, userCounts := map[], map[];
      while todo != {}
        invariant todo <= Everyone(before)
        invariant forall c :: c in Everyone(before) - todo ==> c.done
        invariant State() == ClosedRegistry(before)
        decreases |todo|
      {
        var c :| c in todo;
        todo := todo - {c};
        c.Close();
      }
    }
  }
}
