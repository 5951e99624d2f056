/** The hub's two representations agree over every run of the client lifecycle. */
module HubProof {
  import opened Mailbox
  import opened Hub

  ghost predicate CountsAgree(g: Registry) {
    forall u :: AgreesOn(g, u)
  }

  ghost predicate NoEmptyRoom(g: Registry) {
    forall r :: r in g.rooms ==> g.rooms[r] != {}
  }

  ghost predicate RepOk(g: Registry) {
    CountsAgree(g) && NoEmptyRoom(g) && (g.closed ==> g.rooms == map[] && g.userCounts == map[])
  }

  // ---------- one operation ----------

  lemma JoinedConnections(g: Registry, room: RoomId, c: Client, u: UserId)
    requires MayJoin(g, c)
    ensures Connections(Joined(g, room, c).rooms, u)
         == if u == c.userID then Connections(g.rooms, u) + {(room, c)} else Connections(g.rooms, u)
  {
    var rooms := Joined(g, room, c).rooms;
    var before, after := Connections(g.rooms, u), Connections(rooms, u);
    forall r, d | (r, d) in before ensures (r, d) in after {
      assert r in rooms && d in rooms[r];
    }
    PairwiseEqual(if u == c.userID then before + {(room, c)} else before, after);
  }

  lemma JoinAgrees(g: Registry, room: RoomId, c: Client, u: UserId)
    requires MayJoin(g, c) && c !in Members(g, room) && AgreesOn(g, u)
    ensures AgreesOn(Joined(g, room, c), u)
  {
    var before := Connections(g.rooms, u);
    JoinedConnections(g, room, c, u);
    if u == c.userID {
      assert (room, c) !in before;
      assert |before + {(room, c)}| == |before| + 1;
    }
  }

  lemma JoinKeeps(g: Registry, room: RoomId, c: Client)
    requires RepOk(g) && c !in Members(g, room)
    ensures RepOk(Joined(g, room, c))
  {
    if MayJoin(g, c) {
      forall u ensures AgreesOn(Joined(g, room, c), u) {
        assert AgreesOn(g, u);
        JoinAgrees(g, room, c, u);
      }
    }
  }

  lemma LeftConnections(g: Registry, room: RoomId, c: Client, u: UserId)
    requires room in g.rooms
    ensures Connections(WithoutMember(g, room, c).rooms, u) == Connections(g.rooms, u) - {(room, c)}
  {
    var rooms := WithoutMember(g, room, c).rooms;
    var before, after := Connections(g.rooms, u), Connections(rooms, u);
    forall r, d | (r, d) in before && (r, d) != (room, c) ensures (r, d) in after {
      assert r in g.rooms && d in g.rooms[r];
      assert r == room ==> d in g.rooms[room] - {c};
      assert r in rooms && d in rooms[r];
    }
    forall r, d | (r, d) in after ensures (r, d) in before && (r, d) != (room, c) {
      assert r in rooms && d in rooms[r];
    }
    PairwiseEqual(before - {(room, c)}, after);
  }

  lemma PairwiseEqual<A, B>(s: set<(A, B)>, t: set<(A, B)>)
    requires forall a, b :: (a, b) in s <==> (a, b) in t
    ensures s == t
  {
    forall x ensures x in s <==> x in t {
      assert x == (x.0, x.1);
    }
  }

  lemma LeaveAgrees(g: Registry, room: RoomId, c: Client, u: UserId)
    requires room in g.rooms && c in g.rooms[room] && AgreesOn(g, u)
    ensures AgreesOn(WithoutMember(g, room, c), u)
  {
    var before := Connections(g.rooms, u);
    LeftConnections(g, room, c, u);
    if u == c.userID {
      assert (room, c) in before;
      assert |before - {(room, c)}| == |before| - 1;
      assert before - {(room, c)} == {} <==> |before| == 1;
    } else {
      assert before - {(room, c)} == before;
    }
  }

  lemma LeaveKeeps(g: Registry, room: RoomId, c: Client)
    requires RepOk(g) && (room in g.rooms ==> c in g.rooms[room])
    ensures RepOk(WithoutMember(g, room, c))
  {
    if room in g.rooms {
      forall u ensures AgreesOn(WithoutMember(g, room, c), u) {
        assert AgreesOn(g, u);
        LeaveAgrees(g, room, c, u);
      }
    }
  }

  // Leaving undoes joining.
  lemma LeaveUndoesJoin(g: Registry, room: RoomId, c: Client)
    requires RepOk(g) && MayJoin(g, c) && c !in Members(g, room)
    ensures WithoutMember(Joined(g, room, c), room, c) == g
  {
    var j := Joined(g, room, c);
    var members := Members(g, room);
    assert members + {c} - {c} == members;
    if room in g.rooms {
      assert g.rooms[room := members + {c}][room := members] == g.rooms;
    } else {
      assert g.rooms[room := members + {c}] - {room} == g.rooms;
    }
    var u := c.userID;
    assert AgreesOn(g, u);
    if u in g.userCounts {
      assert Connections(g.rooms, u) != {};
      assert g.userCounts[u := g.userCounts[u] + 1][u := g.userCounts[u]] == g.userCounts;
    } else {
      assert g.userCounts[u := 1] - {u} == g.userCounts;
    }
  }

  lemma CloseKeeps(g: Registry)
    requires RepOk(g)
    ensures RepOk(ClosedRegistry(g))
  {
    forall u ensures AgreesOn(ClosedRegistry(g), u) {
      assert AgreesOn(g, u);
      assert !g.closed ==> Connections(ClosedRegistry(g).rooms, u) == {};
    }
  }

  // Join alone does not protect the count: it goes wrong exactly when a client joins where it is.
  lemma JoinKeepsIff(g: Registry, room: RoomId, c: Client)
    requires RepOk(g)
    ensures RepOk(Joined(g, room, c)) <==> !MayJoin(g, c) || c !in Members(g, room)
  {
    if MayJoin(g, c) {
      if c in Members(g, room) {
        assert AgreesOn(g, c.userID);
        JoinedConnections(g, room, c, c.userID);
        assert (room, c) in Connections(g.rooms, c.userID);
        assert Connections(g.rooms, c.userID) + {(room, c)} == Connections(g.rooms, c.userID);
        assert !AgreesOn(Joined(g, room, c), c.userID);
      } else {
        JoinKeeps(g, room, c);
      }
    }
  }

  // Nor does Leave: it goes wrong exactly when the client is not in a room that exists while its
  // user is connected elsewhere.
  lemma LeaveKeepsIff(g: Registry, room: RoomId, c: Client)
    requires RepOk(g)
    ensures RepOk(WithoutMember(g, room, c)) <==>
      room !in g.rooms || c in g.rooms[room] || c.userID !in g.userCounts
  {
    if room in g.rooms && c !in g.rooms[room] {
      var d := WithoutMember(g, room, c);
      LeftConnections(g, room, c, c.userID);
      assert AgreesOn(g, c.userID);
      assert (room, c) !in Connections(g.rooms, c.userID);
      assert Connections(d.rooms, c.userID) == Connections(g.rooms, c.userID);
      if c.userID !in g.userCounts {
        assert g.rooms[room] - {c} == g.rooms[room];
        assert d.rooms == g.rooms && d == g;
      } else {
        assert Count(d, c.userID) == Count(g, c.userID) - 1;
        assert !AgreesOn(d, c.userID);
      }
    } else {
      LeaveKeeps(g, room, c);
    }
  }

  // ---------- runs of the lifecycle ----------

  datatype Phase = Accepted | Refused | Live | Gone

  datatype Lobby = Lobby(reg: Registry, phase: map<Client, Phase>)

  datatype Step =
    | Accept(c: Client)          // newClient
    | RunJoin(c: Client)         // the first thing run does
    | RunLeave(c: Client)        // deferred by run after a successful join
    | CloseHub

  function Next(s: Lobby, a: Step): Lobby {
    match a
    case Accept(c) => if c in s.phase then s else s.(phase := s.phase[c := Accepted])
    case RunJoin(c) =>
      if c in s.phase && s.phase[c].Accepted? then
        Lobby(Joined(s.reg, c.roomID, c), s.phase[c := if MayJoin(s.reg, c) then Live else Refused])
      else s
    case RunLeave(c) =>
      if c in s.phase && s.phase[c].Live? then
        Lobby(WithoutMember(s.reg, c.roomID, c), s.phase[c := Gone])
      else s
    case CloseHub => s.(reg := ClosedRegistry(s.reg))
  }

  function RunAll(s: Lobby, run: seq<Step>): Lobby
    decreases |run|
  {
    if run == [] then s else RunAll(Next(s, run[0]), run[1..])
  }

  // The cap is set once, before anyone joins.
  function Start(cap: int): Lobby {
    Lobby(NEW_REGISTRY.(maxPerUser := cap), map[])
  }

  ghost predicate PhasesOk(s: Lobby) {
    && (forall r, c :: r in s.reg.rooms && c in s.reg.rooms[r] ==> r == c.roomID && c in s.phase && s.phase[c].Live?)
    && (forall c :: c in s.phase && s.phase[c].Live? && !s.reg.closed ==> c in Members(s.reg, c.roomID))
  }

  ghost predicate CapOk(g: Registry) {
    g.maxPerUser > 0 ==> forall u :: Count(g, u) <= g.maxPerUser
  }

  ghost predicate LobbyOk(s: Lobby) {
    RepOk(s.reg) && PhasesOk(s) && CapOk(s.reg)
  }

  lemma JoinPhases(s: Lobby, c: Client)
    requires PhasesOk(s) && c in s.phase && s.phase[c].Accepted?
    ensures PhasesOk(Next(s, RunJoin(c))) && c !in Members(s.reg, c.roomID)
  {
  }

  lemma JoinStep(s: Lobby, c: Client)
    requires LobbyOk(s) && c in s.phase && s.phase[c].Accepted?
    ensures LobbyOk(Next(s, RunJoin(c)))
  {
    JoinPhases(s, c);
    JoinKeeps(s.reg, c.roomID, c);
    forall u ensures s.reg.maxPerUser > 0 ==> Count(Joined(s.reg, c.roomID, c), u) <= s.reg.maxPerUser {
      assert s.reg.maxPerUser > 0 ==> Count(s.reg, u) <= s.reg.maxPerUser;
    }
  }

  lemma LeavePhases(s: Lobby, c: Client)
    requires PhasesOk(s) && c in s.phase && s.phase[c].Live?
    requires s.reg.closed ==> s.reg.rooms == map[]
    ensures PhasesOk(Next(s, RunLeave(c))) && (c.roomID in s.reg.rooms ==> c in s.reg.rooms[c.roomID])
  {
  }

  lemma LeaveStep(s: Lobby, c: Client)
    requires LobbyOk(s) && c in s.phase && s.phase[c].Live?
    ensures LobbyOk(Next(s, RunLeave(c)))
  {
    LeavePhases(s, c);
    LeaveKeeps(s.reg, c.roomID, c);
    forall u ensures s.reg.maxPerUser > 0 ==> Count(WithoutMember(s.reg, c.roomID, c), u) <= s.reg.maxPerUser {
      assert s.reg.maxPerUser > 0 ==> Count(s.reg, u) <= s.reg.maxPerUser;
    }
  }

  lemma {:induction false} LobbyStaysOk(s: Lobby, run: seq<Step>)
    requires LobbyOk(s)
    ensures LobbyOk(RunAll(s, run)) && RunAll(s, run).reg.maxPerUser == s.reg.maxPerUser
    ensures s.reg.closed ==> RunAll(s, run).reg == s.reg
    decreases |run|
  {
    if run != [] {
      match run[0] {
        case RunJoin(c) => if c in s.phase && s.phase[c].Accepted? { JoinStep(s, c); }
        case RunLeave(c) => if c in s.phase && s.phase[c].Live? { LeaveStep(s, c); }
        case CloseHub => CloseKeeps(s.reg);
        case _ =>
      }
      LobbyStaysOk(Next(s, run[0]), run[1..]);
    }
  }

  // Over any run: each user's count is the number of its live connections, no count is kept at
  // zero and no room empty, nobody exceeds the cap, and a closed hub stays empty for good.
  lemma RegistryIsConsistent(cap: int, run: seq<Step>, more: seq<Step>)
    ensures var g := RunAll(Start(cap), run).reg;
      && (forall u :: u in g.userCounts ==> g.userCounts[u] > 0)
      && (forall u :: Count(g, u) == |Connections(g.rooms, u)|)
      && (forall r :: r in g.rooms ==> g.rooms[r] != {})
      && (cap > 0 ==> forall u :: |Connections(g.rooms, u)| <= cap)
      && (g.closed ==>
            var later := RunAll(RunAll(Start(cap), run), more).reg;
            later.closed && later.rooms == map[] && later.userCounts == map[])
  {
    LobbyStaysOk(Start(cap), run);
    LobbyStaysOk(RunAll(Start(cap), run), more);
    var g := RunAll(Start(cap), run).reg;
    forall u
      ensures u in g.userCounts ==> g.userCounts[u] > 0
      ensures Count(g, u) == |Connections(g.rooms, u)|
    {
      assert AgreesOn(g, u);
    }
  }
}
