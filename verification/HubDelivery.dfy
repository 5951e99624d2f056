/**
 What reaches a client. Broadcasts overlap: each takes a snapshot of the room and then offers the
 event to one client after another, while others join, leave, are drained, dropped or closed.
 */
module HubDelivery {
  import opened Mailbox
  import opened Hub
  import opened HubProof
  import opened Sequences

  type CastId = nat

  datatype Cast = Cast(e: Event, snapshot: set<Client>, todo: set<Client>)

  datatype Net = Net(lobby: Lobby, boxes: map<Client, Box>, greeted: set<Client>, casts: map<CastId, Cast>)

  datatype Act =
    | Lifecycle(a: Step)
    | Greet(c: Client, online: seq<string>)   // presence.state, sent once by run after joining
    | StartCast(id: CastId, e: Event)         // Broadcast takes its snapshot
    | Deliver(id: CastId, c: Client)          // ... and calls sendNow for one client
    | FinishDrop(c: Client)                   // the close in sendNow's drop branch
    | Pump(c: Client)                         // writePump receives one event
    | CloseClient(c: Client)

  function Do(s: Net, act: Act): Net {
    match act
    case Lifecycle(a) =>
      var lobby := Next(s.lobby, a);
      s.(lobby := lobby,
         boxes := if a.Accept? && a.c !in s.lobby.phase then s.boxes[a.c := EMPTY] else s.boxes)
    case Greet(c, online) =>
      if c in s.boxes && c in s.lobby.phase && s.lobby.phase[c].Live? && c !in s.greeted then
        s.(greeted := s.greeted + {c}, boxes := s.boxes[c := Offer(s.boxes[c], PresenceState(c.roomID, online))])
      else s
    case StartCast(id, e) =>
      if id in s.casts then s
      else s.(casts := s.casts[id := Cast(e, Members(s.lobby.reg, e.room), Members(s.lobby.reg, e.room))])
    case Deliver(id, c) =>
      if id in s.casts && c in s.casts[id].todo && c in s.boxes then
        s.(boxes := s.boxes[c := Offer(s.boxes[c], s.casts[id].e)],
           casts := s.casts[id := s.casts[id].(todo := s.casts[id].todo - {c})])
      else s
    case FinishDrop(c) => if c in s.boxes then s.(boxes := s.boxes[c := Mailbox.FinishDrop(s.boxes[c])]) else s
    case Pump(c) => if c in s.boxes then s.(boxes := s.boxes[c := Dequeue(s.boxes[c])]) else s
    case CloseClient(c) => if c in s.boxes then s.(boxes := s.boxes[c := Shut(s.boxes[c])]) else s
  }

  function DoAll(s: Net, run: seq<Act>): Net
    decreases |run|
  {
    if run == [] then s else DoAll(Do(s, run[0]), run[1..])
  }

  function Begin(cap: int): Net {
    Net(Start(cap), map[], {}, map[])
  }

  predicate HasJoined(l: Lobby, c: Client) {
    c in l.phase && (l.phase[c].Live? || l.phase[c].Gone?)
  }

  // Every event offered to the client was for its room, after it joined.
  ghost predicate Addressed(l: Lobby, c: Client, b: Box) {
    forall e :: e in b.offered ==> HasJoined(l, c) && e.room == c.roomID
  }

  ghost predicate BoxesOk(s: Net) {
    && s.boxes.Keys == s.lobby.phase.Keys
    && forall c :: c in s.boxes ==> BoxOk(s.boxes[c]) && Addressed(s.lobby, c, s.boxes[c])
  }

  ghost predicate CastOk(s: Net, cast: Cast) {
    && cast.todo <= cast.snapshot
    && (forall c :: c in cast.snapshot ==> HasJoined(s.lobby, c) && c.roomID == cast.e.room && c in s.boxes)
    && (forall c :: c in cast.snapshot && c !in cast.todo ==> c in s.boxes && cast.e in s.boxes[c].offered)
  }

  ghost predicate NetOk(s: Net) {
    LobbyOk(s.lobby) && BoxesOk(s) && forall id :: id in s.casts ==> CastOk(s, s.casts[id])
  }

  // ---------- each act ----------

  // One box changed; what had been offered is still recorded.
  lemma BoxChanged(s: Net, t: Net, c: Client, b: Box)
    requires NetOk(s) && c in s.boxes && BoxOk(b) && Addressed(s.lobby, c, b)
    requires s.boxes[c].offered <= b.offered
    requires t == Net(s.lobby, s.boxes[c := b], t.greeted, s.casts)
    ensures NetOk(t)
  {
    forall id | id in t.casts ensures CastOk(t, t.casts[id]) {
      assert CastOk(s, s.casts[id]);
    }
  }

  lemma LobbyMoved(s: Net, a: Step)
    requires NetOk(s)
    ensures NetOk(Do(s, Lifecycle(a)))
  {
    var t := Do(s, Lifecycle(a));
    LobbyStaysOk(s.lobby, [a]);
    assert RunAll(s.lobby, [a]) == Next(s.lobby, a) by {
      assert [a][1..] == [];
    }
    forall c | HasJoined(s.lobby, c) ensures HasJoined(t.lobby, c) {
    }
    forall c | c in t.boxes ensures BoxOk(t.boxes[c]) && Addressed(t.lobby, c, t.boxes[c]) {
      assert c in s.boxes ==> Addressed(s.lobby, c, s.boxes[c]);
    }
    forall id | id in t.casts ensures CastOk(t, t.casts[id]) {
      assert CastOk(s, s.casts[id]);
    }
  }

  lemma CastStarts(s: Net, id: CastId, e: Event)
    requires NetOk(s)
    ensures NetOk(Do(s, StartCast(id, e)))
  {
    var t := Do(s, StartCast(id, e));
    forall j | j in t.casts ensures CastOk(t, t.casts[j]) {
      assert j in s.casts ==> CastOk(s, s.casts[j]);
    }
  }

  lemma Delivered(s: Net, id: CastId, c: Client)
    requires NetOk(s) && id in s.casts && c in s.casts[id].todo && c in s.boxes
    ensures NetOk(Do(s, Deliver(id, c)))
  {
    var e, b := s.casts[id].e, s.boxes[c];
    assert CastOk(s, s.casts[id]) && BoxOk(b);
    OfferKeeps(b, e);
    var u := s.(boxes := s.boxes[c := Offer(b, e)]);
    assert e in Offer(b, e).offered;
    BoxChanged(s, u, c, Offer(b, e));
    var t := Do(s, Deliver(id, c));
    forall j | j in t.casts ensures CastOk(t, t.casts[j]) {
      assert CastOk(u, u.casts[j]);
    }
  }

  lemma DoKeeps(s: Net, act: Act)
    requires NetOk(s)
    ensures NetOk(Do(s, act))
  {
    match act
    case Lifecycle(a) => LobbyMoved(s, a);
    case StartCast(id, e) => CastStarts(s, id, e);
    case Deliver(id, c) => if id in s.casts && c in s.casts[id].todo && c in s.boxes { Delivered(s, id, c); }
    case Greet(c, online) =>
      if Do(s, act) != s {
        OfferKeeps(s.boxes[c], PresenceState(c.roomID, online));
        BoxChanged(s, Do(s, act), c, Do(s, act).boxes[c]);
      }
    case FinishDrop(c) => if c in s.boxes { BoxChanged(s, Do(s, act), c, Do(s, act).boxes[c]); }
    case Pump(c) => if c in s.boxes { DequeueKeeps(s.boxes[c]); BoxChanged(s, Do(s, act), c, Do(s, act).boxes[c]); }
    case CloseClient(c) => if c in s.boxes { BoxChanged(s, Do(s, act), c, Do(s, act).boxes[c]); }
  }

  lemma {:induction false} DoAllKeeps(s: Net, run: seq<Act>)
    requires NetOk(s)
    ensures NetOk(DoAll(s, run))
    decreases |run|
  {
    if run != [] {
      DoKeeps(s, run[0]);
      DoAllKeeps(Do(s, run[0]), run[1..]);
    }
  }

  // ---------- what was sent, read off the run ----------

  // What one act sends to c.
  function SentBy(s: Net, act: Act, c: Client): seq<Event> {
    match act
    case Greet(d, online) =>
      if d == c && c in s.boxes && c in s.lobby.phase && s.lobby.phase[c].Live? && c !in s.greeted then
        [PresenceState(c.roomID, online)]
      else []
    case Deliver(id, d) =>
      if d == c && id in s.casts && c in s.casts[id].todo && c in s.boxes then [s.casts[id].e] else []
    case _ => []
  }

  // Everything sent to c over a run, in order.
  function SentTo(s: Net, run: seq<Act>, c: Client): seq<Event>
    decreases |run|
  {
    if run == [] then [] else SentBy(s, run[0], c) + SentTo(Do(s, run[0]), run[1..], c)
  }

  // Everything c's write pump took off the queue over a run, in order.
  function PumpedTo(s: Net, run: seq<Act>, c: Client): seq<Event>
    decreases |run|
  {
    if run == [] then [] else PumpedBy(s, run[0], c) + PumpedTo(Do(s, run[0]), run[1..], c)
  }

  function PumpedBy(s: Net, act: Act, c: Client): seq<Event> {
    if act == Pump(c) && c in s.boxes && s.boxes[c].queue != [] then [s.boxes[c].queue[0]] else []
  }

  // How often broadcast id sent its event to c.
  function Deliveries(s: Net, run: seq<Act>, id: CastId, c: Client): nat
    decreases |run|
  {
    if run == [] then 0
    else
      (if run[0] == Deliver(id, c) && SentBy(s, run[0], c) != [] then 1 else 0)
      + Deliveries(Do(s, run[0]), run[1..], id, c)
  }

  function OfferedTo(s: Net, c: Client): seq<Event> {
    if c in s.boxes then s.boxes[c].offered else []
  }

  function TakenBy(s: Net, c: Client): seq<Event> {
    if c in s.boxes then s.boxes[c].taken else []
  }

  function Reached(s: Net, id: CastId, c: Client): nat {
    if id in s.casts && c in s.casts[id].snapshot && c !in s.casts[id].todo then 1 else 0
  }

  lemma ActRecords(s: Net, act: Act, c: Client)
    requires BoxesOk(s)
    ensures OfferedTo(Do(s, act), c) == OfferedTo(s, c) + SentBy(s, act, c)
    ensures TakenBy(Do(s, act), c) == TakenBy(s, c) + PumpedBy(s, act, c)
  {
  }

  lemma {:induction false} RunRecords(s: Net, run: seq<Act>, c: Client)
    requires NetOk(s)
    ensures OfferedTo(DoAll(s, run), c) == OfferedTo(s, c) + SentTo(s, run, c)
    ensures TakenBy(DoAll(s, run), c) == TakenBy(s, c) + PumpedTo(s, run, c)
    decreases |run|
  {
    if run != [] {
      DoKeeps(s, run[0]);
      var t := Do(s, run[0]);
      ActRecords(s, run[0], c);
      RunRecords(t, run[1..], c);
      Regroup(OfferedTo(s, c), SentBy(s, run[0], c), SentTo(t, run[1..], c));
      Regroup(TakenBy(s, c), PumpedBy(s, run[0], c), PumpedTo(t, run[1..], c));
    }
  }

  lemma DeliverCounts(s: Net, act: Act, id: CastId, c: Client)
    requires NetOk(s)
    ensures Reached(Do(s, act), id, c)
      == Reached(s, id, c) + if act == Deliver(id, c) && SentBy(s, act, c) != [] then 1 else 0
  {
    if id in s.casts {
      assert CastOk(s, s.casts[id]);
    }
  }

  lemma {:induction false} RunCounts(s: Net, run: seq<Act>, id: CastId, c: Client)
    requires NetOk(s)
    ensures Reached(DoAll(s, run), id, c) == Reached(s, id, c) + Deliveries(s, run, id, c)
    decreases |run|
  {
    if run != [] {
      DoKeeps(s, run[0]);
      DeliverCounts(s, run[0], id, c);
      RunCounts(Do(s, run[0]), run[1..], id, c);
    }
  }

  // ---------- the theorems ----------

  // Over any run: queues stay within their bound; an open client that is not being dropped has, in
  // what its pump took and what is queued, exactly the events the run sent it, in order; and nothing is
  // ever sent to a client that did not join, or for another room.
  lemma NoSilentGap(cap: int, run: seq<Act>, c: Client)
    requires c in DoAll(Begin(cap), run).boxes
    ensures var s := DoAll(Begin(cap), run); var b, sent := s.boxes[c], SentTo(Begin(cap), run, c);
      && |b.queue| <= SEND_BUFFER
      && (!b.done && b.dropping == 0 ==> PumpedTo(Begin(cap), run, c) + b.queue == sent)
      && (forall e :: e in sent ==> HasJoined(s.lobby, c) && e.room == c.roomID)
  {
    LobbyStaysOk(Start(cap), []);
    DoAllKeeps(Begin(cap), run);
    RunRecords(Begin(cap), run, c);
    var s := DoAll(Begin(cap), run);
    assert BoxOk(s.boxes[c]) && Addressed(s.lobby, c, s.boxes[c]);
    assert [] + SentTo(Begin(cap), run, c) == SentTo(Begin(cap), run, c);
    assert [] + PumpedTo(Begin(cap), run, c) == PumpedTo(Begin(cap), run, c);
  }

  // A broadcast sends its event once to each client that was in the room when it took its snapshot,
  // as soon as it has got to it, and never to anybody else.
  lemma SentOnce(cap: int, run: seq<Act>, id: CastId, c: Client)
    ensures var s := DoAll(Begin(cap), run); var n := Deliveries(Begin(cap), run, id, c);
      && n <= 1
      && (n == 1 <==> id in s.casts && c in s.casts[id].snapshot && c !in s.casts[id].todo)
      && (n == 1 ==> c.roomID == s.casts[id].e.room && s.casts[id].e in SentTo(Begin(cap), run, c))
  {
    LobbyStaysOk(Start(cap), []);
    DoAllKeeps(Begin(cap), run);
    RunCounts(Begin(cap), run, id, c);
    RunRecords(Begin(cap), run, c);
    var s := DoAll(Begin(cap), run);
    assert [] + SentTo(Begin(cap), run, c) == SentTo(Begin(cap), run, c);
    if id in s.casts {
      assert CastOk(s, s.casts[id]);
    }
  }

  lemma {:induction false} CastStays(s: Net, run: seq<Act>, id: CastId)
    requires id in s.casts
    ensures var t := DoAll(s, run);
      id in t.casts && t.casts[id].e == s.casts[id].e && t.casts[id].snapshot == s.casts[id].snapshot
    decreases |run|
  {
    if run != [] {
      CastStays(Do(s, run[0]), run[1..], id);
    }
  }

  // A broadcast is for exactly those who were live in the event's room when it began, if the hub was
  // open; whoever joins or leaves later makes no difference.
  lemma SnapshotIsRoom(cap: int, before: seq<Act>, id: CastId, e: Event, after: seq<Act>)
    requires id !in DoAll(Begin(cap), before).casts
    ensures var s := DoAll(Begin(cap), before); var t := DoAll(Do(s, StartCast(id, e)), after);
      && id in t.casts && t.casts[id].e == e
      && forall c :: c in t.casts[id].snapshot <==>
           !s.lobby.reg.closed && c in s.lobby.phase && s.lobby.phase[c].Live? && c.roomID == e.room
  {
    LobbyStaysOk(Start(cap), []);
    DoAllKeeps(Begin(cap), before);
    CastStays(Do(DoAll(Begin(cap), before), StartCast(id, e)), after, id);
  }
}
