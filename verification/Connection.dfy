/** The life of one websocket connection, as its goroutine runs it when nothing else happens. */
module Connection {
  import opened Mailbox
  import opened Hub
  import opened HubProof

  // Joins, sends the newcomer who is there, and tells the room.
  method Arrive(h: Hub, c: Client) returns (joined: bool)
    requires c !in Members(h.State(), c.roomID)
    modifies h, c, Members(h.State(), c.roomID)
    ensures joined == MayJoin(old(h.State()), c) && h.State() == Joined(old(h.State()), c.roomID, c)
    ensures !joined ==> c.done && c.offered == old(c.offered) && c.send == old(c.send)
    ensures forall m :: m in Members(old(h.State()), c.roomID) ==>
      m.Contents() == if joined then Sent(old(m.Contents()), PresenceJoin(c.roomID, c.username)) else old(m.Contents())
    ensures joined ==> exists online ::
      && IsPresence(h.State(), c.roomID, online)
      && var greeted := Sent(old(c.Contents()), PresenceState(c.roomID, online));
         c.Contents() == Sent(greeted, PresenceJoin(c.roomID, c.username))
  {
    joined := h.Join(c.roomID, c);
    if !joined {
      c.Close();
      return;
    }
    var online := h.Presence(c.roomID);
    c.SendNow(PresenceState(c.roomID, online));
    h.Broadcast(c.roomID, PresenceJoin(c.roomID, c.username));
  }

  // Leaves and tells those who remain.
  method Depart(h: Hub, c: Client)
    modifies h, Members(h.State(), c.roomID)
    ensures h.State() == WithoutMember(old(h.State()), c.roomID, c)
    ensures forall m :: m in Members(old(h.State()), c.roomID) && m != c ==>
      m.Contents() == Sent(old(m.Contents()), PresenceLeave(c.roomID, c.username))
    ensures c.Contents() == old(c.Contents())
  {
    h.Leave(c.roomID, c);
    h.Broadcast(c.roomID, PresenceLeave(c.roomID, c.username));
  }

  // The registry ends as it began; everyone who was in the room is offered the arrival and the
  // departure, in that order.
  method Run(h: Hub, c: Client, fails: nat -> bool, over: nat -> bool) returns (joined: bool)
    requires RepOk(h.State()) && c !in Members(h.State(), c.roomID)
    modifies h, c, Members(h.State(), c.roomID)
    ensures joined == MayJoin(old(h.State()), c)
    ensures h.State() == old(h.State()) && c.done
    ensures !joined ==> c.offered == old(c.offered) && c.send == old(c.send)
    ensures forall m :: m in Members(old(h.State()), c.roomID) ==>
      m.Contents() == if joined then
        Sent(Sent(old(m.Contents()), PresenceJoin(c.roomID, c.username)), PresenceLeave(c.roomID, c.username))
      else old(m.Contents())
  {
    ghost var g := h.State();
    joined := Arrive(h, c);
    if !joined {
      return;
    }
    c.WritePump(fails, over);
    c.Close();
    Depart(h, c);
    LeaveUndoesJoin(g, c.roomID, c);
  }
}
