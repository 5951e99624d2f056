/** A websocket client's bounded outbound queue, with the drop of a client that does not keep up. */
module Mailbox {

  type RoomId = nat
  type UserId = nat

  datatype Event =
    | MessageNew(room: RoomId, message: nat)
    | Typing(room: RoomId, username: string)
    | PresenceState(room: RoomId, online: seq<string>)
    | PresenceJoin(room: RoomId, username: string)
    | PresenceLeave(room: RoomId, username: string)

  const SEND_BUFFER: nat := 32

  // taken and offered are history: what the write pump received, what was given to sendNow.
  datatype Box = Box(queue: seq<Event>, taken: seq<Event>, offered: seq<Event>, dropping: nat, done: bool)

  const EMPTY := Box([], [], [], 0, false)

  // The select of sendNow: enqueue, or enter the branch that drops the client.
  function Offer(b: Box, e: Event): Box {
    if |b.queue| < SEND_BUFFER then b.(queue := b.queue + [e], offered := b.offered + [e])
    else b.(offered := b.offered + [e], dropping := b.dropping + 1)
  }

  // The close at the end of that branch.
  function FinishDrop(b: Box): Box {
    if b.dropping == 0 then b else b.(dropping := b.dropping - 1, done := true)
  }

  function Shut(b: Box): Box {
    b.(done := true)
  }

  function Dequeue(b: Box): Box {
    if b.queue == [] then b else b.(queue := b.queue[1..], taken := b.taken + [b.queue[0]])
  }

  // sendNow with nothing in between.
  function Sent(b: Box, e: Event): Box {
    if |b.queue| < SEND_BUFFER then Offer(b, e) else FinishDrop(Offer(b, e))
  }

  // The queue is bounded, and a client that is open and not being dropped has missed nothing.
  ghost predicate BoxOk(b: Box) {
    && |b.queue| <= SEND_BUFFER
    && (!b.done && b.dropping == 0 ==> b.taken + b.queue == b.offered)
  }

  lemma OfferKeeps(b: Box, e: Event)
    requires BoxOk(b)
    ensures BoxOk(Offer(b, e))
  {
    if |b.queue| < SEND_BUFFER {
      assert b.taken + (b.queue + [e]) == (b.taken + b.queue) + [e];
    }
  }

  lemma DequeueKeeps(b: Box)
    requires BoxOk(b)
    ensures BoxOk(Dequeue(b))
  {
    if b.queue != [] {
      assert b.taken + [b.queue[0]] + b.queue[1..] == b.taken + b.queue;
    }
  }

  class Client {
    const roomID: RoomId
    const userID: UserId
    const username: string
    var send: seq<Event>
    var done: bool
    ghost var taken: seq<Event>
    ghost var offered: seq<Event>

    constructor (roomID: RoomId, userID: UserId, username: string)
      ensures this.roomID == roomID && this.userID == userID && this.username == username
      ensures Contents() == EMPTY
    {
      this.roomID, this.userID, this.username := roomID, userID, username;
      send, done, taken, offered := [], false, [], [];
    }

    ghost function Contents(): Box
      reads this
    {
      Box(send, taken, offered, 0, done)
    }

    method SendNow(e: Event)
      modifies this
      ensures Contents() == Sent(old(Contents()), e)
      ensures |old(send)| < 32 ==> send == old(send) + [e] && done == old(done)
      ensures |old(send)| >= 32 ==> send == old(send) && done
    {
      offered := offered + [e];
      if |send| < SEND_BUFFER {
        send := send + [e];
      } else {
        Close();
      }
    }

    // Idempotent when called one call after another.
    method Close()
      modifies this`done
      ensures done
    {
      if !done {
        done := true;
      }
    }

    method Write(e: Event, fails: bool) returns (ok: bool)
      ensures ok == !fails
    {
      ok := !fails;
    }

    // The write pump until it sees that its context has ended, a write fails, or (here) the queue is
    // empty. over(k) is whether it sees that before it takes the k-th event, fails(k) whether writing
    // the k-th event fails: it stops at the first of these and nowhere else.
    method WritePump(fails: nat -> bool, over: nat -> bool)
      modifies this`send, this`taken
      ensures taken + send == old(taken) + old(send)
      ensures old(taken) <= taken && |send| <= |old(send)|
      ensures var n := |taken| - |old(taken)|;
        && (forall k: nat :: k < n ==> !over(k) && (k + 1 < n ==> !fails(k)))
        && (send == [] || over(n) || (n > 0 && fails((n - 1) as nat)))
    {
      var k: nat := 0;
      while send != []
        invariant taken + send == old(taken) + old(send) && old(taken) <= taken
        invariant |taken| == |old(taken)| + k
        invariant forall j: nat :: j < k ==> !over(j) && !fails(j)
        decreases |send|
      {
        if over(k) {
          return;
        }
        var e := send[0];
        assert send == [e] + send[1..];
        send, taken := send[1..], taken + [e];
        var ok := Write(e, fails(k));
        if !ok {
          assert fails(k);
          return;
        }
        k := k + 1;
      }
    }
  }
}
