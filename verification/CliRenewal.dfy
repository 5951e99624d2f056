/**
 The command-line client's silent renewal, composed with the server.

 Any number of threads share one client. Each runs `do`: renew if the access token is about to
 expire, send the request, and on a 401 renew and send once more. The server part is the rotation
 protocol with all its other requests. Nobody else holds this session's refresh tokens, the answer of
 a refresh that took effect reaches the client, and no refresh is abandoned before the server has
 finished with it.
 */
module CliRenewal {
  import opened Outcomes
  import opened RefreshStore
  import opened Rotation

  type ThreadId = nat

  // Bearer tokens carry no unique id: two issued to one user in the same second are equal.
  type Access = nat

  const RENEW_SKEW := 30

  datatype Phase = Proactive | Replay(rejected: Access)

  datatype ThreadPc =
    | Idle
    | Ensuring                                                          // ensureFreshToken
    | Ready(phase: Phase)                                               // about to send
    | Sending(used: Access)                                             // first attempt in flight
    | Rejected(used: Access)                                            // it was answered 401
    | Replaying(used: Access)                                           // second attempt in flight
    | WantLock(stale: Access, phase: Phase)
    | Holding(stale: Access, phase: Phase)                              // renewIfStale, lock taken
    | Renewing(r: RequestId, phase: Phase)                              // refresh request in flight
    | SetToken(access: Access, heir: TokenId, expiry: int, phase: Phase)  // applySession, field by field
    | SetRefresh(heir: TokenId, expiry: int, phase: Phase)
    | SetExpiry(expiry: int, phase: Phase)
    | Releasing(ok: bool, phase: Phase)                                 // deferred unlock

  datatype Sys = Sys(
    world: World,
    token: Access,
    refresh: Raw,
    expiry: int,
    lock: Option<ThreadId>,
    threads: map<ThreadId, ThreadPc>,
    family: FamilyId,                 // the session's token family
    loggedOut: bool)

  datatype Action =
    | Server(e: Event)
    | Start(t: ThreadId)
    | Ensure(t: ThreadId, now: int)
    | Send(t: ThreadId)
    | Answer(t: ThreadId, unauthorized: bool)
    | Reread(t: ThreadId)
    | Lock(t: ThreadId)
    | Compare(t: ThreadId, r: RequestId)
    | Receive(t: ThreadId, access: Access, expiry: int)
    | Write(t: ThreadId)
    | Unlock(t: ThreadId)
    | Logout(r: RequestId)

  // The string belongs to the session's family.
  predicate OfFamily(c: Core, raw: Raw, f: FamilyId) {
    raw.Minted? && raw.serial in c.minted && c.minted[raw.serial] == f
  }

  // What the rest of the world may do: anything but use this session's tokens or swallow the
  // answer of a refresh that took effect.
  predicate Permitted(w: World, e: Event, f: FamilyId) {
    match e
    case BeginRefresh(_, raw) => !OfFamily(w.core, raw, f)
    case BeginLogout(_, raw) => !OfFamily(w.core, raw, f)
    case Fault(r, applied) =>
      !(applied && r in w.reqs && w.reqs[r].AtConsume? && w.reqs[r].tok.family == f)
    case Lose(r) => !(r in w.reqs && w.reqs[r].AtRespond? && w.reqs[r].tok.family == f)
    case _ => true
  }

  function PcOf(s: Sys, t: ThreadId): ThreadPc {
    if t in s.threads then s.threads[t] else Idle
  }

  function Move(s: Sys, t: ThreadId, pc: ThreadPc): Sys {
    s.(threads := s.threads[t := pc])
  }

  predicate CanDo(s: Sys, a: Action) {
    match a
    case Server(e) => Permitted(s.world, e, s.family)
    case Start(t) => PcOf(s, t).Idle?
    case Ensure(t, _) => PcOf(s, t).Ensuring?
    case Send(t) => PcOf(s, t).Ready?
    case Answer(t, _) => PcOf(s, t).Sending? || PcOf(s, t).Replaying?
    case Reread(t) => PcOf(s, t).Rejected?
    case Lock(t) => PcOf(s, t).WantLock? && s.lock == None
    case Compare(t, r) => PcOf(s, t).Holding? && r !in s.world.reqs
    case Receive(t, _, _) =>
      PcOf(s, t).Renewing? && PcOf(s, t).r in s.world.reqs && s.world.reqs[PcOf(s, t).r].Done?
    case Write(t) => PcOf(s, t).SetToken? || PcOf(s, t).SetRefresh? || PcOf(s, t).SetExpiry?
    case Unlock(t) => PcOf(s, t).Releasing?
    case Logout(r) => r !in s.world.reqs
  }

  function Do(s: Sys, a: Action): Sys {
    if !CanDo(s, a) then s
    else
      match a
      case Server(e) => s.(world := Step(s.world, e))
      case Start(t) => Move(s, t, Ensuring)
      case Ensure(t, now) =>
        if now + RENEW_SKEW < s.expiry then Move(s, t, Ready(Proactive))
        else Move(s, t, WantLock(s.token, Proactive))
      case Send(t) =>
        if PcOf(s, t).phase.Proactive? then Move(s, t, Sending(s.token)) else Move(s, t, Replaying(s.token))
      case Answer(t, unauthorized) =>
        if PcOf(s, t).Sending? && unauthorized then Move(s, t, Rejected(PcOf(s, t).used)) else Move(s, t, Idle)
      case Reread(t) => Move(s, t, WantLock(s.token, Replay(PcOf(s, t).used)))
      case Lock(t) => Move(s, t, Holding(PcOf(s, t).stale, PcOf(s, t).phase)).(lock := Some(t))
      case Compare(t, r) => CompareTokens(s, t, r, PcOf(s, t))
      case Receive(t, access, expiry) => ReceiveAnswer(s, t, PcOf(s, t), access, expiry)
      case Write(t) => WriteField(s, t, PcOf(s, t))
      case Unlock(t) =>
        var next := if PcOf(s, t).ok then Ready(PcOf(s, t).phase) else Idle;
        Move(s, t, next).(lock := None)
      case Logout(r) => s.(world := Step(s.world, BeginLogout(r, s.refresh)), loggedOut := true)
  }

  function CompareTokens(s: Sys, t: ThreadId, r: RequestId, pc: ThreadPc): Sys
    requires pc.Holding?
  {
    if s.token != pc.stale then Move(s, t, Releasing(true, pc.phase))
    else Move(s, t, Renewing(r, pc.phase)).(world := Step(s.world, BeginRefresh(r, s.refresh)))
  }

  function ReceiveAnswer(s: Sys, t: ThreadId, pc: ThreadPc, access: Access, expiry: int): Sys
    requires pc.Renewing? && pc.r in s.world.reqs && s.world.reqs[pc.r].Done?
  {
    match s.world.reqs[pc.r].result
    case Rotated(_, heir) => Move(s, t, SetToken(access, heir, expiry, pc.phase))
    case _ => Move(s, t, Releasing(false, pc.phase))
  }

  function WriteField(s: Sys, t: ThreadId, pc: ThreadPc): Sys
    requires pc.SetToken? || pc.SetRefresh? || pc.SetExpiry?
  {
    match pc
    case SetToken(access, heir, expiry, phase) =>
      Move(s, t, SetRefresh(heir, expiry, phase)).(token := access)
    case SetRefresh(heir, expiry, phase) =>
      Move(s, t, SetExpiry(expiry, phase)).(refresh := Minted(heir))
    case SetExpiry(expiry, phase) =>
      Move(s, t, Releasing(true, phase)).(expiry := expiry)
  }

  function Execute(s: Sys, run: seq<Action>): Sys
    decreases |run|
  {
    if run == [] then s else Execute(Do(s, run[0]), run[1..])
  }

  lemma {:induction false} ExecuteConcat(s: Sys, a: seq<Action>, b: seq<Action>)
    ensures Execute(s, a + b) == Execute(Execute(s, a), b)
    decreases |a|
  {
    if a == [] {
      assert a + b == b;
    } else {
      assert (a + b)[0] == a[0] && (a + b)[1..] == a[1..] + b;
      ExecuteConcat(Do(s, a[0]), a[1..], b);
    }
  }
}
