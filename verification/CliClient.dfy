/**
 The client object. Its methods run the statements of `do`, `ensureFreshToken`, `renewIfStale` and
 `applySession` in order, with whatever other threads and the server do in between, and each is
 shown to be one run of the composed system.
 */
module CliClient {
  import opened Outcomes
  import opened RefreshStore
  import opened Rotation
  import opened CliRenewal
  import opened CliRenewalProof
  import opened Sequences

  function Starts(a: Action): Option<RequestId> {
    match a
    case Server(BeginRefresh(q, _)) => Some(q)
    case Server(BeginLogout(q, _)) => Some(q)
    case Server(BeginLogin(q, _)) => Some(q)
    case Compare(_, q) => Some(q)
    case Logout(q) => Some(q)
    case _ => None
  }

  // Something other threads or the server may do while thread t is between two statements; the
  // request ids set aside for t stay free.
  predicate Outside(a: Action, t: ThreadId, ids: set<RequestId>) {
    (a.Server? || a.Logout? || a.t != t) && (Starts(a).Some? ==> Starts(a).value !in ids)
  }

  predicate AllOutside(env: seq<Action>, t: ThreadId, ids: set<RequestId>) {
    forall i :: 0 <= i < |env| ==> Outside(env[i], t, ids)
  }

  // The ids set aside for a thread are still free, and answered requests keep their answer.
  ghost predicate Carried(w: World, v: World, ids: set<RequestId>) {
    && (forall q :: q in ids && q !in w.reqs ==> q !in v.reqs)
    && (forall q :: q in w.reqs && w.reqs[q].Done? ==> q in v.reqs && v.reqs[q] == w.reqs[q])
  }

  // Only the thread that holds the lock is inside it.
  ghost predicate LockOk(s: Sys) {
    forall t: ThreadId :: InLock(PcOf(s, t)) ==> s.lock == Some(t)
  }

  lemma LockStaysOk(s: Sys, a: Action)
    requires LockOk(s)
    ensures LockOk(Do(s, a))
  {
    if !a.Server? && !a.Logout? {
      forall u: ThreadId | u != a.t ensures PcOf(Do(s, a), u) == PcOf(s, u) {
      }
    }
  }

  lemma {:induction false} RunKeepsLock(s: Sys, run: seq<Action>)
    requires LockOk(s)
    ensures LockOk(Execute(s, run))
    decreases |run|
  {
    if run != [] {
      LockStaysOk(s, run[0]);
      RunKeepsLock(Do(s, run[0]), run[1..]);
    }
  }

  // The session the client object carries, and its lock.
  predicate SameFields(s: Sys, y: Sys) {
    y.token == s.token && y.refresh == s.refresh && y.expiry == s.expiry && y.lock == s.lock
  }

  lemma OutsideStep(s: Sys, a: Action, t: ThreadId, ids: set<RequestId>)
    requires Outside(a, t, ids)
    ensures PcOf(Do(s, a), t) == PcOf(s, t)
    ensures Carried(s.world, Do(s, a).world, ids)
    ensures Do(s, a).family == s.family
  {
  }

  lemma OutsideKeepsFields(s: Sys, a: Action, t: ThreadId, ids: set<RequestId>)
    requires Outside(a, t, ids) && LockOk(s) && InLock(PcOf(s, t))
    ensures SameFields(s, Do(s, a))
  {
    if !a.Server? && !a.Logout? {
      assert s.lock == Some(t) && !InLock(PcOf(s, a.t));
    }
  }

  lemma {:induction false} OutsideLeavesThread(s: Sys, env: seq<Action>, t: ThreadId, ids: set<RequestId>)
    requires AllOutside(env, t, ids) && LockOk(s)
    ensures PcOf(Execute(s, env), t) == PcOf(s, t)
    ensures Carried(s.world, Execute(s, env).world, ids)
    ensures Execute(s, env).family == s.family
    ensures InLock(PcOf(s, t)) ==> SameFields(s, Execute(s, env))
    decreases |env|
  {
    if env != [] {
      OutsideStep(s, env[0], t, ids);
      LockStaysOk(s, env[0]);
      if InLock(PcOf(s, t)) {
        OutsideKeepsFields(s, env[0], t, ids);
      }
      OutsideLeavesThread(Do(s, env[0]), env[1..], t, ids);
    }
  }

  // ---------- what one thread did ----------

  // The actions of thread t in a run, in order.
  function Mine(run: seq<Action>, t: ThreadId): seq<Action> {
    MineBelow(run, |run|, t)
  }

  // Those among the first n actions.
  function MineBelow(run: seq<Action>, n: nat, t: ThreadId): seq<Action>
    requires n <= |run|
  {
    if n == 0 then [] else MineBelow(run, n - 1, t) + (if IsBy(run[n - 1], t) then [run[n - 1]] else [])
  }

  predicate IsBy(a: Action, t: ThreadId) {
    !a.Server? && !a.Logout? && a.t == t
  }

  lemma {:induction false} MineOfPrefix(run: seq<Action>, a: Action, n: nat, t: ThreadId)
    requires n <= |run|
    ensures MineBelow(run + [a], n, t) == MineBelow(run, n, t)
  {
    if n > 0 {
      MineOfPrefix(run, a, n - 1, t);
    }
  }

  lemma MineNext(run: seq<Action>, a: Action, t: ThreadId)
    ensures Mine(run + [a], t) == Mine(run, t) + if IsBy(a, t) then [a] else []
  {
    MineOfPrefix(run, a, |run|, t);
  }

  lemma {:induction false} MineOutside(run: seq<Action>, env: seq<Action>, t: ThreadId, ids: set<RequestId>)
    requires AllOutside(env, t, ids)
    ensures Mine(run + env, t) == Mine(run, t)
    decreases |env|
  {
    if env == [] {
      assert run + env == run;
    } else {
      var n := |env| - 1;
      assert run + env == (run + env[..n]) + [env[n]];
      MineNext(run + env[..n], env[n], t);
      assert Outside(env[n], t, ids);
      MineOutside(run, env[..n], t, ids);
    }
  }

  // The new refresh token an answered request carries, if any.
  function Successor(pc: Pc): Option<TokenId> {
    match pc
    case Done(Rotated(_, heir)) => Some(heir)
    case _ => None
  }

  // How an attempt to renew ends. One that has not got the lock yet, or not its answer, still waits.
  datatype Renewal = NotNeeded | Skipped | Renewed | SessionExpired | StillWaiting(posted: bool)

  predicate Proceeds(result: Renewal) {
    result.NotNeeded? || result.Skipped? || result.Renewed?
  }

  // What happens between the posted request and the unlocking.
  function ExchangeActs(result: Renewal, t: ThreadId, access: Access, expiry: int): seq<Action> {
    match result
    case Renewed => [Receive(t, access, expiry), Write(t), Write(t), Write(t)]
    case SessionExpired => [Receive(t, access, expiry)]
    case _ => []
  }

  // The actions of renewIfStale.
  function RenewActs(result: Renewal, t: ThreadId, r: RequestId, access: Access, expiry: int): seq<Action> {
    match result
    case NotNeeded => []
    case Skipped => [Lock(t), Compare(t, r), Unlock(t)]
    case Renewed => [Lock(t), Compare(t, r), Receive(t, access, expiry), Write(t), Write(t), Write(t), Unlock(t)]
    case SessionExpired => [Lock(t), Compare(t, r), Receive(t, access, expiry), Unlock(t)]
    case StillWaiting(posted) => if posted then [Lock(t), Compare(t, r)] else []
  }

  lemma RenewalSpelled(before: seq<Action>, result: Renewal, t: ThreadId, r: RequestId, access: Access, expiry: int)
    requires !result.NotNeeded? && result != StillWaiting(false)
    ensures var inside := before + [Lock(t)] + ([Compare(t, r)] + ExchangeActs(result, t, access, expiry));
      (if result.StillWaiting? then inside else inside + [Unlock(t)])
        == before + RenewActs(result, t, r, access, expiry)
  {
    var inside := [Lock(t)] + ([Compare(t, r)] + ExchangeActs(result, t, access, expiry));
    Regroup(before, [Lock(t)], [Compare(t, r)] + ExchangeActs(result, t, access, expiry));
    Regroup(before, inside, [Unlock(t)]);
    assert (if result.StillWaiting? then inside else inside + [Unlock(t)]) == RenewActs(result, t, r, access, expiry);
  }

  // How an attempt is answered: with success, with 401, or with any other failure.
  datatype Reply = Accepted | Denied | Broken

  datatype Outcome = Completed | Unauthorized | OtherError | SessionOver | Waiting

  function Told(reply: Reply): Outcome {
    match reply
    case Accepted => Completed
    case Denied => Unauthorized
    case Broken => OtherError
  }

  // An attempt that was sent and answered.
  function AttemptActs(t: ThreadId, refused: bool): seq<Action> {
    [Send(t), Answer(t, refused)]
  }

  // The part of `do` after a 401.
  function ReplayActs(second: Renewal, t: ThreadId, refused: bool, r: RequestId, access: Access, expiry: int)
    : seq<Action>
  {
    [Reread(t)] + RenewActs(second, t, r, access, expiry) + if Proceeds(second) then AttemptActs(t, refused) else []
  }

  class Client {
    var token: Access
    var refreshToken: Raw
    var tokenExpiry: int
    var renewMu: Option<ThreadId>
    // Outside this object: the server, the other threads' positions, the session.
    var world: World
    var threads: map<ThreadId, ThreadPc>
    const family: FamilyId
    var loggedOut: bool
    ghost const initial: Sys
    ghost var log: seq<Action>

    function State(): Sys
      reads this
    {
      Sys(world, token, refreshToken, tokenExpiry, renewMu, threads, family, loggedOut)
    }

    // What each thread has done so far.
    ghost var acts: ThreadId -> seq<Action>

    ghost predicate Valid()
      reads this
    {
      && State() == Execute(initial, log) && LockOk(initial)
      && forall t {:trigger Mine(log, t)} :: Mine(log, t) == acts(t)
    }

    constructor (s: Sys)
      requires LockOk(s)
      ensures Valid() && State() == s && initial == s && log == []
    {
      token, refreshToken, tokenExpiry, renewMu := s.token, s.refresh, s.expiry, s.lock;
      world, threads, family, loggedOut := s.world, s.threads, s.family, s.loggedOut;
      initial, log, acts := s, [], (u: ThreadId) => Mine([], u);
    }

    // While t is inside the lock nobody else changes the session.
    method Yield(env: seq<Action>, t: ThreadId, ids: set<RequestId>)
      requires Valid() && AllOutside(env, t, ids)
      modifies this
      ensures Valid() && log == old(log) + env && acts(t) == old(acts(t))
      ensures PcOf(State(), t) == old(PcOf(State(), t))
      ensures Carried(old(world), world, ids)
      ensures InLock(PcOf(State(), t)) ==> SameFields(old(State()), State())
    {
      RunKeepsLock(initial, log);
      OutsideLeavesThread(State(), env, t, ids);
      MineOutside(log, env, t, ids);
      ExecuteConcat(initial, log, env);
      ghost var longer := log + env;
      var s := Execute(State(), env);
      token, refreshToken, tokenExpiry, renewMu := s.token, s.refresh, s.expiry, s.lock;
      world, threads, loggedOut := s.world, s.threads, s.loggedOut;
      log, acts := longer, (u: ThreadId) => Mine(longer, u);
    }

    // The statement just executed was step a.
    ghost method Record(a: Action, before: Sys)
      requires before == Execute(initial, log) && LockOk(initial) && State() == CliRenewal.Do(before, a)
      requires !a.Server? && !a.Logout?
      requires forall t {:trigger Mine(log, t)} :: Mine(log, t) == acts(t)
      modifies this`log, this`acts
      ensures Valid() && log == old(log) + [a] && acts(a.t) == old(acts(a.t)) + [a]
    {
      MineNext(log, a, a.t);
      ExecuteConcat(initial, log, [a]);
      assert Execute(before, [a]) == CliRenewal.Do(before, a);
      ghost var longer := log + [a];
      assert acts(a.t) == Mine(log, a.t);
      log, acts := longer, (u: ThreadId) => Mine(longer, u);
    }

    method Acquire(t: ThreadId)
      requires Valid() && PcOf(State(), t).WantLock? && renewMu == None
      modifies this
      ensures Valid() && log == old(log) + [Lock(t)] && acts(t) == old(acts(t)) + [Lock(t)]
      ensures PcOf(State(), t) == Holding(old(PcOf(State(), t).stale), old(PcOf(State(), t).phase))
      ensures renewMu == Some(t)
      ensures world == old(world) && token == old(token)
    {
      ghost var before := State();
      renewMu := Some(t);
      threads := threads[t := Holding(PcOf(State(), t).stale, PcOf(State(), t).phase)];
      Record(Lock(t), before);
    }

    method Release(t: ThreadId)
      requires Valid() && PcOf(State(), t).Releasing?
      modifies this
      ensures Valid() && log == old(log) + [Unlock(t)] && acts(t) == old(acts(t)) + [Unlock(t)]
      ensures renewMu == None && world == old(world)
      ensures token == old(token) && refreshToken == old(refreshToken) && tokenExpiry == old(tokenExpiry)
      ensures PcOf(State(), t) == if old(PcOf(State(), t).ok) then Ready(old(PcOf(State(), t).phase)) else Idle
    {
      ghost var before := State();
      var pc := PcOf(State(), t);
      renewMu := None;
      threads := threads[t := if pc.ok then Ready(pc.phase) else Idle];
      Record(Unlock(t), before);
    }

    // doOnce(POST /v1/auth/refresh) with the token the client holds now, unless Token has changed.
    method PostRefresh(t: ThreadId, stale: Access, phase: Phase, r: RequestId) returns (posted: bool)
      requires Valid() && PcOf(State(), t) == Holding(stale, phase) && r !in world.reqs
      modifies this
      ensures Valid() && log == old(log) + [Compare(t, r)] && acts(t) == old(acts(t)) + [Compare(t, r)]
      ensures (posted <==> token == stale) && token == old(token)
      ensures world == if posted then Step(old(world), BeginRefresh(r, refreshToken)) else old(world)
      ensures refreshToken == old(refreshToken)
      ensures PcOf(State(), t) == if posted then Renewing(r, phase) else Releasing(true, phase)
    {
      ghost var before := State();
      posted := token == stale;
      if posted {
        threads := threads[t := Renewing(r, phase)];
        world := Step(world, BeginRefresh(r, refreshToken));
      } else {
        threads := threads[t := Releasing(true, phase)];
      }
      Record(Compare(t, r), before);
    }

    method TakeAnswer(t: ThreadId, r: RequestId, phase: Phase, access: Access, expiry: int)
      returns (heir: Option<TokenId>)
      requires Valid() && PcOf(State(), t) == Renewing(r, phase) && r in world.reqs && world.reqs[r].Done?
      modifies this
      ensures world == old(world)
      ensures Valid() && log == old(log) + [Receive(t, access, expiry)]
      ensures acts(t) == old(acts(t)) + [Receive(t, access, expiry)]
      ensures heir == Successor(world.reqs[r])
      ensures heir.Some? ==> PcOf(State(), t) == SetToken(access, heir.value, expiry, phase)
      ensures heir.None? ==> PcOf(State(), t) == Releasing(false, phase)
    {
      ghost var before := State();
      heir := Successor(world.reqs[r]);
      var next := if heir.Some? then SetToken(access, heir.value, expiry, phase) else Releasing(false, phase);
      threads := threads[t := next];
      Record(Receive(t, access, expiry), before);
    }

    method WriteToken(t: ThreadId, access: Access, heir: TokenId, expiry: int, phase: Phase)
      requires Valid() && PcOf(State(), t) == SetToken(access, heir, expiry, phase)
      modifies this
      ensures Valid() && log == old(log) + [Write(t)] && acts(t) == old(acts(t)) + [Write(t)] && world == old(world)
      ensures PcOf(State(), t) == SetRefresh(heir, expiry, phase) && token == access
    {
      ghost var before := State();
      token := access;
      threads := threads[t := SetRefresh(heir, expiry, phase)];
      Record(Write(t), before);
    }

    method WriteRefreshToken(t: ThreadId, heir: TokenId, expiry: int, phase: Phase)
      requires Valid() && PcOf(State(), t) == SetRefresh(heir, expiry, phase)
      modifies this
      ensures Valid() && log == old(log) + [Write(t)] && acts(t) == old(acts(t)) + [Write(t)] && world == old(world)
      ensures PcOf(State(), t) == SetExpiry(expiry, phase) && refreshToken == Minted(heir) && token == old(token)
    {
      ghost var before := State();
      refreshToken := Minted(heir);
      threads := threads[t := SetExpiry(expiry, phase)];
      Record(Write(t), before);
    }

    method WriteExpiry(t: ThreadId, expiry: int, phase: Phase)
      requires Valid() && PcOf(State(), t) == SetExpiry(expiry, phase)
      modifies this
      ensures Valid() && log == old(log) + [Write(t)] && acts(t) == old(acts(t)) + [Write(t)] && world == old(world)
      ensures PcOf(State(), t) == Releasing(true, phase) && tokenExpiry == expiry
      ensures token == old(token) && refreshToken == old(refreshToken) && renewMu == old(renewMu)
    {
      ghost var before := State();
      tokenExpiry := expiry;
      threads := threads[t := Releasing(true, phase)];
      Record(Write(t), before);
    }

    // The thread is inside the lock, so it holds it.
    lemma HoldsLock(t: ThreadId)
      requires Valid() && InLock(PcOf(State(), t))
      ensures renewMu == Some(t)
    {
      RunKeepsLock(initial, log);
    }

    // Stores the new pair, field by field; other threads may look in between, but the lock keeps them
    // from writing, so at the end the session is the new one.
    method ApplySession(t: ThreadId, ids: set<RequestId>, access: Access, heir: TokenId, expiry: int, phase: Phase,
                        env: nat -> seq<Action>)
      requires Valid() && PcOf(State(), t) == SetToken(access, heir, expiry, phase)
      requires forall k: nat :: AllOutside(env(k), t, ids)
      modifies this
      ensures Valid() && old(log) <= log && PcOf(State(), t) == Releasing(true, phase)
      ensures token == access && refreshToken == Minted(heir) && tokenExpiry == expiry && renewMu == Some(t)
      ensures acts(t) == old(acts(t)) + [Write(t), Write(t), Write(t)]
      ensures Carried(old(world), world, ids)
    {
      WriteToken(t, access, heir, expiry, phase);
      Yield(env(0), t, ids);
      WriteRefreshToken(t, heir, expiry, phase);
      Yield(env(1), t, ids);
      WriteExpiry(t, expiry, phase);
      HoldsLock(t);
    }

    // What the client holds once request r has been answered with a new pair and stored.
    ghost predicate HoldsAnswer(r: RequestId, access: Access, expiry: int)
      reads this
    {
      && r in world.reqs && Successor(world.reqs[r]).Some?
      && token == access && refreshToken == Minted(Successor(world.reqs[r]).value) && tokenExpiry == expiry
    }

    // From the posted request to the point of unlocking.
    method Exchange(t: ThreadId, phase: Phase, r: RequestId, ids: set<RequestId>, access: Access, expiry: int,
                    env: nat -> seq<Action>)
      returns (result: Renewal)
      requires Valid() && PcOf(State(), t) == Renewing(r, phase)
      requires forall k: nat :: AllOutside(env(k), t, ids)
      modifies this
      ensures Valid() && old(log) <= log && acts(t) == old(acts(t)) + ExchangeActs(result, t, access, expiry)
      ensures result == StillWaiting(true) || result.Renewed? || result.SessionExpired?
      ensures result.StillWaiting? ==> PcOf(State(), t) == Renewing(r, phase)
      ensures result.Renewed? ==> PcOf(State(), t) == Releasing(true, phase) && HoldsAnswer(r, access, expiry)
      ensures result.SessionExpired? ==> PcOf(State(), t) == Releasing(false, phase)
      ensures Carried(old(world), world, ids)
    {
      Yield(env(0), t, ids);
      if r !in world.reqs || !world.reqs[r].Done? {
        return StillWaiting(true);
      }
      result := TakeAndStore(t, phase, r, ids, access, expiry, (k: nat) => env(k + 1));
    }

    // What follows once the answer is there.
    method TakeAndStore(t: ThreadId, phase: Phase, r: RequestId, ids: set<RequestId>, access: Access, expiry: int,
                        env: nat -> seq<Action>)
      returns (result: Renewal)
      requires Valid() && PcOf(State(), t) == Renewing(r, phase) && r in world.reqs && world.reqs[r].Done?
      requires forall k: nat :: AllOutside(env(k), t, ids)
      modifies this
      ensures Valid() && old(log) <= log && acts(t) == old(acts(t)) + ExchangeActs(result, t, access, expiry)
      ensures result.Renewed? || result.SessionExpired?
      ensures result.Renewed? ==> PcOf(State(), t) == Releasing(true, phase) && HoldsAnswer(r, access, expiry)
      ensures result.SessionExpired? ==> PcOf(State(), t) == Releasing(false, phase)
      ensures Carried(old(world), world, ids)
    {
      var heir := TakeAnswer(t, r, phase, access, expiry);
      if heir.None? {
        return SessionExpired;
      }
      Yield(env(0), t, ids);
      assert old(log) <= log;
      ApplySession(t, ids, access, heir.value, expiry, phase, (k: nat) => env(k + 1));
      return Renewed;
    }

    // What happens while the lock is held.
    method UnderLock(t: ThreadId, stale: Access, phase: Phase, r: RequestId, ids: set<RequestId>, access: Access,
                     expiry: int, env: nat -> seq<Action>)
      returns (result: Renewal)
      requires Valid() && PcOf(State(), t) == Holding(stale, phase) && r !in world.reqs
      requires forall k: nat :: AllOutside(env(k), t, ids)
      modifies this
      ensures Valid() && old(log) <= log
      ensures acts(t) == old(acts(t)) + ([Compare(t, r)] + ExchangeActs(result, t, access, expiry))
      ensures (result.Skipped? <==> old(token) != stale) && !result.NotNeeded? && result != StillWaiting(false)
      ensures result.Skipped? || result.Renewed? ==> PcOf(State(), t) == Releasing(true, phase)
      ensures result.Renewed? ==> HoldsAnswer(r, access, expiry)
      ensures result.SessionExpired? ==> PcOf(State(), t) == Releasing(false, phase)
      ensures Carried(old(world), world, ids - {r})
    {
      var posted := PostRefresh(t, stale, phase, r);
      assert Carried(old(world), world, ids - {r});
      if posted {
        assert old(log) <= log;
        result := Exchange(t, phase, r, ids, access, expiry, env);
      } else {
        result := Skipped;
      }
    }

    method RenewIfStale(t: ThreadId, stale: Access, phase: Phase, r: RequestId, ids: set<RequestId>, access: Access,
                        expiry: int, env: nat -> seq<Action>)
      returns (result: Renewal)
      requires Valid() && PcOf(State(), t) == WantLock(stale, phase) && r in ids && r !in world.reqs
      requires forall k: nat :: AllOutside(env(k), t, ids)
      modifies this
      ensures Valid() && old(log) <= log && acts(t) == old(acts(t)) + RenewActs(result, t, r, access, expiry)
      ensures !result.NotNeeded?
      ensures Proceeds(result) ==> PcOf(State(), t) == Ready(phase) && renewMu == None
      ensures result.Renewed? ==> HoldsAnswer(r, access, expiry)
      ensures result.SessionExpired? ==> PcOf(State(), t) == Idle && renewMu == None
      ensures Carried(old(world), world, ids - {r})
    {
      Yield(env(0), t, ids);
      if renewMu != None {
        return StillWaiting(false);
      }
      Acquire(t);
      ghost var start := old(acts(t));
      result := RenewAndRelease(t, stale, phase, r, ids, access, expiry, (k: nat) => env(k + 1));
      RenewalSpelled(start, result, t, r, access, expiry);
    }

    // From the moment the lock is taken to its release.
    method RenewAndRelease(t: ThreadId, stale: Access, phase: Phase, r: RequestId, ids: set<RequestId>, access: Access,
                           expiry: int, env: nat -> seq<Action>)
      returns (result: Renewal)
      requires Valid() && PcOf(State(), t) == Holding(stale, phase) && r in ids && r !in world.reqs
      requires forall k: nat :: AllOutside(env(k), t, ids)
      modifies this
      ensures Valid() && old(log) <= log && !result.NotNeeded? && result != StillWaiting(false)
      ensures var inside := old(acts(t)) + ([Compare(t, r)] + ExchangeActs(result, t, access, expiry));
        acts(t) == if result.StillWaiting? then inside else inside + [Unlock(t)]
      ensures Proceeds(result) ==> PcOf(State(), t) == Ready(phase) && renewMu == None
      ensures result.Renewed? ==> HoldsAnswer(r, access, expiry)
      ensures result.SessionExpired? ==> PcOf(State(), t) == Idle && renewMu == None
      ensures Carried(old(world), world, ids - {r})
    {
      Yield(env(0), t, ids);
      result := UnderLock(t, stale, phase, r, ids, access, expiry, (k: nat) => env(k + 2));
      if result.StillWaiting? {
        return;
      }
      assert old(log) <= log;
      Yield(env(1), t, ids);
      Release(t);
    }

    method EnsureFreshToken(t: ThreadId, now: int, r: RequestId, ids: set<RequestId>, access: Access, expiry: int,
                            env: nat -> seq<Action>)
      returns (result: Renewal)
      requires Valid() && PcOf(State(), t) == Ensuring && r in ids && r !in world.reqs
      requires forall k: nat :: AllOutside(env(k), t, ids)
      modifies this
      ensures Valid() && old(log) <= log
      ensures acts(t) == old(acts(t)) + ([Ensure(t, now)] + RenewActs(result, t, r, access, expiry))
      ensures result.NotNeeded? <==> now + 30 < old(tokenExpiry)
      ensures Proceeds(result) ==> PcOf(State(), t) == Ready(Proactive)
      ensures result.Renewed? ==> HoldsAnswer(r, access, expiry)
      ensures result.SessionExpired? ==> PcOf(State(), t) == Idle
      ensures Carried(old(world), world, ids - {r})
    {
      ghost var before := State();
      if now + RENEW_SKEW < tokenExpiry {
        threads := threads[t := Ready(Proactive)];
        Record(Ensure(t, now), before);
        return NotNeeded;
      }
      var stale := token;
      threads := threads[t := WantLock(stale, Proactive)];
      Record(Ensure(t, now), before);
      ghost var start := old(acts(t));
      result := RenewIfStale(t, stale, Proactive, r, ids, access, expiry, env);
      Regroup(start, [Ensure(t, now)], RenewActs(result, t, r, access, expiry));
    }

    // Any one statement of t that is not about renewal.
    method Local(a: Action, pc: ThreadPc)
      requires Valid() && (a.Start? || a.Send? || a.Answer? || a.Reread?)
      requires CliRenewal.Do(State(), a) == Move(State(), a.t, pc)
      modifies this
      ensures Valid() && log == old(log) + [a] && acts(a.t) == old(acts(a.t)) + [a]
      ensures PcOf(State(), a.t) == pc && world == old(world) && token == old(token)
    {
      ghost var before := State();
      threads := threads[a.t := pc];
      Record(a, before);
    }

    // One API call. reply(k) is how attempt k is answered; r and r2 are the ids its two possible refresh
    // requests get.
    method Do(t: ThreadId, now: int, reply: nat -> Reply, r: RequestId, r2: RequestId,
              access: nat -> Access, expiry: nat -> int, env: nat -> seq<Action>)
      returns (outcome: Outcome, first: Renewal, second: Renewal)
      requires Valid() && PcOf(State(), t) == Idle && r !in world.reqs && r2 !in world.reqs && r != r2
      requires forall k: nat :: AllOutside(env(k), t, {r, r2})
      modifies this
      ensures Valid() && old(log) <= log
      // The second renewal begins only after a first attempt that got a 401.
      ensures var sent := !first.StillWaiting? && !first.SessionExpired?;
        second.NotNeeded? <==> !(sent && reply(0).Denied?)
      ensures outcome.Waiting? <==> first.StillWaiting? || second.StillWaiting?
      ensures outcome.SessionOver? <==> first.SessionExpired? || second.SessionExpired?
      // Otherwise the answer to the last attempt sent is what the call returns.
      ensures !outcome.Waiting? && !outcome.SessionOver? ==>
        var last := if second.NotNeeded? then reply(0) else reply(1);
        && (outcome.Completed? <==> last.Accepted?)
        && (outcome.Unauthorized? <==> last.Denied?)
        && (outcome.OtherError? <==> last.Broken?)
      ensures !outcome.Waiting? ==> PcOf(State(), t) == Idle
      ensures acts(t) == old(acts(t)) + [Start(t)] + ([Ensure(t, now)] + RenewActs(first, t, r, access(0), expiry(0)))
        + (if Proceeds(first) then AttemptActs(t, reply(0).Denied?) else [])
        + (if Proceeds(first) && reply(0).Denied? then
             ReplayActs(second, t, reply(1).Denied?, r2, access(1), expiry(1))
           else [])
    {
      var ids := {r, r2};
      second := NotNeeded;
      Local(Start(t), Ensuring);
      first := EnsureFreshToken(t, now, r, ids, access(0), expiry(0), env);
      assert old(log) <= log;
      if !Proceeds(first) {
        return if first.StillWaiting? then Waiting else SessionOver, first, second;
      }
      assert r2 in ids - {r};
      outcome, second := Attempts(t, reply, r2, ids, access(1), expiry(1), (k: nat) => env(k + 10));
    }

    // The first attempt, and if it gets a 401 the renewal and the second.
    method Attempts(t: ThreadId, reply: nat -> Reply, r: RequestId, ids: set<RequestId>, access: Access, expiry: int,
                    env: nat -> seq<Action>)
      returns (outcome: Outcome, second: Renewal)
      requires Valid() && PcOf(State(), t) == Ready(Proactive) && r in ids && r !in world.reqs
      requires forall k: nat :: AllOutside(env(k), t, ids)
      modifies this
      ensures Valid() && old(log) <= log
      ensures second.NotNeeded? <==> !reply(0).Denied?
      ensures outcome.Waiting? <==> second.StillWaiting?
      ensures outcome.SessionOver? <==> second.SessionExpired?
      ensures !outcome.Waiting? && !outcome.SessionOver? ==>
        outcome == Told(if second.NotNeeded? then reply(0) else reply(1))
      ensures !outcome.Waiting? ==> PcOf(State(), t) == Idle
      ensures acts(t) == old(acts(t)) + AttemptActs(t, reply(0).Denied?)
        + (if reply(0).Denied? then ReplayActs(second, t, reply(1).Denied?, r, access, expiry) else [])
    {
      second := NotNeeded;
      var used := SendFirst(t, reply(0).Denied?, ids, env);
      if !reply(0).Denied? {
        return Told(reply(0)), second;
      }
      assert old(log) <= log;
      second := Replay(t, used, reply(1).Denied?, r, ids, access, expiry, (k: nat) => env(k + 3));
      if !Proceeds(second) {
        return if second.StillWaiting? then Waiting else SessionOver, second;
      }
      outcome := Told(reply(1));
    }

    // The first doOnce with whatever token the client holds by then.
    method SendFirst(t: ThreadId, refused: bool, ids: set<RequestId>, env: nat -> seq<Action>)
      returns (used: Access)
      requires Valid() && PcOf(State(), t) == Ready(Proactive)
      requires forall k: nat :: AllOutside(env(k), t, ids)
      modifies this
      ensures Valid() && old(log) <= log && acts(t) == old(acts(t)) + AttemptActs(t, refused)
      ensures Carried(old(world), world, ids)
      ensures PcOf(State(), t) == if refused then Rejected(used) else Idle
    {
      used := SendToken(t, Proactive, ids, env(0));
      Yield(env(1), t, ids);
      assert old(log) <= log;
      Local(Answer(t, refused), if refused then Rejected(used) else Idle);
      Yield(env(2), t, ids);
    }

    // One doOnce up to the answer.
    method SendToken(t: ThreadId, phase: Phase, ids: set<RequestId>, env: seq<Action>) returns (used: Access)
      requires Valid() && PcOf(State(), t) == Ready(phase) && AllOutside(env, t, ids)
      modifies this
      ensures Valid() && old(log) <= log && acts(t) == old(acts(t)) + [Send(t)]
      ensures Carried(old(world), world, ids) && used == token
      ensures PcOf(State(), t) == if phase.Proactive? then Sending(used) else Replaying(used)
    {
      Yield(env, t, ids);
      used := token;
      Local(Send(t), if phase.Proactive? then Sending(used) else Replaying(used));
    }

    // After a 401: the token is read again, renewed unless someone else did, and the call replayed.
    method Replay(t: ThreadId, used: Access, refused: bool, r: RequestId, ids: set<RequestId>, access: Access,
                  expiry: int, env: nat -> seq<Action>)
      returns (second: Renewal)
      requires Valid() && PcOf(State(), t) == Rejected(used) && r in ids && r !in world.reqs
      requires forall k: nat :: AllOutside(env(k), t, ids)
      modifies this
      ensures Valid() && old(log) <= log && !second.NotNeeded?
      ensures acts(t) == old(acts(t)) + ReplayActs(second, t, refused, r, access, expiry)
      ensures !second.StillWaiting? ==> PcOf(State(), t) == Idle
    {
      var stale := token;
      Local(Reread(t), WantLock(stale, Phase.Replay(used)));
      second := RenewIfStale(t, stale, Phase.Replay(used), r, ids, access, expiry, env);
      assert old(log) <= log;
      ghost var start, renewal := old(acts(t)), RenewActs(second, t, r, access, expiry);
      Regroup(start, [Reread(t)], renewal);
      if Proceeds(second) {
        SendAgain(t, used, refused, ids, (k: nat) => env(k + 9));
        Regroup(start, [Reread(t)] + renewal, AttemptActs(t, refused));
      }
    }

    // The second doOnce; its answer is what the call returns.
    method SendAgain(t: ThreadId, used: Access, refused: bool, ids: set<RequestId>, env: nat -> seq<Action>)
      requires Valid() && PcOf(State(), t) == Ready(Phase.Replay(used))
      requires forall k: nat :: AllOutside(env(k), t, ids)
      modifies this
      ensures Valid() && old(log) <= log && acts(t) == old(acts(t)) + AttemptActs(t, refused)
      ensures PcOf(State(), t) == Idle
    {
      var current := SendToken(t, Phase.Replay(used), ids, env(0));
      Yield(env(1), t, ids);
      assert old(log) <= log;
      Local(Answer(t, refused), Idle);
    }

    // So the theorem about the composed system speaks about this object.
    lemma HoldsTheLiveToken(heir: TokenId)
      requires Valid() && SessionStarts(initial, heir) && !loggedOut && renewMu == None
      ensures ChainOf(world.core, family) != []
      ensures refreshToken == Minted(Tip(world.core, family))
      ensures CanConsume(world.core.rows, Tip(world.core, family))
    {
      RenewalNeverTripsReuse(initial, heir, log);
    }
  }
}
