/**
 An undisturbed renewal, statement by statement, and three runs in which two threads renew for one
 occasion. When that happens in general is the subject of CliTurns.
 */
module CliDoubleRenewal {
  import opened Outcomes
  import opened RefreshStore
  import opened Rotation
  import opened RotationInvariant
  import opened RotationTheorems
  import opened RotationAlone
  import opened CliRenewal
  import opened CliRenewalProof
  import opened CliTurns

  // ---------- one thread renews, alone ----------

  function ServerActs(r: RequestId): seq<Action> {
    [Server(Act(r)), Server(Act(r)), Server(Act(r))] + [Server(Act(r)), Server(Act(r)), Server(Act(r))]
  }

  // Thread t wants to renew; it locks, posts, and stores what it gets.
  function Renew(t: ThreadId, r: RequestId, access: Access, expiry: int): seq<Action> {
    [Lock(t), Compare(t, r)] + ServerActs(r) + [Receive(t, access, expiry), Write(t), Write(t), Write(t), Unlock(t)]
  }

  lemma {:induction false} ServerRuns(s: Sys, r: RequestId, n: nat)
    ensures Execute(s, seq(n, i => Server(Act(r)))) == s.(world := Run(s.world, seq(n, i => Act(r))))
    decreases n
  {
    if n > 0 {
      var y := s.(world := Step(s.world, Act(r)));
      assert seq(n, i => Server(Act(r)))[1..] == seq(n - 1, i => Server(Act(r)));
      assert seq(n, i => Act(r))[1..] == seq(n - 1, i => Act(r));
      ServerRuns(y, r, n - 1);
    } else {
      assert s.(world := s.world) == s;
    }
  }

  lemma TwoActions(s: Sys, a: Action, b: Action)
    ensures Execute(s, [a, b]) == Do(Do(s, a), b)
  {
    assert [a, b][1..] == [b] && [b][1..] == [];
    assert Execute(Do(s, a), [b]) == Do(Do(s, a), b);
  }

  lemma FiveActions(s: Sys, a: Action, b: Action, c: Action, d: Action, e: Action)
    ensures Execute(s, [a, b, c, d, e]) == Do(Do(Do(Do(Do(s, a), b), c), d), e)
  {
    assert [a, b, c, d, e] == [a, b] + [c, d, e];
    ExecuteConcat(s, [a, b], [c, d, e]);
    TwoActions(s, a, b);
    var y := Execute(s, [a, b]);
    assert [c, d, e] == [c, d] + [e];
    ExecuteConcat(y, [c, d], [e]);
    TwoActions(y, c, d);
    assert [e][1..] == [];
    assert Execute(Do(Do(y, c), d), [e]) == Do(Do(Do(y, c), d), e);
  }

  // The state after thread t renewed alone.
  function AfterRenewal(s: Sys, t: ThreadId, r: RequestId, access: Access, expiry: int, phase: Phase): Sys {
    Sys(Run(Step(s.world, BeginRefresh(r, s.refresh)), Acts(r)), access, Minted(s.world.core.next), expiry, None,
        s.threads[t := Ready(phase)], s.family, s.loggedOut)
  }

  lemma LockAndCompare(s: Sys, t: ThreadId, r: RequestId, phase: Phase, stale: Access)
    requires s.lock == None && PcOf(s, t) == WantLock(stale, phase)
    requires r !in s.world.reqs && Presentable(s.world.core, s.refresh)
    ensures var y := Execute(s, [Lock(t), Compare(t, r)]);
      if stale == s.token then
        y == s.(threads := s.threads[t := Renewing(r, phase)], lock := Some(t),
                world := World(s.world.core, s.world.reqs[r := AtLookup(s.refresh)]))
      else
        y == s.(threads := s.threads[t := Releasing(true, phase)], lock := Some(t))
  {
    TwoActions(s, Lock(t), Compare(t, r));
    var s1 := Do(s, Lock(t));
    assert s1 == s.(threads := s.threads[t := Holding(stale, phase)], lock := Some(t));
    assert s.threads[t := Holding(stale, phase)][t := Renewing(r, phase)] == s.threads[t := Renewing(r, phase)];
    assert s.threads[t := Holding(stale, phase)][t := Releasing(true, phase)] == s.threads[t := Releasing(true, phase)];
  }

  lemma PostIsAccepted(s: Sys, r: RequestId)
    requires SInv(s) && s.lock == None && r !in s.world.reqs
    requires Renewable(s.world.core, Tip(s.world.core, s.family))
    ensures var w := World(s.world.core, s.world.reqs[r := AtLookup(s.refresh)]);
      && Step(s.world, BeginRefresh(r, s.refresh)) == w && Presentable(s.world.core, s.refresh)
      && var v := Run(w, Acts(r));
         && r in v.reqs && v.reqs[r].Done? && v.reqs[r].result.Rotated? && v.reqs[r].result.heir == w.core.next
         && v.reqs.Keys == w.reqs.Keys
         && ChainOf(v.core, s.family) == ChainOf(w.core, s.family) + [w.core.next]
         && Minted(w.core.next) in v.core.delivered
  {
    var w := World(s.world.core, s.world.reqs[r := AtLookup(s.refresh)]);
    StepKeeps(s.world, BeginRefresh(r, s.refresh));
    TipUnspent(s.world.core, s.family);
    LoneRefreshSucceeds(w, r, Tip(s.world.core, s.family));
  }

  lemma RenewSteps(s: Sys, t: ThreadId, r: RequestId, access: Access, expiry: int, phase: Phase)
    requires s.lock == None && PcOf(s, t) == WantLock(s.token, phase) && r !in s.world.reqs
    requires Presentable(s.world.core, s.refresh)
    requires var v := Run(Step(s.world, BeginRefresh(r, s.refresh)), Acts(r));
      r in v.reqs && v.reqs[r].Done? && v.reqs[r].result.Rotated? && v.reqs[r].result.heir == s.world.core.next
    ensures Execute(s, Renew(t, r, access, expiry)) == AfterRenewal(s, t, r, access, expiry, phase)
  {
    var w := Step(s.world, BeginRefresh(r, s.refresh));
    LockAndCompare(s, t, r, phase, s.token);
    var s1 := Execute(s, [Lock(t), Compare(t, r)]);
    var s2 := s1.(world := Run(w, Acts(r)));
    assert ServerActs(r) == seq(6, i => Server(Act(r))) && Acts(r) == seq(6, i => Act(r));
    ServerRuns(s1, r, 6);
    StoreAnswer(s2, t, r, access, expiry, phase, s.world.core.next);
    var tail := [Receive(t, access, expiry), Write(t), Write(t), Write(t), Unlock(t)];
    ExecuteConcat(s, [Lock(t), Compare(t, r)] + ServerActs(r), tail);
    ExecuteConcat(s, [Lock(t), Compare(t, r)], ServerActs(r));
    assert s2.threads[t := Ready(phase)] == s.threads[t := Ready(phase)];
  }

  lemma RenewAlone(s: Sys, t: ThreadId, r: RequestId, access: Access, expiry: int, phase: Phase)
    requires SInv(s) && s.lock == None && PcOf(s, t) == WantLock(s.token, phase) && r !in s.world.reqs
    requires Renewable(s.world.core, Tip(s.world.core, s.family))
    ensures Execute(s, Renew(t, r, access, expiry)) == AfterRenewal(s, t, r, access, expiry, phase)
    ensures ChainOf(AfterRenewal(s, t, r, access, expiry, phase).world.core, s.family)
         == ChainOf(s.world.core, s.family) + [s.world.core.next]
    ensures AfterRenewal(s, t, r, access, expiry, phase).world.reqs.Keys == s.world.reqs.Keys + {r}
    ensures Minted(s.world.core.next) in AfterRenewal(s, t, r, access, expiry, phase).world.core.delivered
  {
    PostIsAccepted(s, r);
    RenewSteps(s, t, r, access, expiry, phase);
  }

  lemma StoreAnswer(s: Sys, t: ThreadId, r: RequestId, access: Access, expiry: int, phase: Phase, heir: TokenId)
    requires PcOf(s, t) == Renewing(r, phase) && r in s.world.reqs && s.world.reqs[r].Done?
    requires s.world.reqs[r].result.Rotated? && s.world.reqs[r].result.heir == heir
    ensures Execute(s, [Receive(t, access, expiry), Write(t), Write(t), Write(t), Unlock(t)])
         == Sys(s.world, access, Minted(heir), expiry, None, s.threads[t := Ready(phase)], s.family, s.loggedOut)
  {
    FiveActions(s, Receive(t, access, expiry), Write(t), Write(t), Write(t), Unlock(t));
    var s1 := Move(s, t, SetToken(access, heir, expiry, phase));
    assert Do(s, Receive(t, access, expiry)) == s1;
    ThreeWrites(s1, t, access, expiry, phase, heir);
    Overwritten(s.threads, t, SetToken(access, heir, expiry, phase), Releasing(true, phase));
    var s4 := Move(s, t, Releasing(true, phase)).(token := access, refresh := Minted(heir), expiry := expiry);
    Unlocked(s, s4, t, phase);
  }

  lemma Unlocked(s: Sys, y: Sys, t: ThreadId, phase: Phase)
    requires y.threads == s.threads[t := Releasing(true, phase)]
    ensures Do(y, Unlock(t)) == y.(threads := s.threads[t := Ready(phase)], lock := None)
  {
    Overwritten(s.threads, t, Releasing(true, phase), Ready(phase));
  }

  lemma ThreeWrites(s: Sys, t: ThreadId, access: Access, expiry: int, phase: Phase, heir: TokenId)
    requires PcOf(s, t) == SetToken(access, heir, expiry, phase)
    ensures Do(Do(Do(s, Write(t)), Write(t)), Write(t))
         == Move(s, t, Releasing(true, phase)).(token := access, refresh := Minted(heir), expiry := expiry)
  {
    var s2 := Do(s, Write(t));
    assert s2 == Move(s, t, SetRefresh(heir, expiry, phase)).(token := access);
    Overwritten(s.threads, t, SetRefresh(heir, expiry, phase), SetExpiry(expiry, phase));
    var s3 := Do(s2, Write(t));
    assert s3 == Move(s, t, SetExpiry(expiry, phase)).(token := access, refresh := Minted(heir));
    Overwritten(s.threads, t, SetExpiry(expiry, phase), Releasing(true, phase));
  }

  // ---------- runs with two renewals ----------

  // Thread t makes a call and is refused.
  function Refused(t: ThreadId, now: int): seq<Action> {
    [Start(t), Ensure(t, now), Send(t), Answer(t, true)]
  }

  // Thread b, refused, takes its turn after a has renewed; `first` is how a's turn began.
  function ThenReread(a: ThreadId, b: ThreadId, r: RequestId, q: RequestId, first: Action, access: Access, expiry: int)
    : seq<Action>
  {
    [first] + Renew(a, r, access, expiry) + [Reread(b), Lock(b), Compare(b, q)]
  }

  lemma Asked(s: Sys, t: ThreadId, now: int)
    requires PcOf(s, t) == Idle && now + RENEW_SKEW < s.expiry
    ensures Execute(s, [Start(t), Ensure(t, now)]) == Move(s, t, Ready(Proactive))
  {
    TwoActions(s, Start(t), Ensure(t, now));
    Overwritten(s.threads, t, Ensuring, Ready(Proactive));
  }

  lemma SentAndRefused(s: Sys, t: ThreadId)
    requires PcOf(s, t) == Ready(Proactive)
    ensures Execute(s, [Send(t), Answer(t, true)]) == Move(s, t, Rejected(s.token))
  {
    TwoActions(s, Send(t), Answer(t, true));
    Overwritten(s.threads, t, Sending(s.token), Rejected(s.token));
  }

  lemma RefusedMoves(s: Sys, t: ThreadId, now: int)
    requires PcOf(s, t) == Idle && now + RENEW_SKEW < s.expiry
    ensures Execute(s, Refused(t, now)) == Move(s, t, Rejected(s.token))
  {
    assert Refused(t, now) == [Start(t), Ensure(t, now)] + [Send(t), Answer(t, true)];
    ExecuteConcat(s, [Start(t), Ensure(t, now)], [Send(t), Answer(t, true)]);
    Asked(s, t, now);
    SentAndRefused(Move(s, t, Ready(Proactive)), t);
    Overwritten(s.threads, t, Ready(Proactive), Rejected(s.token));
  }

  lemma OneAction(s: Sys, a: Action)
    ensures Execute(s, [a]) == Do(s, a)
  {
    assert [a][1..] == [];
    assert Execute(Do(s, a), []) == Do(s, a);
  }

  // The action makes t want the lock, with Token as it is.
  predicate StartsTurn(y: Sys, first: Action, t: ThreadId, phase: Phase) {
    && (first.Reread? || first.Ensure?) && first.t == t && !Waiting(PcOf(y, t))
    && Do(y, first) == Move(y, t, WantLock(y.token, phase))
  }

  lemma TurnMoves(y: Sys, first: Action, t: ThreadId, q: RequestId, phase: Phase)
    requires y.lock == None && q !in y.world.reqs && StartsTurn(y, first, t, phase)
    ensures var z := Do(Do(y, first), Lock(t));
      && CanDo(z, Compare(t, q)) && PcOf(z, t) == Holding(z.token, phase)
      && PcOf(Do(z, Compare(t, q)), t) == Renewing(q, phase)
  {
    var y1 := Move(y, t, WantLock(y.token, phase));
    assert Do(y1, Lock(t)) == Move(y1, t, Holding(y.token, phase)).(lock := Some(t));
  }

  lemma ThreeMore(s: Sys, pre: seq<Action>, x: Action, y: Action, z: Action, post: seq<Action>)
    ensures var run, n := pre + [x, y, z] + post, |pre|;
      && run[n] == x && run[n + 1] == y && run[n + 2] == z && At(s, run, n) == Execute(s, pre)
      && At(s, run, n + 1) == Do(Execute(s, pre), x) && At(s, run, n + 2) == Do(Do(Execute(s, pre), x), y)
      && At(s, run, n + 3) == Do(Do(Do(Execute(s, pre), x), y), z)
  {
    var run, n := pre + [x, y, z] + post, |pre|;
    assert run[..n] == pre;
    assert run[n] == x && run[n + 1] == y && run[n + 2] == z;
    AtNext(s, run, n);
    AtNext(s, run, n + 1);
    AtNext(s, run, n + 2);
  }

  // A turn taken where nothing disturbs it posts a refresh.
  lemma UndisturbedTurnPosts(s: Sys, run: seq<Action>, pre: seq<Action>, post: seq<Action>, first: Action, t: ThreadId,
                             q: RequestId, phase: Phase)
    requires run == pre + [first, Lock(t), Compare(t, q)] + post
    requires var y := Execute(s, pre);
      y.lock == None && q !in y.world.reqs && StartsTurn(y, first, t, phase)
    ensures var turn := Turn(t, |pre|, |pre| + 2);
      && IsTurn(s, run, turn) && Posts(s, run, t, |pre| + 2)
      && At(s, run, |pre|) == Execute(s, pre) && run[|pre|] == first
  {
    ThreeMore(s, pre, first, Lock(t), Compare(t, q), post);
    TurnMoves(Execute(s, pre), first, t, q, phase);
  }

  // After a has renewed, b stands where it stood, the lock is free, and only a's request is new.
  lemma RenewedFrom(s: Sys, phase: Phase, a: ThreadId, b: ThreadId, r: RequestId, access: Access, expiry: int)
    requires SInv(s) && a != b && s.lock == None && PcOf(s, a) == WantLock(s.token, phase) && r !in s.world.reqs
    requires Renewable(s.world.core, Tip(s.world.core, s.family))
    ensures var y := Execute(s, Renew(a, r, access, expiry));
      y.lock == None && PcOf(y, b) == PcOf(s, b) && y.world.reqs.Keys == s.world.reqs.Keys + {r}
  {
    RenewAlone(s, a, r, access, expiry, phase);
  }

  lemma RenewedOnce(s: Sys, y: Sys, first: Action, phase: Phase, a: ThreadId, b: ThreadId, r: RequestId,
                    access: Access, expiry: int)
    requires y == Do(s, first) && SInv(y) && a != b && PcOf(y, a) == WantLock(y.token, phase)
    requires y.lock == None && r !in y.world.reqs && Renewable(y.world.core, Tip(y.world.core, y.family))
    ensures var z := Execute(s, [first] + Renew(a, r, access, expiry));
      z.lock == None && PcOf(z, b) == PcOf(y, b) && z.world.reqs.Keys == y.world.reqs.Keys + {r}
  {
    OneAction(s, first);
    RenewedFrom(y, phase, a, b, r, access, expiry);
    ExecuteConcat(s, [first], Renew(a, r, access, expiry));
  }

  lemma FirstRenews(y: Sys, first: Action, phase: Phase, a: ThreadId, b: ThreadId, r: RequestId, access: Access,
                    expiry: int)
    requires SInv(y) && a != b && y.lock == None && StartsTurn(y, first, a, phase) && r !in y.world.reqs
    requires Renewable(y.world.core, Tip(y.world.core, y.family))
    ensures var z := Execute(y, [first] + Renew(a, r, access, expiry));
      z.lock == None && PcOf(z, b) == PcOf(y, b) && z.world.reqs.Keys == y.world.reqs.Keys + {r}
  {
    OutsideMove(y, a, WantLock(y.token, phase));
    RenewedOnce(y, Do(y, first), first, phase, a, b, r, access, expiry);
  }

  lemma SecondFollows(s: Sys, pre: seq<Action>, y: Sys, first: Action, phase: Phase, a: ThreadId, b: ThreadId,
                      r: RequestId, q: RequestId, access: Access, expiry: int)
    requires y == Execute(s, pre) && SInv(y) && a != b && r != q && r !in y.world.reqs && q !in y.world.reqs
    requires y.lock == None && StartsTurn(y, first, a, phase) && PcOf(y, b) == Rejected(y.token)
    requires first.Reread? ==> PcOf(y, a) == Rejected(y.token)
    requires Renewable(y.world.core, Tip(y.world.core, y.family))
    ensures RenewedTwiceFor(s, pre + ThenReread(a, b, r, q, first, access, expiry), y.token)
  {
    FirstRenews(y, first, phase, a, b, r, access, expiry);
    ExecuteConcat(s, pre, [first] + Renew(a, r, access, expiry));
    TwoPosts(s, pre, first, phase, a, b, r, q, y.token, access, expiry);
  }

  lemma TwoPosts(s: Sys, pre: seq<Action>, first: Action, phase: Phase, a: ThreadId, b: ThreadId, r: RequestId,
                 q: RequestId, x: Access, access: Access, expiry: int)
    requires var y := Execute(s, pre);
      && y.lock == None && r !in y.world.reqs && StartsTurn(y, first, a, phase) && y.token == x
      && (first.Reread? ==> PcOf(y, a) == Rejected(x))
    requires var z := Execute(s, pre + ([first] + Renew(a, r, access, expiry)));
      z.lock == None && PcOf(z, b) == Rejected(x) && q !in z.world.reqs
    ensures RenewedTwiceFor(s, pre + ThenReread(a, b, r, q, first, access, expiry), x)
  {
    var mid, run := [first] + Renew(a, r, access, expiry), pre + ThenReread(a, b, r, q, first, access, expiry);
    var rest := TurnsSpelled(pre, a, b, r, q, first, access, expiry);
    UndisturbedTurnPosts(s, run, pre, rest, first, a, r, phase);
    UndisturbedTurnPosts(s, run, pre + mid, [], Reread(b), b, q, Replay(x));
    BothHit(s, run, Turn(a, |pre|, |pre| + 2), Turn(b, |pre + mid|, |pre + mid| + 2), x);
  }

  lemma BothHit(s: Sys, run: seq<Action>, one: Turn, two: Turn, x: Access)
    requires IsTurn(s, run, one) && IsTurn(s, run, two) && one.compare < two.compare
    requires HitBy(s, run, one, x) && HitBy(s, run, two, x)
    requires Posts(s, run, one.t, one.compare) && Posts(s, run, two.t, two.compare)
    ensures RenewedTwiceFor(s, run, x)
  {
  }

  // The run seen from either turn.
  lemma TurnsSpelled(pre: seq<Action>, a: ThreadId, b: ThreadId, r: RequestId, q: RequestId, first: Action,
                     access: Access, expiry: int) returns (rest: seq<Action>)
    ensures var run := pre + ThenReread(a, b, r, q, first, access, expiry);
      && run == pre + [first, Lock(a), Compare(a, r)] + rest
      && run == (pre + ([first] + Renew(a, r, access, expiry))) + [Reread(b), Lock(b), Compare(b, q)] + []
  {
    var mid := [first] + Renew(a, r, access, expiry);
    rest := mid[3..] + [Reread(b), Lock(b), Compare(b, q)];
    assert mid[..3] == [first, Lock(a), Compare(a, r)];
  }

  // ---------- two threads refused with the same token ----------

  lemma BothRefused(s: Sys, a: ThreadId, b: ThreadId, now: int)
    requires a != b && PcOf(s, a) == Idle && PcOf(s, b) == Idle && now + RENEW_SKEW < s.expiry
    ensures Execute(s, Refused(a, now) + Refused(b, now)) == Move(Move(s, a, Rejected(s.token)), b, Rejected(s.token))
  {
    ExecuteConcat(s, Refused(a, now), Refused(b, now));
    RefusedMoves(s, a, now);
    RefusedMoves(Move(s, a, Rejected(s.token)), b, now);
  }

  lemma MovedKeeps(s: Sys, a: ThreadId, b: ThreadId, pa: ThreadPc, pb: ThreadPc)
    requires SInv(s) && a != b && !InLock(PcOf(s, a)) && !InLock(PcOf(s, b)) && !InLock(pa) && !InLock(pb)
    ensures SInv(Move(Move(s, a, pa), b, pb))
  {
    OutsideMove(s, a, pa);
    OutsideMove(Move(s, a, pa), b, pb);
  }

  lemma RefusedStartsTurn(y: Sys, a: ThreadId)
    requires PcOf(y, a) == Rejected(y.token)
    ensures StartsTurn(y, Reread(a), a, Replay(y.token))
  {
  }

  lemma SessionIsIdle(s: Sys, heir: TokenId)
    requires SessionStarts(s, heir)
    ensures s.lock == None && (forall t: ThreadId :: PcOf(s, t).Idle?) && Tip(s.world.core, s.family) == heir
  {
  }

  // What the two threads have done so far moved nothing but themselves.
  lemma RefusedState(s: Sys, a: ThreadId, b: ThreadId, now: int) returns (y: Sys)
    requires a != b && PcOf(s, a).Idle? && PcOf(s, b).Idle? && now + RENEW_SKEW < s.expiry
    ensures y == Execute(s, Refused(a, now) + Refused(b, now))
    ensures y == Move(Move(s, a, Rejected(s.token)), b, Rejected(s.token))
    ensures PcOf(y, a) == PcOf(y, b) == Rejected(s.token)
  {
    BothRefused(s, a, b, now);
    y := Move(Move(s, a, Rejected(s.token)), b, Rejected(s.token));
  }

  // From the start of any session whose token would be accepted, two threads that are refused with
  // the one access token can both post a refresh for it. The new token may be any token.
  lemma CanRenewTwice(s: Sys, heir: TokenId, a: ThreadId, b: ThreadId, r: RequestId, q: RequestId, now: int,
                      access: Access, expiry: int)
    requires SessionStarts(s, heir) && Renewable(s.world.core, heir) && now + RENEW_SKEW < s.expiry
    requires a != b && r != q && r !in s.world.reqs && q !in s.world.reqs
    ensures var run := (Refused(a, now) + Refused(b, now)) + ThenReread(a, b, r, q, Reread(a), access, expiry);
      RenewedTwiceFor(s, run, s.token)
  {
    var pre := Refused(a, now) + Refused(b, now);
    SessionInv(s, heir);
    SessionIsIdle(s, heir);
    var y := RefusedState(s, a, b, now);
    MovedKeeps(s, a, b, Rejected(s.token), Rejected(s.token));
    RefusedStartsTurn(y, a);
    SecondFollows(s, pre, y, Reread(a), Replay(s.token), a, b, r, q, access, expiry);
  }

  // ---------- one refused with the token, one that finds it expiring ----------

  lemma MixedState(s: Sys, heir: TokenId, a: ThreadId, b: ThreadId, now: int, late: int)
    requires SessionStarts(s, heir) && a != b && now + RENEW_SKEW < s.expiry <= late + RENEW_SKEW
    ensures var y := Execute(s, Refused(b, now) + [Start(a)]);
      && SInv(y) && y.world == s.world && y.token == s.token && y.family == s.family
      && y.lock == None && PcOf(y, b) == Rejected(y.token)
      && Tip(y.world.core, y.family) == heir && StartsTurn(y, Ensure(a, late), a, Proactive)
  {
    SessionInv(s, heir);
    RefusedMoves(s, b, now);
    ExecuteConcat(s, Refused(b, now), [Start(a)]);
    OneAction(Move(s, b, Rejected(s.token)), Start(a));
    MovedKeeps(s, b, a, Rejected(s.token), Ensuring);
  }

  // Likewise if b is refused and a finds the same token about to expire.
  lemma CanRenewTwiceMixed(s: Sys, heir: TokenId, a: ThreadId, b: ThreadId, r: RequestId, q: RequestId, now: int,
                           late: int, access: Access, expiry: int)
    requires SessionStarts(s, heir) && Renewable(s.world.core, heir)
    requires now + RENEW_SKEW < s.expiry <= late + RENEW_SKEW
    requires a != b && r != q && r !in s.world.reqs && q !in s.world.reqs
    ensures var run := (Refused(b, now) + [Start(a)]) + ThenReread(a, b, r, q, Ensure(a, late), access, expiry);
      RenewedTwiceFor(s, run, s.token)
  {
    MixedState(s, heir, a, b, now, late);
    var pre := Refused(b, now) + [Start(a)];
    SecondFollows(s, pre, Execute(s, pre), Ensure(a, late), Proactive, a, b, r, q, access, expiry);
  }

  // ---------- two threads that find the token expiring ----------

  // Thread t holds the lock, and its comparison will find Token as it read it.
  predicate ReadyToPost(z: Sys, t: ThreadId, q: RequestId) {
    PcOf(z, t).Holding? && q !in z.world.reqs && PcOf(z, t).stale == z.token
  }

  lemma LockReadies(y: Sys, t: ThreadId, q: RequestId)
    requires y.lock == None && PcOf(y, t) == WantLock(y.token, Proactive) && q !in y.world.reqs
    ensures ReadyToPost(Do(y, Lock(t)), t, q)
  {
    assert Do(y, Lock(t)) == Move(y, t, Holding(y.token, Proactive)).(lock := Some(t));
  }

  lemma PostsHere(s: Sys, pre: seq<Action>, post: seq<Action>, t: ThreadId, q: RequestId)
    requires ReadyToPost(Execute(s, pre), t, q)
    ensures Posts(s, pre + [Compare(t, q)] + post, t, |pre|)
  {
    var run := pre + [Compare(t, q)] + post;
    assert run[..|pre|] == pre && run[|pre|] == Compare(t, q);
    AtNext(s, run, |pre|);
    CompareStep(Execute(s, pre), t, q);
  }

  function HalfRenew(a: ThreadId, r: RequestId, access: Access, expiry: int): seq<Action> {
    [Lock(a), Compare(a, r)] + ServerActs(r) + [Receive(a, access, expiry), Write(a)]
  }

  lemma TakenAndWritten(s: Sys, a: ThreadId, r: RequestId, access: Access, expiry: int, heir: TokenId)
    requires PcOf(s, a) == Renewing(r, Proactive) && r in s.world.reqs && s.world.reqs[r].Done?
    requires s.world.reqs[r].result.Rotated? && s.world.reqs[r].result.heir == heir
    ensures Execute(s, [Receive(a, access, expiry), Write(a)])
         == Move(s, a, SetRefresh(heir, expiry, Proactive)).(token := access)
  {
    TwoActions(s, Receive(a, access, expiry), Write(a));
    var s1 := Move(s, a, SetToken(access, heir, expiry, Proactive));
    assert Do(s, Receive(a, access, expiry)) == s1;
    TokenWritten(s1, a, access, expiry, heir);
    Overwritten(s.threads, a, SetToken(access, heir, expiry, Proactive), SetRefresh(heir, expiry, Proactive));
  }

  lemma TokenWritten(s: Sys, a: ThreadId, access: Access, expiry: int, heir: TokenId)
    requires PcOf(s, a) == SetToken(access, heir, expiry, Proactive)
    ensures Do(s, Write(a)) == Move(s, a, SetRefresh(heir, expiry, Proactive)).(token := access)
  {
  }

  lemma HalfSteps(s: Sys, a: ThreadId, r: RequestId, access: Access, expiry: int)
    requires s.lock == None && PcOf(s, a) == WantLock(s.token, Proactive) && r !in s.world.reqs
    requires Presentable(s.world.core, s.refresh)
    requires var v := Run(Step(s.world, BeginRefresh(r, s.refresh)), Acts(r));
      r in v.reqs && v.reqs[r].Done? && v.reqs[r].result.Rotated? && v.reqs[r].result.heir == s.world.core.next
    ensures var y := Execute(s, HalfRenew(a, r, access, expiry));
      && y.expiry == s.expiry && y.lock == Some(a)
      && y.world == Run(Step(s.world, BeginRefresh(r, s.refresh)), Acts(r))
      && y.threads == s.threads[a := SetRefresh(s.world.core.next, expiry, Proactive)]
  {
    LockAndCompare(s, a, r, Proactive, s.token);
    var lead, tail := [Lock(a), Compare(a, r)], [Receive(a, access, expiry), Write(a)];
    var s1 := Execute(s, lead);
    assert ServerActs(r) == seq(6, i => Server(Act(r))) && Acts(r) == seq(6, i => Act(r));
    ServerRuns(s1, r, 6);
    ExecuteConcat(s, lead + ServerActs(r), tail);
    ExecuteConcat(s, lead, ServerActs(r));
    TakenAndWritten(s1.(world := Run(s1.world, Acts(r))), a, r, access, expiry, s.world.core.next);
    Overwritten(s.threads, a, Renewing(r, Proactive), SetRefresh(s.world.core.next, expiry, Proactive));
  }

  // Thread a has stored the new Token, and not yet the new TokenExpiry.
  lemma HalfStored(s: Sys, a: ThreadId, r: RequestId, access: Access, expiry: int)
    requires SInv(s) && s.lock == None && PcOf(s, a) == WantLock(s.token, Proactive) && r !in s.world.reqs
    requires Renewable(s.world.core, Tip(s.world.core, s.family))
    ensures var y := Execute(s, HalfRenew(a, r, access, expiry));
      && y.expiry == s.expiry && y.lock == Some(a) && y.world.reqs.Keys == s.world.reqs.Keys + {r}
      && y.threads == s.threads[a := SetRefresh(s.world.core.next, expiry, Proactive)]
  {
    PostIsAccepted(s, r);
    HalfSteps(s, a, r, access, expiry);
  }

  lemma RestWritten(y: Sys, a: ThreadId, heir: TokenId, expiry: int)
    requires PcOf(y, a) == SetRefresh(heir, expiry, Proactive)
    ensures Do(Do(Do(y, Write(a)), Write(a)), Unlock(a))
         == Move(y, a, Ready(Proactive)).(refresh := Minted(heir), expiry := expiry, lock := None)
  {
    var y2 := Move(y, a, SetExpiry(expiry, Proactive)).(refresh := Minted(heir));
    assert Do(y, Write(a)) == y2;
    Overwritten(y.threads, a, SetExpiry(expiry, Proactive), Releasing(true, Proactive));
    var y3 := Move(y, a, Releasing(true, Proactive)).(refresh := Minted(heir), expiry := expiry);
    assert Do(y2, Write(a)) == y3;
    Overwritten(y.threads, a, Releasing(true, Proactive), Ready(Proactive));
  }

  // Thread b reads the new Token beside the old TokenExpiry, and waits for the lock.
  lemma TornRead(y: Sys, a: ThreadId, b: ThreadId, q: RequestId, late: int, heir: TokenId, expiry: int)
    requires a != b && y.lock == Some(a) && PcOf(y, a) == SetRefresh(heir, expiry, Proactive)
    requires PcOf(y, b) == Ensuring && y.expiry <= late + RENEW_SKEW && q !in y.world.reqs
    ensures ReadyToPost(Execute(y, [Ensure(b, late), Write(a), Write(a), Unlock(a), Lock(b)]), b, q)
  {
    FiveActions(y, Ensure(b, late), Write(a), Write(a), Unlock(a), Lock(b));
    var y1 := Move(y, b, WantLock(y.token, Proactive));
    assert Do(y, Ensure(b, late)) == y1;
    RestWritten(y1, a, heir, expiry);
    var y4 := Do(Do(Do(y1, Write(a)), Write(a)), Unlock(a));
    assert PcOf(y4, b) == WantLock(y.token, Proactive);
    LockReadies(y4, b, q);
  }

  function TornLead(a: ThreadId, b: ThreadId, late: int): seq<Action> {
    [Start(b), Start(a)] + [Ensure(a, late)]
  }

  // The rest of the run up to b's comparison.
  function TornRest(a: ThreadId, b: ThreadId, r: RequestId, late: int, access: Access, expiry: int): seq<Action> {
    HalfRenew(a, r, access, expiry) + [Ensure(b, late), Write(a), Write(a), Unlock(a), Lock(b)]
  }

  lemma TornStart(s: Sys, heir: TokenId, a: ThreadId, b: ThreadId, late: int)
    requires SessionStarts(s, heir) && a != b && s.expiry <= late + RENEW_SKEW
    ensures var y := Execute(s, TornLead(a, b, late));
      && SInv(y) && y.world == s.world && y.family == s.family && y.expiry == s.expiry && y.lock == None
      && PcOf(y, a) == WantLock(y.token, Proactive) && PcOf(y, b) == Ensuring && Tip(y.world.core, y.family) == heir
  {
    SessionInv(s, heir);
    TwoActions(s, Start(b), Start(a));
    ExecuteConcat(s, [Start(b), Start(a)], [Ensure(a, late)]);
    var y := Move(Move(s, b, Ensuring), a, Ensuring);
    OneAction(y, Ensure(a, late));
    MovedKeeps(s, b, a, Ensuring, WantLock(s.token, Proactive));
    Overwritten(s.threads[b := Ensuring], a, Ensuring, WantLock(s.token, Proactive));
  }

  lemma TornEnd(s: Sys, pre: seq<Action>, y: Sys, a: ThreadId, b: ThreadId, r: RequestId, q: RequestId, late: int,
                access: Access, expiry: int)
    requires y == Execute(s, pre) && SInv(y)
    requires y.lock == None && PcOf(y, a) == WantLock(y.token, Proactive) && PcOf(y, b) == Ensuring && a != b
    requires y.expiry <= late + RENEW_SKEW && r != q && r !in y.world.reqs && q !in y.world.reqs
    requires Renewable(y.world.core, Tip(y.world.core, y.family))
    ensures ReadyToPost(Execute(s, pre + TornRest(a, b, r, late, access, expiry)), b, q)
  {
    var half := HalfRenew(a, r, access, expiry);
    HalfStored(y, a, r, access, expiry);
    TornRead(Execute(y, half), a, b, q, late, y.world.core.next, expiry);
    ExecuteConcat(y, half, [Ensure(b, late), Write(a), Write(a), Unlock(a), Lock(b)]);
    ExecuteConcat(s, pre, TornRest(a, b, r, late, access, expiry));
  }

  // Two threads that find the token expiring can both post: b looks between a's store of Token and a's
  // store of TokenExpiry.
  lemma CanRenewTwiceTorn(s: Sys, heir: TokenId, a: ThreadId, b: ThreadId, r: RequestId, q: RequestId, late: int,
                          access: Access, expiry: int)
    requires SessionStarts(s, heir) && Renewable(s.world.core, heir) && s.expiry <= late + RENEW_SKEW
    requires a != b && r != q && r !in s.world.reqs && q !in s.world.reqs
    ensures PostedTwice(s, TornLead(a, b, late) + TornRest(a, b, r, late, access, expiry) + [Compare(b, q)])
  {
    var pre, rest := TornLead(a, b, late), TornRest(a, b, r, late, access, expiry);
    TornStart(s, heir, a, b, late);
    var y := Execute(s, pre);
    TornEnd(s, pre, y, a, b, r, q, late, access, expiry);
    TornPosts(s, pre, y, rest, a, b, r, q);
  }

  lemma TornPosts(s: Sys, pre: seq<Action>, y: Sys, rest: seq<Action>, a: ThreadId, b: ThreadId, r: RequestId,
                  q: RequestId)
    requires |rest| > 2 && rest[..2] == [Lock(a), Compare(a, r)] && y == Execute(s, pre)
    requires y.lock == None && PcOf(y, a) == WantLock(y.token, Proactive) && r !in y.world.reqs
    requires ReadyToPost(Execute(s, pre + rest), b, q)
    ensures PostedTwice(s, pre + rest + [Compare(b, q)])
  {
    var run, tail := pre + rest + [Compare(b, q)], rest[2..] + [Compare(b, q)];
    assert run == (pre + rest) + [Compare(b, q)] + [];
    assert run == (pre + [Lock(a)]) + [Compare(a, r)] + tail;
    PostsHere(s, pre + rest, [], b, q);
    FirstPosts(s, pre, y, tail, a, r);
    assert |pre + [Lock(a)]| < |pre + rest|;
  }

  lemma FirstPosts(s: Sys, pre: seq<Action>, y: Sys, post: seq<Action>, a: ThreadId, r: RequestId)
    requires y == Execute(s, pre)
    requires y.lock == None && PcOf(y, a) == WantLock(y.token, Proactive) && r !in y.world.reqs
    ensures Posts(s, (pre + [Lock(a)]) + [Compare(a, r)] + post, a, |pre + [Lock(a)]|)
  {
    ExecuteConcat(s, pre, [Lock(a)]);
    OneAction(y, Lock(a));
    LockReadies(y, a, r);
    PostsHere(s, pre + [Lock(a)], post, a, r);
  }
}
