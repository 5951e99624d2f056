/** Silent renewal never trips the server's reuse detection, whatever the threads do. */
module CliRenewalProof {
  import opened Outcomes
  import opened RefreshStore
  import opened Rotation
  import opened RotationInvariant
  import opened RotationTheorems
  import RotationSecrecy
  import opened CliRenewal

  // The end of the family's chain.
  function Tip(c: Core, f: FamilyId): TokenId
    requires ChainOf(c, f) != []
  {
    ChainOf(c, f)[|ChainOf(c, f)| - 1]
  }

  ghost predicate Live(c: Core, f: FamilyId) {
    ChainOf(c, f) != [] && f !in c.revoked && Tip(c, f) in c.rows
  }

  // The request works on the family, or has concluded that one of its tokens was reused.
  ghost predicate Concerns(c: Core, pc: Pc, f: FamilyId) {
    match pc
    case AtLookup(raw) => OfFamily(c, raw, f)
    case AtCheck(tok) => tok.family == f
    case AtLoadUser(tok) => tok.family == f
    case AtMint(tok) => tok.family == f
    case AtConsume(tok, _) => tok.family == f
    case AtRevokeReuse(tok) => tok.family == f
    case AtRevokeRace(tok) => tok.family == f
    case AtRespond(tok, _) => tok.family == f
    case AtLogoutLookup(raw) => OfFamily(c, raw, f)
    case AtLogoutFamily(raw, family) => family == f || OfFamily(c, raw, f)
    case AtLogoutToken(raw) => OfFamily(c, raw, f)
    case AtLoginMint(_) => false
    case AtLoginRespond(_) => false
    case Done(result) => result.ReuseDetected? && result.tok.family == f
  }

  // Nothing about the family has changed.
  ghost predicate Untouched(c: Core, d: Core, f: FamilyId) {
    && ChainOf(d, f) == ChainOf(c, f)
    && (f in d.revoked <==> f in c.revoked)
    && (forall id :: id in c.minted && c.minted[id] == f && id in c.rows ==> id in d.rows)
  }

  lemma ForeignEffect(c: Core, pc: Pc, f: FamilyId)
    requires CoreInv(c) && PcOk(c, pc) && f in c.chains && !Concerns(c, pc, f)
    ensures Untouched(c, Effect(c, pc), f)
  {
  }

  lemma OfFamilyStays(c: Core, d: Core, raw: Raw, f: FamilyId)
    requires Grows(c, d) && CoreInv(c) && Presentable(c, raw)
    ensures OfFamily(d, raw, f) <==> OfFamily(c, raw, f)
  {
  }

  lemma ForeignStays(c: Core, d: Core, pc: Pc, f: FamilyId)
    requires Grows(c, d) && CoreInv(c) && PcOk(c, pc) && !Concerns(c, pc, f)
    ensures !Concerns(d, pc, f)
  {
  }

  lemma ForeignLookup(c: Core, pc: Pc, f: FamilyId)
    requires CoreInv(c) && PcOk(c, pc) && !Concerns(c, pc, f) && (pc.AtLookup? || pc.AtLogoutLookup?)
    ensures !Concerns(c, Next(c, pc), f)
  {
    FoundIsPresented(c, pc.raw);
  }

  lemma ForeignNext(c: Core, pc: Pc, f: FamilyId)
    requires CoreInv(c) && PcOk(c, pc) && !Concerns(c, pc, f)
    ensures !Concerns(c, Next(c, pc), f)
  {
    if pc.AtLookup? || pc.AtLogoutLookup? {
      ForeignLookup(c, pc, f);
    }
  }

  lemma ForeignAborts(c: Core, pc: Pc, f: FamilyId)
    requires !Concerns(c, pc, f)
    ensures !Concerns(c, OnFault(pc), f) && !Concerns(c, OnLoss(pc), f)
  {
  }

  // The refresh request the lock holder is waiting for.
  ghost predicate OwnRequest(c: Core, pc: Pc, f: FamilyId, refresh: Raw)
    requires Live(c, f)
  {
    var tip := Tip(c, f);
    match pc
    case AtLookup(raw) => raw == refresh && Holds(c, f, refresh)
    case AtCheck(tok) => tok.id == tip && tok.family == f && !tok.consumed && Holds(c, f, refresh)
    case AtLoadUser(tok) => tok.id == tip && tok.family == f && Holds(c, f, refresh)
    case AtMint(tok) => tok.id == tip && tok.family == f && Holds(c, f, refresh)
    case AtConsume(tok, heir) => tok.id == tip && tok.family == f && heir in c.rows && Holds(c, f, refresh)
    case AtRespond(tok, heir) => heir == tip && tok.family == f
    case Done(Rotated(tok, heir)) => heir == tip && Minted(heir) in c.delivered
    case Done(Refused) => Holds(c, f, refresh)
    case Done(Failed) => Holds(c, f, refresh)
    case _ => false
  }

  // The client's refresh token is the end of the chain.
  ghost predicate Holds(c: Core, f: FamilyId, refresh: Raw)
    requires Live(c, f)
  {
    refresh == Minted(Tip(c, f)) && refresh in c.delivered
  }

  lemma TipUnspent(c: Core, f: FamilyId)
    requires CoreInv(c) && Live(c, f)
    ensures !c.rows[Tip(c, f)].consumed && c.rows[Tip(c, f)].family == f && c.minted[Tip(c, f)] == f
  {
    assert ChainOk(c, f, c.chains[f]) && Linked(c.rows, c.chains[f]);
    assert c.chains[f][|c.chains[f]| - 1] == Tip(c, f);
  }

  lemma OwnLookup(c: Core, pc: Pc, f: FamilyId, refresh: Raw)
    requires CoreInv(c) && PcOk(c, pc) && Live(c, f) && OwnRequest(c, pc, f, refresh) && pc.AtLookup?
    ensures OwnRequest(c, Next(c, pc), f, refresh)
  {
    FoundIsPresented(c, pc.raw);
    TipUnspent(c, f);
  }

  lemma OwnMint(c: Core, pc: Pc, f: FamilyId, refresh: Raw)
    requires CoreInv(c) && PcOk(c, pc) && Live(c, f) && OwnRequest(c, pc, f, refresh) && pc.AtMint?
    ensures Live(Effect(c, pc), f) && OwnRequest(Effect(c, pc), Next(c, pc), f, refresh)
    ensures OwnRequest(Effect(c, pc), Done(Failed), f, refresh)
  {
    NextUnused(c);
  }

  // The consume succeeds: the presented token is the unconsumed end of the chain.
  lemma OwnConsume(c: Core, pc: Pc, f: FamilyId, refresh: Raw)
    requires CoreInv(c) && PcOk(c, pc) && Live(c, f) && OwnRequest(c, pc, f, refresh) && pc.AtConsume?
    ensures Live(Effect(c, pc), f) && OwnRequest(Effect(c, pc), Next(c, pc), f, refresh)
  {
    TipUnspent(c, f);
    assert Effect(c, pc).chains[f] == c.chains[f] + [pc.heir];
  }

  lemma OwnStep(c: Core, pc: Pc, f: FamilyId, refresh: Raw)
    requires CoreInv(c) && PcOk(c, pc) && Live(c, f) && OwnRequest(c, pc, f, refresh)
    ensures Live(Effect(c, pc), f) && OwnRequest(Effect(c, pc), Next(c, pc), f, refresh)
  {
    match pc
    case AtLookup(_) => OwnLookup(c, pc, f, refresh);
    case AtMint(_) => OwnMint(c, pc, f, refresh);
    case AtConsume(_, _) => OwnConsume(c, pc, f, refresh);
    case _ =>
  }

  lemma OwnFault(c: Core, pc: Pc, f: FamilyId, refresh: Raw, applied: bool)
    requires CoreInv(c) && PcOk(c, pc) && Live(c, f) && OwnRequest(c, pc, f, refresh)
    requires CallsStore(pc) && !(applied && pc.AtConsume?)
    ensures var d := (if applied then Effect(c, pc) else c).(faulted := true);
      Live(d, f) && OwnRequest(d, OnFault(pc), f, refresh)
  {
    if pc.AtMint? {
      OwnMint(c, pc, f, refresh);
    }
  }

  // ---------- the invariant of the whole system ----------

  predicate InLock(pc: ThreadPc) {
    pc.Holding? || pc.Renewing? || pc.SetToken? || pc.SetRefresh? || pc.SetExpiry? || pc.Releasing?
  }

  ghost predicate HolderOk(s: Sys, pc: ThreadPc)
    requires Live(s.world.core, s.family)
  {
    var c, f := s.world.core, s.family;
    match pc
    case Holding(_, _) => Holds(c, f, s.refresh)
    case Releasing(_, _) => Holds(c, f, s.refresh)
    case SetExpiry(_, _) => Holds(c, f, s.refresh)
    case Renewing(r, _) => r in s.world.reqs && OwnRequest(c, s.world.reqs[r], f, s.refresh)
    case SetToken(_, heir, _, _) => heir == Tip(c, f) && Minted(heir) in c.delivered
    case SetRefresh(heir, _, _) => heir == Tip(c, f) && Minted(heir) in c.delivered
    case _ => false
  }

  ghost predicate IsOwn(s: Sys, r: RequestId) {
    s.lock.Some? && PcOf(s, s.lock.value).Renewing? && PcOf(s, s.lock.value).r == r
  }

  ghost predicate Single(s: Sys) {
    forall t: ThreadId :: InLock(PcOf(s, t)) <==> s.lock == Some(t)
  }

  // Only the lock holder's request works on this session's family.
  ghost predicate Quiet(s: Sys) {
    forall r :: r in s.world.reqs && !IsOwn(s, r) ==> !Concerns(s.world.core, s.world.reqs[r], s.family)
  }

  ghost predicate SInv(s: Sys) {
    && Inv(s.world)
    && Live(s.world.core, s.family)
    && Single(s)
    && Quiet(s)
    && (if s.lock.Some? then HolderOk(s, PcOf(s, s.lock.value)) else Holds(s.world.core, s.family, s.refresh))
  }

  lemma UntouchedKeeps(c: Core, d: Core, f: FamilyId, refresh: Raw, pc: Pc)
    requires CoreInv(c) && Live(c, f) && Untouched(c, d, f) && Grows(c, d)
    ensures Live(d, f) && Tip(d, f) == Tip(c, f)
    ensures Holds(c, f, refresh) ==> Holds(d, f, refresh)
    ensures PcOk(c, pc) && OwnRequest(c, pc, f, refresh) ==> OwnRequest(d, pc, f, refresh)
  {
    TipUnspent(c, f);
  }

  // What the client holds, and what the lock holder waits for, survives.
  lemma HolderStays(s: Sys, v: World)
    requires SInv(s) && Grows(s.world.core, v.core) && Untouched(s.world.core, v.core, s.family)
    requires forall r :: r in s.world.reqs && IsOwn(s, r) ==> r in v.reqs && v.reqs[r] == s.world.reqs[r]
    ensures Live(v.core, s.family)
    ensures if s.lock.Some? then HolderOk(s.(world := v), PcOf(s, s.lock.value)) else Holds(v.core, s.family, s.refresh)
  {
    var c, d, f := s.world.core, v.core, s.family;
    UntouchedKeeps(c, d, f, s.refresh, Done(LoggedOut));
    if s.lock.Some? && PcOf(s, s.lock.value).Renewing? {
      var r := PcOf(s, s.lock.value).r;
      assert IsOwn(s, r) && PcOk(c, s.world.reqs[r]);
      UntouchedKeeps(c, d, f, s.refresh, s.world.reqs[r]);
    }
  }

  // The rest of the world moved without touching the family.
  lemma ForeignMove(s: Sys, v: World)
    requires SInv(s) && Inv(v) && Grows(s.world.core, v.core) && Untouched(s.world.core, v.core, s.family)
    requires forall r :: r in v.reqs && !IsOwn(s, r) ==> !Concerns(v.core, v.reqs[r], s.family)
    requires forall r :: r in s.world.reqs && IsOwn(s, r) ==> r in v.reqs && v.reqs[r] == s.world.reqs[r]
    ensures SInv(s.(world := v))
  {
    HolderStays(s, v);
    var y := s.(world := v);
    assert Single(y) && Quiet(y) && (forall t: ThreadId :: PcOf(y, t) == PcOf(s, t));
  }

  // The lock holder's own request moved.
  lemma OwnMove(s: Sys, v: World, r: RequestId)
    requires SInv(s) && r in s.world.reqs && IsOwn(s, r) && Inv(v) && Grows(s.world.core, v.core)
    requires Live(v.core, s.family) && r in v.reqs && OwnRequest(v.core, v.reqs[r], s.family, s.refresh)
    requires forall q :: q in v.reqs && q != r ==> q in s.world.reqs && v.reqs[q] == s.world.reqs[q]
    ensures SInv(s.(world := v))
  {
    forall q | q in v.reqs && !IsOwn(s, q) ensures !Concerns(v.core, v.reqs[q], s.family) {
      assert PcOk(s.world.core, s.world.reqs[q]);
      ForeignStays(s.world.core, v.core, s.world.reqs[q], s.family);
    }
  }

  // ---------- every action keeps it ----------

  lemma OwnRequestMoves(w: World, e: Event, f: FamilyId, refresh: Raw)
    requires Inv(w) && Enabled(w, e) && Permitted(w, e, f) && (e.Act? || e.Fault? || e.Lose?)
    requires Live(w.core, f) && OwnRequest(w.core, w.reqs[e.r], f, refresh)
    ensures var v := Step(w, e);
      && Inv(v) && Grows(w.core, v.core)
      && v.reqs.Keys == w.reqs.Keys
      && (forall q :: q in v.reqs && q != e.r ==> v.reqs[q] == w.reqs[q])
      && Live(v.core, f) && OwnRequest(v.core, v.reqs[e.r], f, refresh)
  {
    StepKeeps(w, e);
    match e
    case Act(r) => OwnStep(w.core, w.reqs[r], f, refresh);
    case Fault(r, applied) => OwnFault(w.core, w.reqs[r], f, refresh, applied);
    case Lose(_) =>
  }

  lemma OwnRequestStepKeeps(s: Sys, e: Event)
    requires SInv(s) && Permitted(s.world, e, s.family) && Enabled(s.world, e)
    requires (e.Act? || e.Fault? || e.Lose?) && IsOwn(s, e.r)
    ensures SInv(s.(world := Step(s.world, e)))
  {
    OwnRequestMoves(s.world, e, s.family, s.refresh);
    OwnMove(s, Step(s.world, e), e.r);
  }

  // What a step of some other request makes of that request and of the family.
  lemma ForeignStepResult(w: World, e: Event, f: FamilyId)
    requires Inv(w) && Enabled(w, e) && (e.Act? || e.Fault? || e.Lose?)
    requires f in w.core.chains && !Concerns(w.core, w.reqs[e.r], f)
    ensures Untouched(w.core, Step(w, e).core, f) && !Concerns(Step(w, e).core, Step(w, e).reqs[e.r], f)
  {
    var c, pc, d := w.core, w.reqs[e.r], Step(w, e).core;
    StepKeeps(w, e);
    ForeignEffect(c, pc, f);
    ForeignNext(c, pc, f);
    ForeignAborts(c, pc, f);
    MoverStaysForeign(c, d, pc, Step(w, e).reqs[e.r], f);
  }

  predicate HasRaw(pc: Pc) {
    pc.AtLookup? || pc.AtLogoutLookup? || pc.AtLogoutFamily? || pc.AtLogoutToken?
  }

  lemma MoverStaysForeign(c: Core, d: Core, pc: Pc, next: Pc, f: FamilyId)
    requires CoreInv(c) && PcOk(c, pc) && Grows(c, d) && !Concerns(c, next, f)
    requires next == Next(c, pc) || next == OnFault(pc) || next == OnLoss(pc)
    ensures !Concerns(d, next, f)
  {
    if HasRaw(next) {
      RawIsHeld(c, pc, next);
      OfFamilyStays(c, d, next.raw, f);
    }
  }

  lemma RawIsHeld(c: Core, pc: Pc, next: Pc)
    requires PcOk(c, pc) && HasRaw(next) && (next == Next(c, pc) || next == OnFault(pc) || next == OnLoss(pc))
    ensures Presentable(c, next.raw)
  {
  }

  // At most request r moved or arrived; it has nothing to do with family f, and f was not touched.
  ghost predicate OtherMoved(w: World, v: World, r: RequestId, f: FamilyId) {
    && Inv(v)
    && Grows(w.core, v.core)
    && Untouched(w.core, v.core, f)
    && v.reqs.Keys <= w.reqs.Keys + {r}
    && (forall q :: q in w.reqs && q != r ==> q in v.reqs && v.reqs[q] == w.reqs[q])
    && (r in v.reqs ==> !Concerns(v.core, v.reqs[r], f))
  }

  lemma OtherMovedKeeps(s: Sys, v: World, r: RequestId)
    requires SInv(s) && !IsOwn(s, r) && OtherMoved(s.world, v, r, s.family)
    ensures SInv(s.(world := v))
  {
    forall q | q in v.reqs && !IsOwn(s, q) ensures !Concerns(v.core, v.reqs[q], s.family) {
      if q != r {
        assert PcOk(s.world.core, s.world.reqs[q]);
        ForeignStays(s.world.core, v.core, s.world.reqs[q], s.family);
      }
    }
    ForeignMove(s, v);
  }

  lemma ForeignStepMoves(w: World, e: Event, f: FamilyId)
    requires Inv(w) && Enabled(w, e) && (e.Act? || e.Fault? || e.Lose?)
    requires f in w.core.chains && !Concerns(w.core, w.reqs[e.r], f)
    ensures OtherMoved(w, Step(w, e), e.r, f)
  {
    StepKeeps(w, e);
    ForeignStepResult(w, e, f);
  }

  lemma ArrivalMoves(w: World, e: Event, f: FamilyId)
    requires Inv(w) && Enabled(w, e) && Permitted(w, e, f)
    requires e.BeginRefresh? || e.BeginLogout? || e.BeginLogin?
    ensures OtherMoved(w, Step(w, e), e.r, f)
  {
    StepKeeps(w, e);
  }

  lemma ForeignRequestStepKeeps(s: Sys, e: Event)
    requires SInv(s) && Enabled(s.world, e)
    requires (e.Act? || e.Fault? || e.Lose?) && !IsOwn(s, e.r)
    ensures SInv(s.(world := Step(s.world, e)))
  {
    ForeignStepMoves(s.world, e, s.family);
    OtherMovedKeeps(s, Step(s.world, e), e.r);
  }

  lemma TickKeepsOthers(s: Sys, v: World)
    requires SInv(s) && v == World(s.world.core.(now := v.core.now), s.world.reqs)
    requires Inv(v) && Grows(s.world.core, v.core)
    ensures SInv(s.(world := v))
  {
    forall q | q in v.reqs && !IsOwn(s, q) ensures !Concerns(v.core, v.reqs[q], s.family) {
      assert PcOk(s.world.core, s.world.reqs[q]);
      ForeignStays(s.world.core, v.core, s.world.reqs[q], s.family);
    }
    ForeignMove(s, v);
  }

  lemma ArrivalKeeps(s: Sys, e: Event)
    requires SInv(s) && Permitted(s.world, e, s.family) && Enabled(s.world, e)
    requires e.BeginRefresh? || e.BeginLogout? || e.BeginLogin?
    requires !IsOwn(s, e.r)
    ensures SInv(s.(world := Step(s.world, e)))
  {
    ArrivalMoves(s.world, e, s.family);
    OtherMovedKeeps(s, Step(s.world, e), e.r);
  }

  lemma OwnIsKnown(s: Sys, r: RequestId)
    requires SInv(s) && IsOwn(s, r)
    ensures r in s.world.reqs
  {
  }

  lemma ServerKeeps(s: Sys, e: Event)
    requires SInv(s) && Permitted(s.world, e, s.family)
    ensures SInv(s.(world := Step(s.world, e)))
  {
    if !Enabled(s.world, e) {
      assert s.(world := s.world) == s;
    } else if e.Act? || e.Fault? || e.Lose? {
      if IsOwn(s, e.r) {
        OwnRequestStepKeeps(s, e);
      } else {
        ForeignRequestStepKeeps(s, e);
      }
    } else if e.Tick? {
      StepKeeps(s.world, e);
      TickKeepsOthers(s, Step(s.world, e));
    } else {
      if IsOwn(s, e.r) {
        OwnIsKnown(s, e.r);
      }
      ArrivalKeeps(s, e);
    }
  }

  lemma OutsideMove(s: Sys, t: ThreadId, pc: ThreadPc)
    requires SInv(s) && !InLock(PcOf(s, t)) && !InLock(pc)
    ensures SInv(Move(s, t, pc))
  {
    var y := Move(s, t, pc);
    forall q: ThreadId | q != t ensures PcOf(y, q) == PcOf(s, q) {
    }
  }

  lemma LockKeeps(s: Sys, t: ThreadId, pc: ThreadPc)
    requires SInv(s) && !InLock(PcOf(s, t)) && s.lock == None && pc.Holding?
    ensures SInv(Move(s, t, pc).(lock := Some(t)))
  {
    var y := Move(s, t, pc).(lock := Some(t));
    forall q: ThreadId | q != t ensures PcOf(y, q) == PcOf(s, q) {
    }
  }

  lemma UnlockKeeps(s: Sys, t: ThreadId, pc: ThreadPc)
    requires SInv(s) && PcOf(s, t).Releasing? && !InLock(pc)
    ensures SInv(Move(s, t, pc).(lock := None))
  {
    var y := Move(s, t, pc).(lock := None);
    assert s.lock == Some(t);
    forall q: ThreadId | q != t ensures PcOf(y, q) == PcOf(s, q) {
    }
  }

  // The lock holder moved on inside renewIfStale.
  lemma InsideMove(s: Sys, y: Sys, t: ThreadId, pc: ThreadPc)
    requires SInv(s) && InLock(PcOf(s, t)) && InLock(pc) && !pc.Renewing?
    requires y == Sys(s.world, y.token, y.refresh, y.expiry, s.lock, s.threads[t := pc], s.family, y.loggedOut)
    requires Live(s.world.core, s.family) && HolderOk(y, pc)
    requires var own := PcOf(s, t);
      own.Renewing? && own.r in s.world.reqs ==> !Concerns(s.world.core, s.world.reqs[own.r], s.family)
    ensures SInv(y)
  {
    assert s.lock == Some(t);
    forall q: ThreadId | q != t ensures PcOf(y, q) == PcOf(s, q) {
    }
    forall r | r in y.world.reqs && !IsOwn(y, r) ensures !Concerns(y.world.core, y.world.reqs[r], y.family) {
      assert IsOwn(s, r) ==> PcOf(s, t).r == r;
    }
  }

  lemma CompareKeeps(s: Sys, t: ThreadId, r: RequestId)
    requires SInv(s) && CanDo(s, Compare(t, r))
    ensures SInv(Do(s, Compare(t, r)))
  {
    var pc := PcOf(s, t);
    assert s.lock == Some(t);
    if s.token != pc.stale {
      InsideMove(s, Do(s, Compare(t, r)), t, Releasing(true, pc.phase));
    } else {
      PostKeeps(s, t, r);
    }
  }

  // The refresh request that is posted presents the end of the chain.
  lemma PostKeeps(s: Sys, t: ThreadId, r: RequestId)
    requires CanDo(s, Compare(t, r)) && s.token == PcOf(s, t).stale
    requires SInv(s)
    ensures SInv(Do(s, Compare(t, r)))
  {
    var y := Do(s, Compare(t, r));
    StepKeeps(s.world, BeginRefresh(r, s.refresh));
    assert s.lock == Some(t);
    assert y.world.reqs == s.world.reqs[r := AtLookup(s.refresh)] && y.world.core == s.world.core;
    forall q: ThreadId | q != t ensures PcOf(y, q) == PcOf(s, q) {
    }
    forall q | q in y.world.reqs && !IsOwn(y, q) ensures !Concerns(y.world.core, y.world.reqs[q], y.family) {
      assert q != r && !IsOwn(s, q);
    }
  }

  lemma ReceiveKeeps(s: Sys, t: ThreadId, access: Access, expiry: int)
    requires SInv(s) && CanDo(s, Receive(t, access, expiry))
    ensures SInv(Do(s, Receive(t, access, expiry)))
  {
    var y := Do(s, Receive(t, access, expiry));
    assert s.lock == Some(t);
    InsideMove(s, y, t, PcOf(y, t));
  }

  lemma WriteKeeps(s: Sys, t: ThreadId)
    requires SInv(s) && CanDo(s, Write(t))
    ensures SInv(Do(s, Write(t)))
  {
    var y := Do(s, Write(t));
    assert s.lock == Some(t);
    InsideMove(s, y, t, PcOf(y, t));
  }

  lemma ThreadMoves(s: Sys, a: Action)
    requires CanDo(s, a) && (a.Start? || a.Ensure? || a.Send? || a.Answer? || a.Reread?)
    ensures !InLock(PcOf(s, a.t)) && !InLock(PcOf(Do(s, a), a.t))
    ensures Do(s, a) == Move(s, a.t, PcOf(Do(s, a), a.t))
  {
  }

  lemma ThreadKeeps(s: Sys, a: Action)
    requires SInv(s) && CanDo(s, a)
    requires a.Start? || a.Ensure? || a.Send? || a.Answer? || a.Reread?
    ensures SInv(Do(s, a))
  {
    ThreadMoves(s, a);
    OutsideMove(s, a.t, PcOf(Do(s, a), a.t));
  }

  lemma ActionKeeps(s: Sys, a: Action)
    requires SInv(s) && !a.Logout?
    ensures SInv(Do(s, a))
  {
    if !CanDo(s, a) {
    } else if a.Server? {
      ServerKeeps(s, a.e);
    } else if a.Compare? {
      CompareKeeps(s, a.t, a.r);
    } else if a.Receive? {
      ReceiveKeeps(s, a.t, a.access, a.expiry);
    } else if a.Lock? {
      LockKeeps(s, a.t, PcOf(Do(s, a), a.t));
    } else if a.Write? {
      WriteKeeps(s, a.t);
    } else if a.Unlock? {
      UnlockKeeps(s, a.t, PcOf(Do(s, a), a.t));
    } else {
      ThreadKeeps(s, a);
    }
  }

  lemma {:induction false} ExecuteKeeps(s: Sys, run: seq<Action>)
    requires SInv(s) && !s.loggedOut && !Execute(s, run).loggedOut
    ensures SInv(Execute(s, run))
    decreases |run|
  {
    if run != [] {
      LoggedOutStays(s, run);
      if run[0].Logout? {
        ExecuteKeeps(s, run[1..]);
      } else {
        ActionKeeps(s, run[0]);
        ExecuteKeeps(Do(s, run[0]), run[1..]);
      }
    }
  }

  // Logging out is not undone, so a session still open at the end of a run never logged out in it.
  lemma {:induction false} LoggedOutStays(s: Sys, run: seq<Action>)
    requires run != [] && !Execute(s, run).loggedOut
    ensures !Do(s, run[0]).loggedOut && (run[0].Logout? ==> Do(s, run[0]) == s)
    decreases |run|
  {
    var y := Do(s, run[0]);
    if run[1..] != [] {
      LoggedOutStays(y, run[1..]);
    }
  }

  // ---------- the theorems ----------

  // A session right after login: a new family with one token, which the client holds, and no
  // request that knows the family. Other sessions may be in any state.
  ghost predicate SessionStarts(s: Sys, heir: TokenId) {
    var c, f := s.world.core, s.family;
    && Reachable(s.world)
    && f in c.chains && c.chains[f] == [heir] && f !in c.revoked && heir in c.rows
    && s.refresh == Minted(heir) && s.refresh in c.delivered
    && (forall r :: r in s.world.reqs ==> !Concerns(c, s.world.reqs[r], f))
    && s.lock == None && (forall t: ThreadId :: PcOf(s, t).Idle?)
    && !s.loggedOut
  }

  // The row a request works on, once it has read one.
  function TokenOf(pc: Pc): Option<Token> {
    match pc
    case AtCheck(tok) => Some(tok)
    case AtLoadUser(tok) => Some(tok)
    case AtMint(tok) => Some(tok)
    case AtConsume(tok, _) => Some(tok)
    case AtRevokeReuse(tok) => Some(tok)
    case AtRevokeRace(tok) => Some(tok)
    case AtRespond(tok, _) => Some(tok)
    case Done(Rotated(tok, _)) => Some(tok)
    case Done(Lost(tok, _)) => Some(tok)
    case Done(ReuseDetected(tok, _)) => Some(tok)
    case _ => None
  }

  // In the reuse branch, or answered from it.
  predicate MeetsReuse(pc: Pc) {
    pc.AtRevokeReuse? || pc.AtRevokeRace? || (pc.Done? && pc.result.ReuseDetected?)
  }

  // In the family of one token the string of nobody else belongs to the family.
  lemma OnlyString(c: Core, raw: Raw, id: TokenId)
    requires CoreInv(c) && Presentable(c, raw) && id in c.chains && c.chains[id] == [id] && OfFamily(c, raw, id)
    ensures raw == Minted(id)
  {
    assert Committed(c, raw.serial);
  }

  lemma UnawareIsUnconcerned(c: Core, pc: Pc, id: TokenId)
    requires CoreInv(c) && PcOk(c, pc) && id in c.chains && c.chains[id] == [id] && id !in c.revoked
    requires !RotationSecrecy.Knows(pc, id, id)
    ensures !Concerns(c, pc, id)
  {
    if HasRaw(pc) && OfFamily(c, pc.raw, id) {
      OnlyString(c, pc.raw, id);
    }
  }

  // What StartSession leaves behind, for a client that logs in with it, is the start of a session.
  lemma LoginStartsSession(w: World, id: TokenId, access: Access, expiry: int)
    requires Reachable(w)
    requires ChainOf(w.core, id) == [id] && id !in w.core.revoked && CanConsume(w.core.rows, id)
    requires Minted(id) in w.core.delivered && RotationSecrecy.Unheard(w, id)
    ensures SessionStarts(Sys(w, access, Minted(id), expiry, None, map[], id, false), id)
  {
    ReachableInv(w);
    forall r | r in w.reqs ensures !Concerns(w.core, w.reqs[r], id) {
      UnawareIsUnconcerned(w.core, w.reqs[r], id);
    }
  }

  lemma SessionInv(s: Sys, heir: TokenId)
    requires SessionStarts(s, heir)
    ensures SInv(s)
  {
    ReachableInv(s.world);
  }

  // Until logout, whatever the threads and the other requests do: the session's family is never
  // revoked, no request ever reaches the reuse branch for it, and whenever the renewal lock is free
  // the client holds the one token of the family that the server will still accept.
  lemma RenewalNeverTripsReuse(s: Sys, heir: TokenId, run: seq<Action>)
    requires SessionStarts(s, heir) && !Execute(s, run).loggedOut
    ensures var y := Execute(s, run); var c, f := y.world.core, y.family;
      && f !in c.revoked && ChainOf(c, f) != []
      && (forall r ::
            r in y.world.reqs && TokenOf(y.world.reqs[r]).Some? && TokenOf(y.world.reqs[r]).value.family == f ==>
              !MeetsReuse(y.world.reqs[r]))
      && (y.lock == None ==>
            && y.refresh == Minted(Tip(c, f)) && y.refresh in c.delivered
            && Tip(c, f) in c.rows && !c.rows[Tip(c, f)].consumed && c.rows[Tip(c, f)].family == f)
  {
    SessionInv(s, heir);
    ExecuteKeeps(s, run);
    var y := Execute(s, run);
    TipUnspent(y.world.core, y.family);
    forall r | r in y.world.reqs && TokenOf(y.world.reqs[r]).Some? && TokenOf(y.world.reqs[r]).value.family == y.family
      ensures !MeetsReuse(y.world.reqs[r])
    {
      NeverReused(y, r);
    }
  }

  lemma NeverReused(y: Sys, r: RequestId)
    requires SInv(y) && r in y.world.reqs
    requires TokenOf(y.world.reqs[r]).Some? && TokenOf(y.world.reqs[r]).value.family == y.family
    ensures !MeetsReuse(y.world.reqs[r])
  {
    assert PcOk(y.world.core, y.world.reqs[r]);
  }

  lemma ForeignToken(c: Core, pc: Pc, f: FamilyId, id: TokenId)
    requires PcOk(c, pc) && !Concerns(c, pc, f) && !pc.Done? && id in c.minted && c.minted[id] == f
    ensures TokenOf(pc).Some? ==> TokenOf(pc).value.id != id
    ensures pc.AtLookup? ==> pc.raw != Minted(id)
  {
  }

  // When a thread posts a refresh, the token it posts has never been exchanged, no other request has
  // it in hand, and none is about to look it up.
  lemma NoTokenPostedTwice(s: Sys, heir: TokenId, run: seq<Action>, t: ThreadId)
    requires SessionStarts(s, heir) && !Execute(s, run).loggedOut && PcOf(Execute(s, run), t).Holding?
    ensures var y := Execute(s, run);
      && y.refresh.Minted? && CanConsume(y.world.core.rows, y.refresh.serial)
      && (forall r :: r in y.world.reqs && Won(y.world.reqs[r]) ==> WonToken(y.world.reqs[r]).id != y.refresh.serial)
      && (forall r :: r in y.world.reqs && !y.world.reqs[r].Done? && TokenOf(y.world.reqs[r]).Some? ==>
            TokenOf(y.world.reqs[r]).value.id != y.refresh.serial)
      && (forall r :: r in y.world.reqs && y.world.reqs[r].AtLookup? ==> y.world.reqs[r].raw != y.refresh)
  {
    SessionInv(s, heir);
    ExecuteKeeps(s, run);
    var y := Execute(s, run);
    assert y.lock == Some(t);
    TipUnspent(y.world.core, y.family);
    forall r | r in y.world.reqs
      ensures Won(y.world.reqs[r]) ==> WonToken(y.world.reqs[r]).id != y.refresh.serial
      ensures !y.world.reqs[r].Done? && TokenOf(y.world.reqs[r]).Some? ==>
        TokenOf(y.world.reqs[r]).value.id != y.refresh.serial
      ensures y.world.reqs[r].AtLookup? ==> y.world.reqs[r].raw != y.refresh
    {
      NotInHand(y, t, r);
    }
  }

  lemma NotInHand(y: Sys, t: ThreadId, r: RequestId)
    requires PcOf(y, t).Holding? && y.lock == Some(t) && r in y.world.reqs && SInv(y) && !y.loggedOut
    requires Live(y.world.core, y.family) && y.refresh == Minted(Tip(y.world.core, y.family))
    ensures var pc := y.world.reqs[r];
      && (Won(pc) ==> WonToken(pc).id != y.refresh.serial)
      && (!pc.Done? && TokenOf(pc).Some? ==> TokenOf(pc).value.id != y.refresh.serial)
      && (pc.AtLookup? ==> pc.raw != y.refresh)
  {
    var c, pc := y.world.core, y.world.reqs[r];
    TipUnspent(c, y.family);
    assert PcOk(c, pc) && !IsOwn(y, r);
    if Won(pc) {
      WinnerIsSpent(c, pc);
    }
    if !pc.Done? {
      ForeignToken(c, pc, y.family, Tip(c, y.family));
    }
  }
}
