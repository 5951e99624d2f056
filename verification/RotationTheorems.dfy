/** What holds in every reachable state and over every run of the rotation protocol. */
module RotationTheorems {
  import opened Outcomes
  import opened RefreshStore
  import opened Rotation
  import opened RotationInvariant

  // ---------- one step ----------

  lemma OthersStay(w: World, pc: Pc, d: Core, other: Pc)
    requires CoreInv(w.core) && PcOk(w.core, pc) && PcOk(w.core, other) && Apart(pc, other)
    requires d == Effect(w.core, pc) || d == Effect(w.core, pc).(faulted := true) || d == w.core.(faulted := true)
    requires CoreInv(d) && Grows(w.core, d)
    ensures PcOk(d, other)
  {
    if other.AtConsume? {
      EffectCommits(w.core, pc, other.heir);
      if other.heir in w.core.rows {
        EffectKeepsRow(w.core, pc, other.heir);
      }
    }
    PcStays(w.core, d, other);
  }

  lemma EffectThenFaultKeeps(c: Core, pc: Pc, applied: bool)
    requires CoreInv(c) && PcOk(c, pc)
    ensures var d := (if applied then Effect(c, pc) else c).(faulted := true); CoreInv(d) && Grows(c, d)
  {
    if applied {
      EffectKeeps(c, pc);
      FaultKeeps(Effect(c, pc));
      GrowsTransitive(c, Effect(c, pc), Effect(c, pc).(faulted := true));
    } else {
      FaultKeeps(c);
    }
  }

  lemma ActKeeps(w: World, r: RequestId)
    requires Inv(w) && Enabled(w, Act(r))
    ensures Inv(Step(w, Act(r))) && Grows(w.core, Step(w, Act(r)).core)
  {
    var pc, v := w.reqs[r], Step(w, Act(r));
    EffectKeeps(w.core, pc);
    NextKeeps(w.core, pc);
    forall q | q in v.reqs ensures PcOk(v.core, v.reqs[q]) {
      if q != r {
        OthersStay(w, pc, v.core, w.reqs[q]);
      }
    }
    forall q | q in v.reqs && q != r ensures Apart(v.reqs[r], v.reqs[q]) && Apart(v.reqs[q], v.reqs[r]) {
      StillApart(w.core, pc, w.reqs[q]);
    }
  }

  lemma ApartNext(c: Core, pc: Pc, other: Pc)
    requires Apart(pc, other)
    requires pc.AtMint? && other.AtConsume? ==> other.heir != c.next
    requires pc.AtConsume? && CanConsume(c.rows, pc.tok.id) && Won(other) ==> WonToken(other).id != pc.tok.id
    ensures Apart(Next(c, pc), other) && Apart(other, Next(c, pc))
  {
  }

  lemma StillApart(c: Core, pc: Pc, other: Pc)
    requires CoreInv(c) && PcOk(c, pc) && PcOk(c, other) && Apart(pc, other)
    ensures Apart(Next(c, pc), other) && Apart(other, Next(c, pc))
  {
    if pc.AtMint? && other.AtConsume? {
      HeirIsOlder(c, other);
    }
    if Won(other) {
      WinnerIsSpent(c, other);
    }
    ApartNext(c, pc, other);
  }

  lemma HeirIsOlder(c: Core, other: Pc)
    requires CoreInv(c) && PcOk(c, other) && other.AtConsume?
    ensures other.heir != c.next
  {
    NextUnused(c);
  }

  lemma WinnerIsSpent(c: Core, other: Pc)
    requires PcOk(c, other) && Won(other)
    ensures !CanConsume(c.rows, WonToken(other).id)
  {
    assert Spent(c, WonToken(other).id);
  }

  lemma FaultedRequestOk(c: Core, d: Core, pc: Pc)
    requires MintedOk(c) && Grows(c, d) && d.faulted && PcOk(c, pc)
    ensures PcOk(d, OnFault(pc)) && (forall other :: Apart(OnFault(pc), other) && Apart(other, OnFault(pc)))
  {
    if pc.AtRevokeRace? {
      TokenStays(c, d, pc.tok);
    }
  }

  lemma FaultStepKeeps(w: World, r: RequestId, applied: bool)
    requires Inv(w) && Enabled(w, Fault(r, applied))
    ensures Inv(Step(w, Fault(r, applied))) && Grows(w.core, Step(w, Fault(r, applied)).core)
  {
    var pc, v := w.reqs[r], Step(w, Fault(r, applied));
    EffectThenFaultKeeps(w.core, pc, applied);
    FaultedRequestOk(w.core, v.core, pc);
    forall q | q in v.reqs && q != r ensures PcOk(v.core, v.reqs[q]) {
      OthersStay(w, pc, v.core, w.reqs[q]);
    }
  }

  lemma TickKeeps(c: Core, now: int)
    requires CoreInv(c)
    ensures CoreInv(c.(now := now)) && Grows(c, c.(now := now))
    ensures forall id :: Committed(c.(now := now), id) <==> Committed(c, id)
  {
    assert forall id :: Committed(c.(now := now), id) <==> Committed(c, id);
  }

  lemma TickKeepsRequest(c: Core, now: int, pc: Pc)
    requires CoreInv(c) && PcOk(c, pc)
    ensures PcOk(c.(now := now), pc)
  {
    TickKeeps(c, now);
    PcStays(c, c.(now := now), pc);
  }

  lemma TickStepKeeps(w: World, v: World, now: int)
    requires Inv(w) && v == World(w.core.(now := now), w.reqs)
    ensures Inv(v) && Grows(w.core, v.core)
  {
    TickKeeps(w.core, now);
    forall r | r in v.reqs ensures PcOk(v.core, v.reqs[r]) {
      TickKeepsRequest(w.core, now, w.reqs[r]);
    }
  }

  lemma RequestMoves(w: World, v: World, r: RequestId, pc: Pc)
    requires Inv(w) && v == World(w.core, w.reqs[r := pc]) && PcOk(w.core, pc)
    requires forall q :: q in w.reqs && q != r ==> Apart(pc, w.reqs[q]) && Apart(w.reqs[q], pc)
    ensures Inv(v)
  {
    forall q | q in v.reqs ensures PcOk(v.core, v.reqs[q]) {
      assert q != r ==> v.reqs[q] == w.reqs[q];
    }
  }

  lemma BeginKeeps(w: World, v: World, r: RequestId, pc: Pc)
    requires Inv(w) && v == World(w.core, w.reqs[r := pc]) && PcOk(w.core, pc)
    requires pc.AtLookup? || pc.AtLogoutLookup? || pc.AtLoginMint?
    ensures Inv(v)
  {
    RequestMoves(w, v, r, pc);
  }

  lemma LoseKeeps(w: World, v: World, r: RequestId)
    requires Inv(w) && r in w.reqs && (w.reqs[r].AtRespond? || w.reqs[r].AtLoginRespond?)
    requires v == World(w.core, w.reqs[r := OnLoss(w.reqs[r])])
    ensures Inv(v)
  {
    assert PcOk(w.core, w.reqs[r]);
    RequestMoves(w, v, r, OnLoss(w.reqs[r]));
  }

  lemma GrowsReflexive(c: Core)
    ensures Grows(c, c)
  {
  }

  lemma StepKeeps(w: World, e: Event)
    requires Inv(w)
    ensures Inv(Step(w, e)) && Grows(w.core, Step(w, e).core)
  {
    GrowsReflexive(w.core);
    if Enabled(w, e) {
      match e
      case BeginRefresh(r, raw) => BeginKeeps(w, Step(w, e), r, AtLookup(raw));
      case BeginLogout(r, raw) => BeginKeeps(w, Step(w, e), r, AtLogoutLookup(raw));
      case BeginLogin(r, user) => BeginKeeps(w, Step(w, e), r, AtLoginMint(user));
      case Act(r) => ActKeeps(w, r);
      case Fault(r, applied) => FaultStepKeeps(w, r, applied);
      case Lose(r) => LoseKeeps(w, Step(w, e), r);
      case Tick(d) => TickStepKeeps(w, Step(w, e), w.core.now + d);
    }
  }

  // ---------- whole runs ----------

  lemma {:induction false} RunKeeps(w: World, run: seq<Event>)
    requires Inv(w)
    ensures Inv(Run(w, run)) && Grows(w.core, Run(w, run).core)
    decreases |run|
  {
    if run != [] {
      StepKeeps(w, run[0]);
      RunKeeps(Step(w, run[0]), run[1..]);
      GrowsTransitive(w.core, Step(w, run[0]).core, Run(w, run).core);
    }
  }

  lemma ReachableInv(w: World)
    requires Reachable(w)
    ensures Inv(w)
  {
    var users, now, ttl, run :| w == Run(Init(users, now, ttl), run);
    RunKeeps(Init(users, now, ttl), run);
  }

  // ---------- one linear chain per family ----------

  // A token a refresh would still accept.
  ghost predicate Usable(c: Core, id: TokenId) {
    Committed(c, id) && id in c.rows && !c.rows[id].consumed && c.now <= c.rows[id].expires
  }

  // In a family that was never revoked the committed tokens form one replaced_by chain from the
  // login root. Rows held by requests in flight are not part of it, and no client has seen them.
  lemma LinearChain(w: World, f: FamilyId)
    requires Reachable(w) && f in w.core.chains && f !in w.core.revoked
    ensures var c, chain := w.core, w.core.chains[f];
      && chain != []
      && (forall i, j :: 0 <= i < j < |chain| ==> chain[i] != chain[j])
      && (!c.faulted ==> forall i :: 0 <= i < |chain| ==> chain[i] in c.rows)
      && (forall i :: 0 <= i < |chain| && chain[i] in c.rows ==>
            && c.rows[chain[i]].family == f
            && (c.rows[chain[i]].consumed <==> i + 1 < |chain|)
            && c.rows[chain[i]].replacedBy == SuccessorIn(chain, i))
      && (forall id :: id in c.rows && c.rows[id].family == f && id !in chain ==>
            !c.rows[id].consumed && c.rows[id].replacedBy == None && Minted(id) !in c.delivered)
  {
    ReachableInv(w);
    assert ChainOk(w.core, f, w.core.chains[f]) && Linked(w.core.rows, w.core.chains[f]);
    assert !w.core.faulted ==> Present(w.core.rows, w.core.chains[f]);
    var c, chain := w.core, w.core.chains[f];
    forall i | 0 <= i < |chain| && chain[i] in c.rows
      ensures c.rows[chain[i]].family == f && (c.rows[chain[i]].consumed <==> i + 1 < |chain|)
      ensures c.rows[chain[i]].replacedBy == SuccessorIn(chain, i)
    {
      assert c.minted[chain[i]] == f;
    }
    forall id | id in w.core.rows && w.core.rows[id].family == f && id !in w.core.chains[f]
      ensures !Committed(w.core, id) && Minted(id) !in w.core.delivered
    {
    }
  }

  // Even with failing store calls a family never has two usable tokens.
  lemma OneUsableToken(w: World, a: TokenId, b: TokenId)
    requires Reachable(w) && Usable(w.core, a) && Usable(w.core, b)
    requires w.core.rows[a].family == w.core.rows[b].family
    ensures a == b && w.core.rows[a].family !in w.core.revoked
  {
    ReachableInv(w);
    var f := w.core.minted[a];
    var chain := w.core.chains[f];
    assert Linked(w.core.rows, chain);
    var i :| 0 <= i < |chain| && chain[i] == a;
    var j :| 0 <= j < |chain| && chain[j] == b;
    assert i == |chain| - 1 && j == |chain| - 1;
    assert w.core.rows[a].family == f;
    assert f in w.core.revoked ==> Absent(w.core.rows, chain);
  }

  // ---------- revocation is final ----------

  lemma NoLateWin(w: World, e: Event, f: FamilyId, r: RequestId)
    requires Inv(w) && f in w.core.revoked
    requires r in Step(w, e).reqs && Won(Step(w, e).reqs[r]) && WonToken(Step(w, e).reqs[r]).family == f
    ensures r in w.reqs && Won(w.reqs[r]) && WonToken(w.reqs[r]).family == f
  {
    if e.Act? && e.r == r && Enabled(w, e) && w.reqs[r].AtConsume? && CanConsume(w.core.rows, w.reqs[r].tok.id) {
      assert PcOk(w.core, w.reqs[r]);
      ConsumableIsLast(w.core, w.reqs[r].tok);
    }
  }

  lemma {:induction false} NoLateWins(w: World, run: seq<Event>, f: FamilyId, r: RequestId)
    requires Inv(w) && f in w.core.revoked
    requires var v := Run(w, run); r in v.reqs && Won(v.reqs[r]) && WonToken(v.reqs[r]).family == f
    ensures r in w.reqs && Won(w.reqs[r]) && WonToken(w.reqs[r]).family == f
    decreases |run|
  {
    if run != [] {
      StepKeeps(w, run[0]);
      NoLateWins(Step(w, run[0]), run[1..], f, r);
      NoLateWin(w, run[0], f, r);
    }
  }

  // Whatever happens after a family was revoked, with any number of requests still in flight: no
  // consume on it succeeds, no request obtains a new pair from it, and a row inserted into it
  // afterwards is uncommitted and unknown to every client.
  lemma RevocationIsFinal(w: World, run: seq<Event>, f: FamilyId)
    requires Reachable(w) && f in w.core.revoked
    ensures var v := Run(w, run);
      && f in v.core.revoked
      && ChainOf(v.core, f) == ChainOf(w.core, f)
      && (forall id :: id in v.core.rows && v.core.rows[id].family == f ==>
            !Committed(v.core, id) && !Usable(v.core, id) && Minted(id) !in v.core.delivered)
      && (forall r :: r in v.reqs && v.reqs[r].AtConsume? && v.reqs[r].tok.family == f ==>
            Next(v.core, v.reqs[r]) == AtRevokeRace(v.reqs[r].tok))
      && (forall r :: r in v.reqs && Won(v.reqs[r]) && WonToken(v.reqs[r]).family == f ==>
            r in w.reqs && Won(w.reqs[r]))
  {
    ReachableInv(w);
    RunKeeps(w, run);
    var v := Run(w, run);
    assert Absent(v.core.rows, v.core.chains[f]);
    forall r | r in v.reqs && v.reqs[r].AtConsume? && v.reqs[r].tok.family == f
      ensures Next(v.core, v.reqs[r]) == AtRevokeRace(v.reqs[r].tok)
    {
      assert PcOk(v.core, v.reqs[r]);
    }
    forall r | r in v.reqs && Won(v.reqs[r]) && WonToken(v.reqs[r]).family == f
      ensures r in w.reqs && Won(w.reqs[r])
    {
      NoLateWins(w, run, f, r);
    }
  }

  // ---------- reuse is detected ----------

  // Over a whole run at most one request obtains a new pair for one token, store faults included.
  lemma OneSuccessPerToken(w: World, r: RequestId, q: RequestId)
    requires Reachable(w) && r in w.reqs && q in w.reqs && r != q
    requires Won(w.reqs[r]) && Won(w.reqs[q])
    ensures WonToken(w.reqs[r]).id != WonToken(w.reqs[q]).id
  {
    ReachableInv(w);
    assert Apart(w.reqs[r], w.reqs[q]);
  }

  // What the client was told is what happened: a 200 carries the recorded successor of the token
  // presented, and a reuse verdict whose revocation was confirmed means the family is gone.
  lemma ResponseIsTruthful(w: World, r: RequestId, tok: Token)
    requires Reachable(w) && r in w.reqs && w.reqs[r].Done?
    ensures forall heir :: w.reqs[r].result == Rotated(tok, heir) ==>
      && Committed(w.core, tok.id) && Committed(w.core, heir)
      && w.core.minted[tok.id] == w.core.minted[heir] == tok.family
      && Minted(heir) in w.core.delivered
      && (tok.id in w.core.rows ==> w.core.rows[tok.id].replacedBy == Some(heir))
    ensures w.reqs[r].result == ReuseDetected(tok, true) ==> FamilyIsGone(w.core, tok.family)
  {
    ReachableInv(w);
    assert PcOk(w.core, w.reqs[r]);
    if w.reqs[r].result == ReuseDetected(tok, true) {
      assert Absent(w.core.rows, w.core.chains[tok.family]);
    }
  }

  // Revoked, and nothing of it can be used.
  ghost predicate FamilyIsGone(c: Core, f: FamilyId) {
    f in c.revoked && forall id :: id in c.rows && c.rows[id].family == f ==> !Usable(c, id)
  }

  // No store call of request r failed.
  predicate Unfaulted(run: seq<Event>, r: RequestId) {
    forall i :: 0 <= i < |run| && run[i].Fault? ==> run[i].r != r
  }

  predicate Unconfirmed(w: World, r: RequestId) {
    r in w.reqs && w.reqs[r].Done? && w.reqs[r].result.ReuseDetected? && !w.reqs[r].result.confirmed
  }

  lemma {:induction false} ConfirmedUnlessFaulted(w: World, run: seq<Event>, r: RequestId)
    requires !Unconfirmed(w, r) && Unfaulted(run, r)
    ensures !Unconfirmed(Run(w, run), r)
    decreases |run|
  {
    if run != [] {
      assert run[0].Fault? ==> run[0].r != r;
      ConfirmedUnlessFaulted(Step(w, run[0]), run[1..], r);
    }
  }

  // So a reuse verdict can be believed unless a store call of that very request failed; whatever failed
  // for others does not matter.
  lemma ReuseVerdictHolds(users: set<UserId>, now: int, ttl: int, run: seq<Event>, r: RequestId)
    requires Unfaulted(run, r)
    requires var w := Run(Init(users, now, ttl), run);
      r in w.reqs && w.reqs[r].Done? && w.reqs[r].result.ReuseDetected?
    ensures var w := Run(Init(users, now, ttl), run); FamilyIsGone(w.core, w.reqs[r].result.tok.family)
  {
    var w := Run(Init(users, now, ttl), run);
    ConfirmedUnlessFaulted(Init(users, now, ttl), run, r);
    ResponseIsTruthful(w, r, w.reqs[r].result.tok);
  }

  // The request presented token id and has reached the reuse branch or mintPair, and no revocation of
  // its own has failed.
  predicate Engaged(pc: Pc, id: TokenId) {
    match pc
    case AtMint(tok) => tok.id == id
    case AtConsume(tok, _) => tok.id == id
    case AtRevokeReuse(tok) => tok.id == id
    case AtRevokeRace(tok) => tok.id == id
    case AtRespond(tok, _) => tok.id == id
    case Done(Rotated(tok, _)) => tok.id == id
    case Done(Lost(tok, _)) => tok.id == id
    case Done(ReuseDetected(tok, confirmed)) => tok.id == id && confirmed
    case _ => false
  }

  lemma EngagedNext(c: Core, pc: Pc, id: TokenId)
    requires Engaged(pc, id)
    ensures Engaged(Next(c, pc), id) && Engaged(OnLoss(pc), id)
  {
  }

  lemma EngagedStep(w: World, e: Event, r: RequestId, id: TokenId)
    requires r in w.reqs && Engaged(w.reqs[r], id) && (e.Fault? ==> e.r != r)
    ensures r in Step(w, e).reqs && Engaged(Step(w, e).reqs[r], id)
  {
    EngagedNext(w.core, w.reqs[r], id);
  }

  lemma {:induction false} EngagedStays(w: World, run: seq<Event>, r: RequestId, id: TokenId)
    requires r in w.reqs && Engaged(w.reqs[r], id) && Unfaulted(run, r)
    ensures r in Run(w, run).reqs && Engaged(Run(w, run).reqs[r], id)
    decreases |run|
  {
    if run != [] {
      EngagedStep(w, run[0], r, id);
      EngagedStays(Step(w, run[0]), run[1..], r, id);
    }
  }

  // Two requests that both got past the checks with the same token: once both have finished, and no
  // store call of these two has failed, the family is revoked and holds no usable token, whatever else
  // was refreshed, or failed, in between.
  lemma DoubleUseRevokes(w: World, run: seq<Event>, r: RequestId, q: RequestId, id: TokenId)
    requires Reachable(w) && r in w.reqs && q in w.reqs && r != q
    requires Engaged(w.reqs[r], id) && Engaged(w.reqs[q], id)
    requires Unfaulted(run, r) && Unfaulted(run, q)
    requires r in Run(w, run).reqs && q in Run(w, run).reqs
    requires Run(w, run).reqs[r].Done? && Run(w, run).reqs[q].Done?
    ensures var v := Run(w, run); id in v.core.minted && FamilyIsGone(v.core, v.core.minted[id])
  {
    ReachableInv(w);
    RunKeeps(w, run);
    var v := Run(w, run);
    EngagedStays(w, run, r, id);
    EngagedStays(w, run, q, id);
    assert Apart(v.reqs[r], v.reqs[q]);
    assert PcOk(v.core, v.reqs[r]) && PcOk(v.core, v.reqs[q]);
    assert Absent(v.core.rows, v.core.chains[v.core.minted[id]]);
  }
}
