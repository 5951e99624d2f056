/** A token nobody has been told yet cannot be used, by anyone. */
module RotationSecrecy {
  import opened Outcomes
  import opened RefreshStore
  import opened Rotation
  import opened RotationInvariant
  import opened RotationTheorems

  // The request works on token id, or on the family f.
  predicate Knows(pc: Pc, id: TokenId, f: FamilyId) {
    match pc
    case AtLookup(raw) => raw == Minted(id)
    case AtCheck(tok) => tok.id == id
    case AtLoadUser(tok) => tok.id == id
    case AtMint(tok) => tok.id == id
    case AtConsume(tok, heir) => tok.id == id || heir == id
    case AtRevokeReuse(tok) => tok.id == id
    case AtRevokeRace(tok) => tok.id == id
    case AtRespond(tok, heir) => tok.id == id || heir == id
    case AtLogoutLookup(raw) => raw == Minted(id)
    case AtLogoutFamily(raw, family) => raw == Minted(id) || family == f
    case AtLogoutToken(raw) => raw == Minted(id)
    case AtLoginMint(_) => false
    case AtLoginRespond(heir) => heir == id
    case Done(ReuseDetected(tok, _)) => tok.id == id
    case Done(_) => false
  }

  // A family of one token, alive, unconsumed and not yet delivered.
  ghost predicate Pristine(c: Core, id: TokenId) {
    && id in c.minted && c.minted[id] == id && ChainOf(c, id) == [id] && id !in c.revoked
    && Minted(id) !in c.delivered && CanConsume(c.rows, id) && c.rows[id].family == id
  }

  // Only request r works on it.
  ghost predicate Secret(w: World, r: RequestId, id: TokenId) {
    Pristine(w.core, id) && forall q :: q in w.reqs && q != r ==> !Knows(w.reqs[q], id, id)
  }

  // No request works on it.
  ghost predicate Unheard(w: World, id: TokenId) {
    forall q :: q in w.reqs ==> !Knows(w.reqs[q], id, id)
  }

  lemma FamilyHasOne(c: Core, tok: Token, id: TokenId)
    requires Pristine(c, id) && TokenOk(c, tok) && tok.id != id
    ensures tok.family != id
  {
  }

  lemma EffectSpares(c: Core, pc: Pc, id: TokenId)
    requires CoreInv(c) && PcOk(c, pc) && Pristine(c, id) && !Knows(pc, id, id)
    ensures Pristine(Effect(c, pc), id)
  {
    NextUnused(c);
    if pc.AtRevokeReuse? || pc.AtRevokeRace? || pc.AtConsume? {
      FamilyHasOne(c, pc.tok, id);
    }
  }

  lemma LookupSpares(c: Core, raw: Raw, id: TokenId)
    requires CoreInv(c) && Presentable(c, raw) && Pristine(c, id) && raw != Minted(id)
    ensures var r := Lookup(c.rows, HashRefresh(raw)); r.Some? ==> r.value.id != id && r.value.family != id
  {
    FoundIsPresented(c, raw);
    var r := Lookup(c.rows, HashRefresh(raw));
    if r.Some? {
      FamilyHasOne(c, r.value, id);
    }
  }

  lemma StaysUnaware(c: Core, pc: Pc, id: TokenId)
    requires !Knows(pc, id, id) && id != c.next
    requires pc.AtLookup? || pc.AtLogoutLookup? ==>
      var r := Lookup(c.rows, HashRefresh(pc.raw)); r.Some? ==> r.value.id != id && r.value.family != id
    ensures !Knows(Next(c, pc), id, id)
  {
  }

  lemma NextUnaware(c: Core, pc: Pc, id: TokenId)
    requires CoreInv(c) && PcOk(c, pc) && Pristine(c, id) && !Knows(pc, id, id)
    ensures !Knows(Next(c, pc), id, id)
  {
    NextUnused(c);
    if pc.AtLookup? || pc.AtLogoutLookup? {
      LookupSpares(c, pc.raw, id);
    }
    StaysUnaware(c, pc, id);
  }

  lemma ActKeepsSecret(w: World, q: RequestId, r: RequestId, id: TokenId)
    requires Inv(w) && Secret(w, r, id) && q != r && Enabled(w, Act(q))
    ensures Secret(Step(w, Act(q)), r, id)
  {
    EffectSpares(w.core, w.reqs[q], id);
    NextUnaware(w.core, w.reqs[q], id);
    StaysSecret(w, Step(w, Act(q)), q, r, id);
  }

  lemma FaultKeepsSecret(w: World, q: RequestId, applied: bool, r: RequestId, id: TokenId)
    requires Inv(w) && Secret(w, r, id) && q != r && Enabled(w, Fault(q, applied))
    ensures Secret(Step(w, Fault(q, applied)), r, id)
  {
    var c := if applied then Effect(w.core, w.reqs[q]) else w.core;
    EffectSpares(w.core, w.reqs[q], id);
    AbortsUnaware(w.reqs[q], id);
    StaysSecret(w, World(c.(faulted := true), w.reqs[q := OnFault(w.reqs[q])]), q, r, id);
  }

  lemma AbortsUnaware(pc: Pc, id: TokenId)
    requires !Knows(pc, id, id)
    ensures !Knows(OnFault(pc), id, id)
  {
  }

  lemma StaysSecret(w: World, v: World, q: RequestId, r: RequestId, id: TokenId)
    requires Secret(w, r, id) && q != r && q in v.reqs && v.reqs == w.reqs[q := v.reqs[q]]
    requires !Knows(v.reqs[q], id, id) && Pristine(v.core, id)
    ensures Secret(v, r, id)
  {
  }

  // Nobody can present the string of a secret token.
  lemma BeginKeepsSecret(w: World, q: RequestId, pc: Pc, r: RequestId, id: TokenId)
    requires Secret(w, r, id) && q != r
    requires match pc
      case AtLookup(raw) => Presentable(w.core, raw)
      case AtLogoutLookup(raw) => Presentable(w.core, raw)
      case AtLoginMint(_) => true
      case _ => false
    ensures Secret(World(w.core, w.reqs[q := pc]), r, id)
  {
    StaysSecret(w, World(w.core, w.reqs[q := pc]), q, r, id);
  }

  lemma LossKeepsSecret(w: World, q: RequestId, r: RequestId, id: TokenId)
    requires Secret(w, r, id) && q != r && q in w.reqs
    ensures Secret(World(w.core, w.reqs[q := OnLoss(w.reqs[q])]), r, id)
  {
    StaysSecret(w, World(w.core, w.reqs[q := OnLoss(w.reqs[q])]), q, r, id);
  }

  lemma SecretStays(w: World, e: Event, r: RequestId, id: TokenId)
    requires Inv(w) && Secret(w, r, id) && (e.Tick? || e.r != r)
    ensures Secret(Step(w, e), r, id)
  {
    if Enabled(w, e) {
      match e
      case BeginRefresh(q, raw) => BeginKeepsSecret(w, q, AtLookup(raw), r, id);
      case BeginLogout(q, raw) => BeginKeepsSecret(w, q, AtLogoutLookup(raw), r, id);
      case BeginLogin(q, user) => BeginKeepsSecret(w, q, AtLoginMint(user), r, id);
      case Act(q) => ActKeepsSecret(w, q, r, id);
      case Fault(q, applied) => FaultKeepsSecret(w, q, applied, r, id);
      case Lose(q) => LossKeepsSecret(w, q, r, id);
      case Tick(d) => assert Pristine(w.core.(now := w.core.now + d), id);
    }
  }

  // As long as one request keeps the string to itself, nothing the others do touches the family.
  lemma {:induction false} SecretIsSafe(w: World, run: seq<Event>, r: RequestId, id: TokenId)
    requires Inv(w) && Secret(w, r, id) && forall i :: 0 <= i < |run| ==> run[i].Tick? || run[i].r != r
    ensures Secret(Run(w, run), r, id)
    decreases |run|
  {
    if run != [] {
      StepKeeps(w, run[0]);
      SecretStays(w, run[0], r, id);
      SecretIsSafe(Step(w, run[0]), run[1..], r, id);
    }
  }

  // A family that has just been started is secret.
  lemma NewFamilyIsSecret(w: World, r: RequestId)
    requires Inv(w) && r in w.reqs && w.reqs[r].AtLoginMint?
    ensures w.core.next !in w.core.chains
    ensures Secret(Step(w, Act(r)), r, w.core.next)
  {
    NextUnused(w.core);
    forall q | q in w.reqs && q != r ensures !Knows(w.reqs[q], w.core.next, w.core.next) {
      assert PcOk(w.core, w.reqs[q]);
      NobodyKnowsNext(w.core, w.reqs[q]);
    }
  }

  lemma NobodyKnowsNext(c: Core, pc: Pc)
    requires CoreInv(c) && PcOk(c, pc)
    ensures !Knows(pc, c.next, c.next)
  {
    NextUnused(c);
  }
}
