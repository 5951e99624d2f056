/** The inductive invariant of the rotation protocol, and what every run only ever extends. */
module RotationInvariant {
  import opened Outcomes
  import opened RefreshStore
  import opened Rotation

  // A login root, or the successor recorded by a consume that succeeded.
  ghost predicate Committed(c: Core, id: TokenId) {
    id in c.minted && id in ChainOf(c, c.minted[id])
  }

  // No consume of this row can succeed.
  ghost predicate Spent(c: Core, id: TokenId) {
    id in c.rows ==> c.rows[id].consumed
  }

  // The row, if it is still there, was consumed in favour of heir.
  ghost predicate ReplacedBy(c: Core, id: TokenId, heir: TokenId) {
    id in c.rows ==> c.rows[id].consumed && c.rows[id].replacedBy == Some(heir)
  }

  // ---------- the shared state ----------

  ghost predicate MintedOk(c: Core) {
    forall id :: id in c.minted ==> id < c.next && c.minted[id] in c.chains
  }

  ghost predicate RowsOk(c: Core) {
    forall id :: id in c.rows ==>
      id in c.minted && c.rows[id].family == c.minted[id] && c.rows[id].hash == HashRefresh(Minted(id))
  }

  ghost predicate ChainOk(c: Core, family: FamilyId, chain: seq<TokenId>) {
    && chain != []
    && (forall i :: 0 <= i < |chain| ==> chain[i] in c.minted && c.minted[chain[i]] == family)
    && (forall i, j :: 0 <= i < j < |chain| ==> chain[i] != chain[j])
  }

  ghost predicate ChainsOk(c: Core) {
    forall f :: f in c.chains ==> f < c.next && ChainOk(c, f, c.chains[f])
  }

  function SuccessorIn(chain: seq<TokenId>, i: nat): Option<TokenId> {
    if i + 1 < |chain| then Some(chain[i + 1]) else None
  }

  // Every row still in the table points at its successor in the chain, and only the last is live.
  ghost predicate Linked(t: Table, chain: seq<TokenId>) {
    forall i :: 0 <= i < |chain| && chain[i] in t ==>
      && t[chain[i]].consumed == (i + 1 < |chain|)
      && t[chain[i]].replacedBy == SuccessorIn(chain, i)
  }

  ghost predicate LinksOk(c: Core) {
    forall f :: f in c.chains ==> Linked(c.rows, c.chains[f])
  }

  ghost predicate DeliveredOk(c: Core) {
    forall raw :: raw in c.delivered ==> raw.Minted? && Committed(c, raw.serial)
  }

  ghost predicate Absent(t: Table, chain: seq<TokenId>) {
    forall i :: 0 <= i < |chain| ==> chain[i] !in t
  }

  ghost predicate Present(t: Table, chain: seq<TokenId>) {
    forall i :: 0 <= i < |chain| ==> chain[i] in t
  }

  ghost predicate RevokedOk(c: Core) {
    forall f :: f in c.revoked ==> f in c.chains && Absent(c.rows, c.chains[f])
  }

  ghost predicate KeptOk(c: Core) {
    !c.faulted ==> forall f :: f in c.chains && f !in c.revoked ==> Present(c.rows, c.chains[f])
  }

  // A row inserted but never committed is untouched.
  ghost predicate SparesOk(c: Core) {
    forall id :: id in c.rows && !Committed(c, id) ==> !c.rows[id].consumed && c.rows[id].replacedBy == None
  }

  ghost predicate CoreInv(c: Core) {
    && MintedOk(c) && RowsOk(c) && ChainsOk(c) && LinksOk(c)
    && DeliveredOk(c) && RevokedOk(c) && KeptOk(c) && SparesOk(c)
  }

  // ---------- the requests ----------

  ghost predicate TokenOk(c: Core, tok: Token) {
    && Committed(c, tok.id)
    && c.minted[tok.id] == tok.family
    && (tok.consumed ==> Spent(c, tok.id))
  }

  // The request consumed tok in favour of heir.
  ghost predicate Paired(c: Core, tok: Token, heir: TokenId) {
    && TokenOk(c, tok)
    && ReplacedBy(c, tok.id, heir)
    && Committed(c, heir)
    && c.minted[heir] == tok.family
  }

  ghost predicate PcOk(c: Core, pc: Pc) {
    match pc
    case AtLookup(raw) => Presentable(c, raw)
    case AtCheck(tok) => TokenOk(c, tok)
    case AtLoadUser(tok) => TokenOk(c, tok)
    case AtMint(tok) => TokenOk(c, tok)
    case AtConsume(tok, heir) =>
      && TokenOk(c, tok) && heir in c.minted && c.minted[heir] == tok.family && !Committed(c, heir)
      && (!c.faulted && tok.family !in c.revoked ==> heir in c.rows)
    case AtRevokeReuse(tok) => TokenOk(c, tok)
    case AtRevokeRace(tok) => TokenOk(c, tok)
    case AtRespond(tok, heir) => Paired(c, tok, heir)
    case AtLogoutLookup(raw) => Presentable(c, raw)
    case AtLogoutFamily(raw, family) =>
      && Presentable(c, raw) && family in c.chains
      && (raw.Minted? ==> raw.serial in c.minted && c.minted[raw.serial] == family)
    case AtLogoutToken(raw) =>
      Presentable(c, raw) && (!c.faulted && raw.Minted? ==> raw.serial !in c.rows)
    case AtLoginMint(_) => true
    case AtLoginRespond(heir) => Committed(c, heir)
    case Done(Rotated(tok, heir)) => Paired(c, tok, heir) && Minted(heir) in c.delivered
    case Done(Lost(tok, heir)) => Paired(c, tok, heir)
    case Done(ReuseDetected(tok, confirmed)) => TokenOk(c, tok) && (confirmed ==> tok.family in c.revoked)
    case Done(_) => true
  }

  // The request's consume succeeded.
  predicate Won(pc: Pc) {
    pc.AtRespond? || (pc.Done? && (pc.result.Rotated? || pc.result.Lost?))
  }

  function WonToken(pc: Pc): Token
    requires Won(pc)
  {
    if pc.AtRespond? then pc.tok else pc.result.tok
  }

  // Two requests never hold the same new row, and never both consume the same token.
  ghost predicate Apart(p: Pc, q: Pc) {
    && (p.AtConsume? && q.AtConsume? ==> p.heir != q.heir)
    && (Won(p) && Won(q) ==> WonToken(p).id != WonToken(q).id)
  }

  ghost predicate Inv(w: World) {
    && CoreInv(w.core)
    && (forall r :: r in w.reqs ==> PcOk(w.core, w.reqs[r]))
    && (forall r, q :: r in w.reqs && q in w.reqs && r != q ==> Apart(w.reqs[r], w.reqs[q]))
  }

  // ---------- what only grows ----------

  ghost predicate Grows(c: Core, d: Core) {
    && c.next <= d.next
    && (forall id :: id in c.minted ==> id in d.minted && d.minted[id] == c.minted[id])
    && (forall f :: f in c.chains ==> f in d.chains && c.chains[f] <= d.chains[f])
    && (forall f :: f in c.revoked ==> f in d.revoked && ChainOf(d, f) == ChainOf(c, f))
    && c.delivered <= d.delivered
    && (c.faulted ==> d.faulted)
    && (forall id :: id in c.minted && id !in c.rows ==> id !in d.rows)
    && (forall id :: id in c.minted && Spent(c, id) ==> Spent(d, id))
    && (forall id :: id in c.rows && c.rows[id].consumed && id in d.rows ==> d.rows[id] == c.rows[id])
  }

  lemma GrowsTransitive(c: Core, d: Core, e: Core)
    requires RowsOk(c) && Grows(c, d) && Grows(d, e)
    ensures Grows(c, e)
  {
    forall id | id in c.rows && c.rows[id].consumed && id in e.rows
      ensures e.rows[id] == c.rows[id]
    {
      assert Spent(c, id) && id in c.minted;
      assert id in d.rows;
    }
    forall f | f in c.chains
      ensures f in e.chains && c.chains[f] <= e.chains[f]
    {
      assert c.chains[f] <= d.chains[f] <= e.chains[f];
    }
  }

  lemma HashesUnique(c: Core)
    requires RowsOk(c)
    ensures UniqueHashes(c.rows)
  {
  }

  lemma CommittedGrows(c: Core, d: Core, id: TokenId)
    requires Grows(c, d) && MintedOk(c) && Committed(c, id)
    ensures Committed(d, id) && d.minted[id] == c.minted[id]
  {
    var f := c.minted[id];
    assert c.chains[f] <= d.chains[f];
  }

  // ---------- each effect keeps the invariant ----------

  // Inserting a row that no chain mentions leaves every chain as it was.
  lemma ChainUntouched(c: Core, d: Core, family: FamilyId, chain: seq<TokenId>)
    requires ChainOk(c, family, chain) && Linked(c.rows, chain)
    requires forall i :: 0 <= i < |chain| ==> chain[i] in d.minted && d.minted[chain[i]] == family
    requires forall i :: 0 <= i < |chain| && chain[i] in d.rows ==>
      chain[i] in c.rows && d.rows[chain[i]] == c.rows[chain[i]]
    ensures ChainOk(d, family, chain) && Linked(d.rows, chain)
  {
  }

  lemma NextUnused(c: Core)
    requires CoreInv(c)
    ensures c.next !in c.minted && c.next !in c.rows && c.next !in c.chains
    ensures forall f :: f in c.chains ==> c.next !in c.chains[f]
  {
    forall f | f in c.chains ensures c.next !in c.chains[f] {
      assert ChainOk(c, f, c.chains[f]);
    }
  }

  lemma MintKeepsChains(c: Core, d: Core, user: UserId, family: FamilyId)
    requires CoreInv(c) && d == Mint(c, user, family)
    ensures forall f :: f in c.chains ==> ChainOk(d, f, c.chains[f]) && Linked(d.rows, c.chains[f])
  {
    NextUnused(c);
    forall f | f in c.chains ensures ChainOk(d, f, c.chains[f]) && Linked(d.rows, c.chains[f]) {
      assert ChainOk(c, f, c.chains[f]) && Linked(c.rows, c.chains[f]);
      ChainUntouched(c, d, f, c.chains[f]);
    }
  }

  lemma MintCommits(c: Core, user: UserId, family: FamilyId)
    requires CoreInv(c) && family in c.chains
    ensures forall id :: Committed(Mint(c, user, family), id) <==> Committed(c, id)
  {
    NextUnused(c);
  }

  lemma MintGrows(c: Core, user: UserId, family: FamilyId)
    requires MintedOk(c) && RowsOk(c)
    ensures Grows(c, Mint(c, user, family))
  {
  }

  // The rows of revoked families stay absent and those of live families stay present.
  lemma MintKeepsPresence(c: Core, d: Core, user: UserId, family: FamilyId)
    requires CoreInv(c) && d == Mint(c, user, family)
    ensures RevokedOk(d) && KeptOk(d)
  {
    NextUnused(c);
    forall f | f in d.revoked ensures Absent(d.rows, d.chains[f]) {
      assert Absent(c.rows, c.chains[f]);
    }
    forall f | !d.faulted && f in d.chains && f !in d.revoked ensures Present(d.rows, d.chains[f]) {
      assert Present(c.rows, c.chains[f]);
    }
  }

  lemma MintKeeps(c: Core, user: UserId, family: FamilyId)
    requires CoreInv(c) && family in c.chains
    ensures CoreInv(Mint(c, user, family))
  {
    var d := Mint(c, user, family);
    MintKeepsChains(c, d, user, family);
    MintKeepsPresence(c, d, user, family);
    MintCommits(c, user, family);
  }

  lemma StartFamilyCommits(c: Core, user: UserId)
    requires CoreInv(c)
    ensures forall id :: Committed(StartFamily(c, user), id) <==> Committed(c, id) || id == c.next
  {
    NextUnused(c);
    assert StartFamily(c, user).chains[c.next] == [c.next];
  }

  lemma StartFamilyGrows(c: Core, user: UserId)
    requires CoreInv(c)
    ensures Grows(c, StartFamily(c, user))
  {
    NextUnused(c);
  }

  lemma StartFamilyKeepsChains(c: Core, d: Core, user: UserId)
    requires CoreInv(c) && d == StartFamily(c, user)
    ensures ChainsOk(d) && LinksOk(d) && RevokedOk(d) && KeptOk(d)
  {
    var m := Mint(c, user, c.next);
    NextUnused(c);
    MintKeepsChains(c, m, user, c.next);
    MintKeepsPresence(c, m, user, c.next);
    assert d.chains[c.next] == [c.next];
    forall f | f in d.chains ensures ChainOk(d, f, d.chains[f]) && Linked(d.rows, d.chains[f]) {
      assert f != c.next ==> ChainOk(m, f, c.chains[f]) && Linked(m.rows, c.chains[f]);
    }
  }

  lemma StartFamilyKeeps(c: Core, user: UserId)
    requires CoreInv(c)
    ensures CoreInv(StartFamily(c, user))
  {
    StartFamilyKeepsChains(c, StartFamily(c, user), user);
    StartFamilyCommits(c, user);
  }

  lemma RevokeKeeps(c: Core, family: FamilyId)
    requires CoreInv(c) && family in c.chains
    ensures CoreInv(Revoke(c, family)) && Grows(c, Revoke(c, family))
  {
    var d := Revoke(c, family);
    forall f | f in d.chains && f !in d.revoked && !d.faulted ensures Present(d.rows, d.chains[f]) {
      assert Present(c.rows, c.chains[f]) && ChainOk(c, f, c.chains[f]);
    }
    assert ChainOk(c, family, c.chains[family]);
    FewerRowsKeep(c, d);
  }

  lemma DeliverKeeps(c: Core, heir: TokenId)
    requires CoreInv(c) && Committed(c, heir)
    ensures CoreInv(Deliver(c, heir)) && Grows(c, Deliver(c, heir))
  {
  }

  lemma ForgetTokenKeeps(c: Core, raw: Raw)
    requires CoreInv(c) && PcOk(c, AtLogoutToken(raw))
    ensures CoreInv(c.(rows := WithoutHash(c.rows, HashRefresh(raw))))
    ensures Grows(c, c.(rows := WithoutHash(c.rows, HashRefresh(raw))))
  {
    var d := c.(rows := WithoutHash(c.rows, HashRefresh(raw)));
    if !c.faulted {
      assert d.rows == c.rows;
      assert d == c;
    } else {
      FewerRowsKeep(c, d);
    }
  }

  // Deleting rows can only hurt the promise that live families are complete.
  lemma FewerRowsKeep(c: Core, d: Core)
    requires CoreInv(c) && d == c.(rows := d.rows, revoked := d.revoked)
    requires forall id :: id in d.rows ==> id in c.rows && d.rows[id] == c.rows[id]
    requires RevokedOk(d) && KeptOk(d)
    ensures CoreInv(d)
  {
    forall f | f in d.chains ensures ChainOk(d, f, d.chains[f]) && Linked(d.rows, d.chains[f]) {
      assert ChainOk(c, f, c.chains[f]) && Linked(c.rows, c.chains[f]);
    }
    assert forall id :: Committed(d, id) <==> Committed(c, id);
  }

  // A token that can be consumed is the last of the chain of a family that is not revoked.
  lemma ConsumableIsLast(c: Core, tok: Token)
    requires CoreInv(c) && TokenOk(c, tok) && CanConsume(c.rows, tok.id)
    ensures tok.family !in c.revoked
    ensures tok.id == c.chains[tok.family][|c.chains[tok.family]| - 1]
  {
    var chain := c.chains[tok.family];
    var k :| 0 <= k < |chain| && chain[k] == tok.id;
    assert Linked(c.rows, chain);
    assert tok.family in c.revoked ==> Absent(c.rows, chain);
  }

  lemma CommitCommits(c: Core, tok: Token, heir: TokenId)
    requires CoreInv(c) && PcOk(c, AtConsume(tok, heir))
    ensures Spent(Commit(c, tok, heir), tok.id)
    ensures CanConsume(c.rows, tok.id) ==> ReplacedBy(Commit(c, tok, heir), tok.id, heir)
    ensures CanConsume(c.rows, tok.id) ==>
      forall id :: Committed(Commit(c, tok, heir), id) <==> Committed(c, id) || id == heir
  {
    var d := Commit(c, tok, heir);
    if CanConsume(c.rows, tok.id) {
      assert d.chains[tok.family] == c.chains[tok.family] + [heir];
      assert d.chains[tok.family][|c.chains[tok.family]|] == heir;
    }
  }

  lemma CommitGrowsChains(c: Core, d: Core, tok: Token, heir: TokenId)
    requires tok.family in c.chains && tok.family !in c.revoked && CanConsume(c.rows, tok.id)
    requires d == Commit(c, tok, heir)
    ensures forall f :: f in c.chains ==> f in d.chains && c.chains[f] <= d.chains[f]
    ensures forall f :: f in c.revoked ==> ChainOf(d, f) == ChainOf(c, f)
  {
    assert d.chains[tok.family] == c.chains[tok.family] + [heir];
  }

  lemma CommitGrows(c: Core, tok: Token, heir: TokenId)
    requires CoreInv(c) && PcOk(c, AtConsume(tok, heir))
    ensures Grows(c, Commit(c, tok, heir))
  {
    if CanConsume(c.rows, tok.id) {
      ConsumableIsLast(c, tok);
      CommitGrowsChains(c, Commit(c, tok, heir), tok, heir);
    }
  }

  lemma LinkAppended(t: Table, chain: seq<TokenId>, heir: TokenId)
    requires chain != [] && Linked(t, chain) && heir !in chain
    requires forall i, j :: 0 <= i < j < |chain| ==> chain[i] != chain[j]
    requires chain[|chain| - 1] in t
    requires heir in t ==> !t[heir].consumed && t[heir].replacedBy == None
    ensures Linked(Consumed(t, chain[|chain| - 1], heir), chain + [heir])
  {
  }

  lemma ExtendedChain(c: Core, d: Core, tok: Token, heir: TokenId)
    requires CoreInv(c) && PcOk(c, AtConsume(tok, heir)) && CanConsume(c.rows, tok.id)
    requires d == Commit(c, tok, heir)
    ensures ChainOk(d, tok.family, d.chains[tok.family]) && Linked(d.rows, d.chains[tok.family])
  {
    ConsumableIsLast(c, tok);
    var chain := c.chains[tok.family];
    assert ChainOk(c, tok.family, chain) && Linked(c.rows, chain);
    LinkAppended(c.rows, chain, heir);
    ChainAppended(c, d, tok.family, chain, heir);
  }

  lemma ChainAppended(c: Core, d: Core, family: FamilyId, chain: seq<TokenId>, heir: TokenId)
    requires ChainOk(c, family, chain) && heir !in chain && d.minted == c.minted
    requires heir in c.minted && c.minted[heir] == family
    ensures ChainOk(d, family, chain + [heir])
  {
  }

  lemma OtherChains(c: Core, d: Core, tok: Token, heir: TokenId, f: FamilyId)
    requires CoreInv(c) && PcOk(c, AtConsume(tok, heir)) && CanConsume(c.rows, tok.id)
    requires d == Commit(c, tok, heir) && f in c.chains && f != tok.family
    ensures ChainOk(d, f, d.chains[f]) && Linked(d.rows, d.chains[f])
  {
    assert ChainOk(c, f, c.chains[f]) && Linked(c.rows, c.chains[f]);
    ChainUntouched(c, d, f, c.chains[f]);
  }

  lemma CommitKeepsPresence(c: Core, d: Core, tok: Token, heir: TokenId)
    requires CoreInv(c) && PcOk(c, AtConsume(tok, heir)) && CanConsume(c.rows, tok.id)
    requires d == Commit(c, tok, heir)
    ensures RevokedOk(d) && KeptOk(d)
  {
    ConsumableIsLast(c, tok);
    forall f | f in d.revoked ensures f in d.chains && Absent(d.rows, d.chains[f]) {
      assert Absent(c.rows, c.chains[f]);
    }
    forall f | !d.faulted && f in d.chains && f !in d.revoked ensures Present(d.rows, d.chains[f]) {
      assert Present(c.rows, c.chains[f]);
    }
  }

  lemma CommitKeepsChains(c: Core, d: Core, tok: Token, heir: TokenId)
    requires CoreInv(c) && PcOk(c, AtConsume(tok, heir)) && CanConsume(c.rows, tok.id)
    requires d == Commit(c, tok, heir)
    ensures ChainsOk(d) && LinksOk(d)
  {
    forall f | f in d.chains ensures f < d.next && ChainOk(d, f, d.chains[f]) && Linked(d.rows, d.chains[f]) {
      if f == tok.family {
        ExtendedChain(c, d, tok, heir);
      } else {
        OtherChains(c, d, tok, heir, f);
      }
    }
  }

  lemma CommitKeepsRows(c: Core, d: Core, tok: Token, heir: TokenId)
    requires CoreInv(c) && PcOk(c, AtConsume(tok, heir)) && CanConsume(c.rows, tok.id)
    requires d == Commit(c, tok, heir)
    ensures MintedOk(d) && RowsOk(d) && DeliveredOk(d) && SparesOk(d)
  {
    CommitCommits(c, tok, heir);
  }

  // The chain grows by one link at its end.
  lemma CommitKeeps(c: Core, tok: Token, heir: TokenId)
    requires CoreInv(c) && PcOk(c, AtConsume(tok, heir))
    ensures CoreInv(Commit(c, tok, heir))
  {
    var d := Commit(c, tok, heir);
    if CanConsume(c.rows, tok.id) {
      CommitKeepsChains(c, d, tok, heir);
      CommitKeepsRows(c, d, tok, heir);
      CommitKeepsPresence(c, d, tok, heir);
    }
  }

  // ---------- each step keeps the invariant ----------

  lemma EffectKeeps(c: Core, pc: Pc)
    requires CoreInv(c) && PcOk(c, pc)
    ensures CoreInv(Effect(c, pc)) && Grows(c, Effect(c, pc))
  {
    match pc
    case AtMint(tok) => MintKeeps(c, tok.user, tok.family); MintGrows(c, tok.user, tok.family);
    case AtConsume(tok, heir) => CommitKeeps(c, tok, heir); CommitGrows(c, tok, heir);
    case AtRevokeReuse(tok) => RevokeKeeps(c, tok.family);
    case AtRevokeRace(tok) => RevokeKeeps(c, tok.family);
    case AtRespond(_, heir) => DeliverKeeps(c, heir);
    case AtLogoutFamily(_, family) => RevokeKeeps(c, family);
    case AtLogoutToken(raw) => ForgetTokenKeeps(c, raw);
    case AtLoginMint(user) => StartFamilyKeeps(c, user); StartFamilyGrows(c, user);
    case AtLoginRespond(heir) => DeliverKeeps(c, heir);
    case _ =>
  }

  lemma FaultKeeps(c: Core)
    requires CoreInv(c)
    ensures CoreInv(c.(faulted := true)) && Grows(c, c.(faulted := true))
  {
    assert forall id :: Committed(c.(faulted := true), id) <==> Committed(c, id);
  }

  // The only row a step can commit is the one its own request holds, or a new one.
  lemma EffectCommits(c: Core, pc: Pc, id: TokenId)
    requires CoreInv(c) && PcOk(c, pc)
    requires id in c.minted && !Committed(c, id) && (pc.AtConsume? ==> pc.heir != id)
    ensures !Committed(Effect(c, pc), id)
  {
    match pc
    case AtMint(tok) => MintCommits(c, tok.user, tok.family);
    case AtConsume(tok, heir) => CommitCommits(c, tok, heir);
    case AtLoginMint(user) => StartFamilyCommits(c, user);
    case _ =>
  }

  lemma TokenStays(c: Core, d: Core, tok: Token)
    requires MintedOk(c) && Grows(c, d) && TokenOk(c, tok)
    ensures TokenOk(d, tok) && (Spent(c, tok.id) ==> Spent(d, tok.id))
    ensures forall heir :: ReplacedBy(c, tok.id, heir) ==> ReplacedBy(d, tok.id, heir)
  {
    CommittedGrows(c, d, tok.id);
  }

  predicate HoldsToken(pc: Pc) {
    pc.AtCheck? || pc.AtLoadUser? || pc.AtMint? || pc.AtRevokeReuse? || pc.AtRevokeRace?
    || (pc.Done? && pc.result.ReuseDetected?)
  }

  lemma TokenHolderStays(c: Core, d: Core, pc: Pc)
    requires MintedOk(c) && Grows(c, d) && PcOk(c, pc) && HoldsToken(pc)
    ensures PcOk(d, pc)
  {
    TokenStays(c, d, if pc.Done? then pc.result.tok else pc.tok);
  }

  lemma WinnerStays(c: Core, d: Core, pc: Pc)
    requires MintedOk(c) && Grows(c, d) && PcOk(c, pc) && Won(pc)
    ensures PcOk(d, pc)
  {
    TokenStays(c, d, WonToken(pc));
    CommittedGrows(c, d, if pc.Done? then pc.result.heir else pc.heir);
  }

  lemma ConsumerStays(c: Core, d: Core, pc: Pc)
    requires MintedOk(c) && Grows(c, d) && PcOk(c, pc) && pc.AtConsume? && !Committed(d, pc.heir)
    requires !d.faulted && pc.tok.family !in d.revoked && pc.heir in c.rows ==> pc.heir in d.rows
    ensures PcOk(d, pc)
  {
    TokenStays(c, d, pc.tok);
  }

  lemma LoginStays(c: Core, d: Core, pc: Pc)
    requires MintedOk(c) && Grows(c, d) && PcOk(c, pc) && !HoldsToken(pc) && !Won(pc)
    requires pc.AtLoginRespond? || pc.AtLoginMint? || pc.Done?
    ensures PcOk(d, pc)
  {
    if pc.AtLoginRespond? {
      CommittedGrows(c, d, pc.heir);
    }
  }

  lemma StringHolderStays(c: Core, d: Core, pc: Pc)
    requires CoreInv(c) && Grows(c, d) && PcOk(c, pc)
    requires pc.AtLookup? || pc.AtLogoutLookup? || pc.AtLogoutFamily? || pc.AtLogoutToken?
    ensures PcOk(d, pc)
  {
    if pc.AtLogoutToken? && pc.raw.Minted? && !d.faulted {
      assert Committed(c, pc.raw.serial);
    }
  }

  // What is known about a request survives the steps of the others.
  lemma PcStays(c: Core, d: Core, pc: Pc)
    requires CoreInv(c) && Grows(c, d) && PcOk(c, pc)
    requires pc.AtConsume? ==> !Committed(d, pc.heir)
    requires pc.AtConsume? && !d.faulted && pc.tok.family !in d.revoked && pc.heir in c.rows ==> pc.heir in d.rows
    ensures PcOk(d, pc)
  {
    if HoldsToken(pc) {
      TokenHolderStays(c, d, pc);
    } else if Won(pc) {
      WinnerStays(c, d, pc);
    } else if pc.AtConsume? {
      ConsumerStays(c, d, pc);
    } else if pc.AtLoginRespond? || pc.AtLoginMint? || pc.Done? {
      LoginStays(c, d, pc);
    } else {
      StringHolderStays(c, d, pc);
    }
  }

  lemma EffectKeepsRow(c: Core, pc: Pc, id: TokenId)
    requires CoreInv(c) && PcOk(c, pc) && id in c.rows
    ensures var d := Effect(c, pc); d.faulted || c.minted[id] in d.revoked || id in d.rows
  {
  }

  lemma FoundIsPresented(c: Core, raw: Raw)
    requires CoreInv(c) && Presentable(c, raw)
    ensures var r := Lookup(c.rows, HashRefresh(raw));
      if r.Some? then raw == Minted(r.value.id) && TokenOk(c, r.value)
      else raw.Minted? ==> raw.serial !in c.rows
  {
    HashesUnique(c);
  }

  lemma LookupKeeps(c: Core, pc: Pc)
    requires CoreInv(c) && PcOk(c, pc) && (pc.AtLookup? || pc.AtLogoutLookup? || pc.AtCheck? || pc.AtLoadUser?)
    ensures PcOk(c, Next(c, pc))
  {
    if pc.AtLookup? || pc.AtLogoutLookup? {
      FoundIsPresented(c, pc.raw);
    }
  }

  lemma MintingKeeps(c: Core, pc: Pc)
    requires CoreInv(c) && PcOk(c, pc) && (pc.AtMint? || pc.AtLoginMint?)
    ensures PcOk(Effect(c, pc), Next(c, pc))
  {
    NextUnused(c);
    match pc
    case AtMint(tok) =>
      MintGrows(c, tok.user, tok.family);
      TokenStays(c, Effect(c, pc), tok);
      MintCommits(c, tok.user, tok.family);
    case AtLoginMint(user) => StartFamilyCommits(c, user);
  }

  lemma ConsumingKeeps(c: Core, pc: Pc)
    requires CoreInv(c) && PcOk(c, pc) && pc.AtConsume?
    ensures PcOk(Effect(c, pc), Next(c, pc))
  {
    CommitGrows(c, pc.tok, pc.heir);
    TokenStays(c, Effect(c, pc), pc.tok);
    CommitCommits(c, pc.tok, pc.heir);
  }

  lemma RevokingKeeps(c: Core, pc: Pc)
    requires CoreInv(c) && PcOk(c, pc) && (pc.AtRevokeReuse? || pc.AtRevokeRace?)
    ensures PcOk(Effect(c, pc), Next(c, pc))
  {
    RevokeKeeps(c, pc.tok.family);
    TokenStays(c, Effect(c, pc), pc.tok);
  }

  lemma RespondingKeeps(c: Core, pc: Pc)
    requires CoreInv(c) && PcOk(c, pc) && pc.AtRespond?
    ensures PcOk(Effect(c, pc), Next(c, pc))
  {
    DeliverKeeps(c, pc.heir);
    TokenStays(c, Effect(c, pc), pc.tok);
  }

  lemma LogoutKeeps(c: Core, pc: Pc)
    requires CoreInv(c) && PcOk(c, pc) && (pc.AtLogoutFamily? || pc.AtLogoutToken? || pc.AtLoginRespond? || pc.Done?)
    ensures PcOk(Effect(c, pc), Next(c, pc))
  {
  }

  lemma NextKeeps(c: Core, pc: Pc)
    requires CoreInv(c) && PcOk(c, pc)
    ensures PcOk(Effect(c, pc), Next(c, pc))
  {
    match pc
    case AtLookup(_) => LookupKeeps(c, pc);
    case AtCheck(_) => LookupKeeps(c, pc);
    case AtLoadUser(_) => LookupKeeps(c, pc);
    case AtLogoutLookup(_) => LookupKeeps(c, pc);
    case AtMint(_) => MintingKeeps(c, pc);
    case AtLoginMint(_) => MintingKeeps(c, pc);
    case AtConsume(_, _) => ConsumingKeeps(c, pc);
    case AtRevokeReuse(_) => RevokingKeeps(c, pc);
    case AtRevokeRace(_) => RevokingKeeps(c, pc);
    case AtRespond(_, _) => RespondingKeeps(c, pc);
    case _ => LogoutKeeps(c, pc);
  }
}
