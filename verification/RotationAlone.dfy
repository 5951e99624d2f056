/** A refresh request that is left alone, from its lookup to its answer. */
module RotationAlone {
  import opened Outcomes
  import opened RefreshStore
  import opened Rotation
  import opened RotationInvariant
  import opened RotationTheorems

  // A refresh would be accepted now.
  ghost predicate Renewable(c: Core, id: TokenId) {
    Usable(c, id) && c.rows[id].user in c.users
  }

  lemma Overwritten<K, V>(m: map<K, V>, k: K, a: V, b: V)
    ensures m[k := a][k := b] == m[k := b]
  {
  }

  lemma ThreeSteps(w: World, w1: World, w2: World, w3: World, r: RequestId)
    requires Step(w, Act(r)) == w1 && Step(w1, Act(r)) == w2 && Step(w2, Act(r)) == w3
    ensures Run(w, [Act(r), Act(r), Act(r)]) == w3
  {
    var a := Act(r);
    assert [a, a, a][1..] == [a, a] && [a, a][1..] == [a] && [a][1..] == [];
    assert Run(w2, [a]) == w3;
    assert Run(w1, [a, a]) == w3;
  }

  lemma RowIsFound(c: Core, id: TokenId)
    requires RowsOk(c) && id in c.rows
    ensures Lookup(c.rows, HashRefresh(Minted(id)))
      == Some(Token(id, c.rows[id].user, c.rows[id].family, c.rows[id].expires, c.rows[id].consumed))
  {
    OnlyRowIsFound(c.rows, HashRefresh(Minted(id)), id);
  }

  lemma ChecksPass(w: World, r: RequestId, id: TokenId, tok: Token)
    requires r in w.reqs && w.reqs[r] == AtLookup(Minted(id)) && !tok.consumed
    requires Lookup(w.core.rows, HashRefresh(Minted(id))) == Some(tok)
    requires w.core.now <= tok.expires && tok.user in w.core.users
    ensures Run(w, [Act(r), Act(r), Act(r)]) == World(w.core, w.reqs[r := AtMint(tok)])
  {
    var w1 := World(w.core, w.reqs[r := AtCheck(tok)]);
    var w2 := World(w.core, w.reqs[r := AtLoadUser(tok)]);
    Acted(w, w, r, w.reqs[r], w.core, AtCheck(tok));
    Acted(w, w1, r, AtCheck(tok), w.core, AtLoadUser(tok));
    Acted(w, w2, r, AtLoadUser(tok), w.core, AtMint(tok));
    ThreeSteps(w, w1, w2, World(w.core, w.reqs[r := AtMint(tok)]), r);
  }

  function Exchanged(c: Core, tok: Token): Core {
    Deliver(Commit(Mint(c, tok.user, tok.family), tok, c.next), c.next)
  }

  lemma ExchangeSucceeds(w: World, r: RequestId, tok: Token)
    requires r in w.reqs && w.reqs[r] == AtMint(tok) && CanConsume(w.core.rows, tok.id) && w.core.next !in w.core.rows
    ensures Run(w, [Act(r), Act(r), Act(r)])
      == World(Exchanged(w.core, tok), w.reqs[r := Done(Rotated(tok, w.core.next))])
  {
    var c := w.core;
    var d := Mint(c, tok.user, tok.family);
    var e := Commit(d, tok, c.next);
    var w1 := World(d, w.reqs[r := AtConsume(tok, c.next)]);
    var w2 := World(e, w.reqs[r := AtRespond(tok, c.next)]);
    assert CanConsume(d.rows, tok.id);
    Acted(w, w, r, w.reqs[r], d, AtConsume(tok, c.next));
    Acted(w, w1, r, AtConsume(tok, c.next), e, AtRespond(tok, c.next));
    Acted(w, w2, r, AtRespond(tok, c.next), Deliver(e, c.next), Done(Rotated(tok, c.next)));
    ThreeSteps(w, w1, w2, World(Deliver(e, c.next), w.reqs[r := Done(Rotated(tok, c.next))]), r);
  }

  // Only request r has moved since w; now it moves on.
  lemma Acted(w: World, v: World, r: RequestId, pc: Pc, d: Core, next: Pc)
    requires v.reqs == w.reqs[r := pc] && !pc.Done? && Effect(v.core, pc) == d && Rotation.Next(v.core, pc) == next
    ensures Step(v, Act(r)) == World(d, w.reqs[r := next])
  {
    assert w.reqs[r := pc][r := next] == w.reqs[r := next];
  }

  function Acts(r: RequestId): seq<Event> {
    [Act(r), Act(r), Act(r)] + [Act(r), Act(r), Act(r)]
  }

  lemma SixSteps(w: World, r: RequestId, tok: Token)
    requires r in w.reqs && CanConsume(w.core.rows, tok.id) && w.core.next !in w.core.rows
    requires Run(w, [Act(r), Act(r), Act(r)]) == World(w.core, w.reqs[r := AtMint(tok)])
    ensures Run(w, Acts(r)) == World(Exchanged(w.core, tok), w.reqs[r := Done(Rotated(tok, w.core.next))])
  {
    ExchangeSucceeds(World(w.core, w.reqs[r := AtMint(tok)]), r, tok);
    RunConcat(w, [Act(r), Act(r), Act(r)], [Act(r), Act(r), Act(r)]);
    Overwritten(w.reqs, r, AtMint(tok), Done(Rotated(tok, w.core.next)));
  }

  lemma ExchangeExtends(c: Core, tok: Token)
    requires CanConsume(c.rows, tok.id)
    ensures ChainOf(Exchanged(c, tok), tok.family) == ChainOf(c, tok.family) + [c.next]
    ensures Minted(c.next) in Exchanged(c, tok).delivered
  {
  }

  // A request that presents a usable token and is left alone obtains the next pair of the chain.
  lemma LoneRefreshSucceeds(w: World, r: RequestId, id: TokenId)
    requires Inv(w) && r in w.reqs && w.reqs[r] == AtLookup(Minted(id)) && Renewable(w.core, id)
    ensures var v, c := Run(w, Acts(r)), w.core;
      && r in v.reqs && v.reqs[r].Done? && v.reqs[r].result.Rotated? && v.reqs[r].result.heir == c.next
      && v.reqs[r].result.tok.id == id && v.reqs.Keys == w.reqs.Keys
      && ChainOf(v.core, c.rows[id].family) == ChainOf(c, c.rows[id].family) + [c.next]
      && Minted(c.next) in v.core.delivered
  {
    var c := w.core;
    var tok := Token(id, c.rows[id].user, c.rows[id].family, c.rows[id].expires, false);
    NextUnused(c);
    RowIsFound(c, id);
    ChecksPass(w, r, id, tok);
    SixSteps(w, r, tok);
    ExchangeExtends(c, tok);
  }

  // ---------- a request that is not exchanged ----------

  lemma AnsweredIdles(w: World, v: World, r: RequestId)
    requires Run(w, [Act(r), Act(r), Act(r)]) == v && r in v.reqs && v.reqs[r].Done?
    ensures Run(w, Acts(r)) == v
  {
    assert Step(v, Act(r)) == v;
    ThreeSteps(v, v, v, v, r);
    RunConcat(w, [Act(r), Act(r), Act(r)], [Act(r), Act(r), Act(r)]);
  }

  lemma UnknownIsRefused(w: World, r: RequestId, raw: Raw)
    requires r in w.reqs && w.reqs[r] == AtLookup(raw) && Lookup(w.core.rows, HashRefresh(raw)) == None
    ensures Run(w, Acts(r)) == World(w.core, w.reqs[r := Done(Refused)])
  {
    var v := World(w.core, w.reqs[r := Done(Refused)]);
    assert Step(w, Act(r)) == v && Step(v, Act(r)) == v;
    ThreeSteps(w, v, v, v, r);
    AnsweredIdles(w, v, r);
  }

  lemma UsedRevokes(w: World, r: RequestId, raw: Raw, tok: Token)
    requires r in w.reqs && w.reqs[r] == AtLookup(raw) && Lookup(w.core.rows, HashRefresh(raw)) == Some(tok)
    requires tok.consumed
    ensures Run(w, Acts(r)) == World(Revoke(w.core, tok.family), w.reqs[r := Done(ReuseDetected(tok, true))])
  {
    var w1 := World(w.core, w.reqs[r := AtCheck(tok)]);
    var w2 := World(w.core, w.reqs[r := AtRevokeReuse(tok)]);
    var v := World(Revoke(w.core, tok.family), w.reqs[r := Done(ReuseDetected(tok, true))]);
    Acted(w, w, r, w.reqs[r], w.core, AtCheck(tok));
    Acted(w, w1, r, AtCheck(tok), w.core, AtRevokeReuse(tok));
    Acted(w, w2, r, AtRevokeReuse(tok), v.core, v.reqs[r]);
    ThreeSteps(w, w1, w2, v, r);
    AnsweredIdles(w, v, r);
  }

  lemma LateIsRefused(w: World, r: RequestId, raw: Raw, tok: Token)
    requires r in w.reqs && w.reqs[r] == AtLookup(raw) && Lookup(w.core.rows, HashRefresh(raw)) == Some(tok)
    requires !tok.consumed && (tok.expires < w.core.now || tok.user !in w.core.users)
    ensures Run(w, Acts(r)) == World(w.core, w.reqs[r := Done(Refused)])
  {
    var w1 := World(w.core, w.reqs[r := AtCheck(tok)]);
    var v := World(w.core, w.reqs[r := Done(Refused)]);
    Acted(w, w, r, w.reqs[r], w.core, AtCheck(tok));
    if tok.expires < w.core.now {
      Acted(w, w1, r, AtCheck(tok), w.core, Done(Refused));
      assert Step(v, Act(r)) == v;
      ThreeSteps(w, w1, v, v, r);
    } else {
      var w2 := World(w.core, w.reqs[r := AtLoadUser(tok)]);
      Acted(w, w1, r, AtCheck(tok), w.core, AtLoadUser(tok));
      Acted(w, w2, r, AtLoadUser(tok), w.core, Done(Refused));
      ThreeSteps(w, w1, w2, v, r);
    }
    AnsweredIdles(w, v, r);
  }

  // ---------- any request ----------

  // A refresh would exchange the token now.
  ghost predicate Exchangeable(c: Core, raw: Raw) {
    && raw.Minted? && CanConsume(c.rows, raw.serial)
    && c.now <= c.rows[raw.serial].expires && c.rows[raw.serial].user in c.users
  }

  // It was exchanged before.
  ghost predicate Used(c: Core, raw: Raw) {
    raw.Minted? && raw.serial in c.rows && c.rows[raw.serial].consumed
  }

  // Revoking takes out the family and nothing else.
  lemma RevokedIsGone(w: World, family: FamilyId)
    requires CoreInv(w.core) && family in w.core.chains
    ensures FamilyIsGone(Revoke(w.core, family), family)
    ensures forall id :: id in w.core.rows && w.core.rows[id].family != family ==>
      id in Revoke(w.core, family).rows && Revoke(w.core, family).rows[id] == w.core.rows[id]
  {
  }

  // Left alone, a request obtains the next pair of the chain exactly if the row of the string it presents
  // is there, unconsumed, not expired, and its user known; it revokes the family exactly if that row was
  // consumed; in every other case it is refused and leaves everything as it was.
  lemma LoneRefreshSucceedsIff(w: World, r: RequestId, raw: Raw)
    requires Inv(w) && r in w.reqs && w.reqs[r] == AtLookup(raw)
    ensures var v, c := Run(w, Acts(r)), w.core;
      && r in v.reqs && v.reqs[r].Done?
      && (v.reqs[r].result.Rotated? <==> Exchangeable(c, raw))
      && (v.reqs[r].result.ReuseDetected? <==> Used(c, raw))
      && (Exchangeable(c, raw) ==>
            && v.reqs[r].result.tok.id == raw.serial && v.reqs[r].result.heir == c.next
            && ChainOf(v.core, c.rows[raw.serial].family) == ChainOf(c, c.rows[raw.serial].family) + [c.next]
            && Minted(c.next) in v.core.delivered)
      && (Used(c, raw) ==>
            && FamilyIsGone(v.core, c.rows[raw.serial].family)
            && forall id :: id in c.rows && c.rows[id].family != c.rows[raw.serial].family ==>
                 id in v.core.rows && v.core.rows[id] == c.rows[id])
      && (!Exchangeable(c, raw) && !Used(c, raw) ==> v == World(c, w.reqs[r := Done(Refused)]))
  {
    assert PcOk(w.core, w.reqs[r]);
    FoundIsPresented(w.core, raw);
    match Lookup(w.core.rows, HashRefresh(raw))
    case None => UnknownIsRefused(w, r, raw);
    case Some(tok) =>
      if tok.consumed {
        UsedRevokes(w, r, raw, tok);
        RevokedIsGone(w, tok.family);
      } else if tok.expires < w.core.now || tok.user !in w.core.users {
        LateIsRefused(w, r, raw, tok);
      } else {
        LoneRefreshSucceeds(w, r, tok.id);
      }
  }

  // ---------- a session ----------

  // A login that is left alone.
  function Login(r: RequestId, user: UserId): seq<Event> {
    [BeginLogin(r, user)] + [Act(r), Act(r), Act(r)]
  }

  lemma LoginStarts(w: World, r: RequestId, user: UserId)
    requires r !in w.reqs
    ensures Run(w, Login(r, user))
      == World(Deliver(StartFamily(w.core, user), w.core.next), w.reqs[r := Done(LoggedIn(w.core.next))])
  {
    var c := w.core;
    var w1 := World(c, w.reqs[r := AtLoginMint(user)]);
    var w2 := World(StartFamily(c, user), w.reqs[r := AtLoginRespond(c.next)]);
    var w3 := World(Deliver(w2.core, c.next), w.reqs[r := Done(LoggedIn(c.next))]);
    assert Step(w, BeginLogin(r, user)) == w1 && Run(w1, []) == w1;
    assert Run(w, [BeginLogin(r, user)]) == w1;
    Acted(w, w1, r, AtLoginMint(user), w2.core, AtLoginRespond(c.next));
    Acted(w, w2, r, AtLoginRespond(c.next), w3.core, Done(LoggedIn(c.next)));
    assert Step(w3, Act(r)) == w3;
    ThreeSteps(w1, w2, w3, w3, r);
    RunConcat(w, [BeginLogin(r, user)], [Act(r), Act(r), Act(r)]);
  }

  lemma NewTokenIsExchangeable(c: Core, user: UserId)
    requires user in c.users && 0 <= c.ttl
    ensures var d := Deliver(StartFamily(c, user), c.next);
      && Renewable(d, c.next) && Minted(c.next) in d.delivered
      && d.rows[c.next].family == c.next && ChainOf(d, c.next) == [c.next] && d.next == c.next + 1
  {
  }

  // A request that begins and is left alone.
  lemma AskedAlone(w: World, q: RequestId, raw: Raw, y: World)
    requires q !in w.reqs && Presentable(w.core, raw) && y == World(w.core, w.reqs[q := AtLookup(raw)])
    ensures Run(w, [BeginRefresh(q, raw)] + Acts(q)) == Run(y, Acts(q)) && Step(w, BeginRefresh(q, raw)) == y
  {
    assert Run(y, []) == y;
    assert Run(w, [BeginRefresh(q, raw)]) == y;
    RunConcat(w, [BeginRefresh(q, raw)], Acts(q));
  }

  lemma AskingKeeps(w: World, q: RequestId, raw: Raw, y: World)
    requires Inv(w) && Presentable(w.core, raw) && y == World(w.core, w.reqs[q := AtLookup(raw)])
    ensures Inv(y)
  {
    BeginKeeps(w, y, q, AtLookup(raw));
  }

  // Request q has exchanged token id, the first of its family, for the second.
  predicate Refreshed(v: World, q: RequestId, id: TokenId) {
    && q in v.reqs && v.reqs[q].Done? && v.reqs[q].result.Rotated? && v.reqs[q].result.tok.id == id
    && ChainOf(v.core, id) == [id] + [id + 1]
  }

  lemma FirstRefresh(y: World, q: RequestId, id: TokenId, v: World)
    requires Inv(y) && q in y.reqs && y.reqs[q] == AtLookup(Minted(id)) && Renewable(y.core, id)
    requires y.core.rows[id].family == id && ChainOf(y.core, id) == [id] && y.core.next == id + 1
    requires v == Run(y, Acts(q))
    ensures Refreshed(v, q, id)
  {
    LoneRefreshSucceeds(y, q, id);
  }

  lemma LoginThenRefresh(x: World, q: RequestId, id: TokenId)
    requires Inv(x) && q !in x.reqs && Renewable(x.core, id) && Minted(id) in x.core.delivered
    requires x.core.rows[id].family == id && ChainOf(x.core, id) == [id] && x.core.next == id + 1
    ensures Refreshed(Run(x, [BeginRefresh(q, Minted(id))] + Acts(q)), q, id)
  {
    var y := World(x.core, x.reqs[q := AtLookup(Minted(id))]);
    AskingKeeps(x, q, Minted(id), y);
    FirstRefresh(y, q, id, Run(y, Acts(q)));
    AskedAlone(x, q, Minted(id), y);
  }

  // In any state a known user can log in and exchange the token at once, if tokens last at all.
  lemma LoginCanRefresh(w: World, r: RequestId, q: RequestId, user: UserId)
    requires Reachable(w) && r !in w.reqs && q !in w.reqs && r != q && user in w.core.users && 0 <= w.core.ttl
    ensures var id := w.core.next;
      Refreshed(Run(w, Login(r, user) + ([BeginRefresh(q, Minted(id))] + Acts(q))), q, id)
  {
    ReachableInv(w);
    RunKeeps(w, Login(r, user));
    LoginStarts(w, r, user);
    NewTokenIsExchangeable(w.core, user);
    RunConcat(w, Login(r, user), [BeginRefresh(q, Minted(w.core.next))] + Acts(q));
    LoginThenRefresh(Run(w, Login(r, user)), q, w.core.next);
  }
}
