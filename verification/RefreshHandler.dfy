/**
 The handlers themselves. Each method runs the statements of its Go handler in order, with the
 steps other requests may take in between, and is shown to be one run of the protocol: what the
 theorems say about runs they say about these methods.
 */
module RefreshHandler {
  import opened Outcomes
  import opened RefreshStore
  import opened Rotation
  import opened RotationInvariant
  import opened RotationTheorems
  import opened RotationSecrecy
  import opened RotationChecks
  import opened RotationOwner

  // The event is not a step of request r.
  predicate Foreign(e: Event, r: RequestId) {
    e.Tick? || e.r != r
  }

  predicate Excludes(env: seq<Event>, r: RequestId) {
    forall i :: 0 <= i < |env| ==> Foreign(env[i], r)
  }

  lemma {:induction false} OthersLeaveAlone(w: World, env: seq<Event>, r: RequestId)
    requires Excludes(env, r) && r in w.reqs
    ensures r in Run(w, env).reqs && Run(w, env).reqs[r] == w.reqs[r]
    decreases |env|
  {
    if env != [] {
      assert Foreign(env[0], r);
      OthersLeaveAlone(Step(w, env[0]), env[1..], r);
    }
  }

  // Others run, then request r takes its next step.
  function Then(w: World, env: seq<Event>, r: RequestId): World {
    Step(Run(w, env), Act(r))
  }

  // The shared state in which the fifth step of request r, the conditional update, happens.
  ghost function AtConsumption(begun: World, env: nat -> seq<Event>, r: RequestId): Core {
    var loading := Then(Then(begun, env(0), r), env(1), r);
    Run(Then(Then(loading, env(2), r), env(3), r), env(4)).core
  }

  // How a refresh request that has just begun is answered: a string without a row is refused, a used
  // one is reuse, an expired one or one of an unknown user is refused, and any other is exchanged if
  // and only if the row can still be consumed when it comes to that.
  ghost predicate Settled(begun: World, raw: Raw, env: nat -> seq<Event>, r: RequestId, out: Response) {
    var found := Run(begun, env(0)).core;
    var checked := Run(Then(begun, env(0), r), env(1)).core;
    if raw.Unknown? || raw.serial !in found.rows then out == Refused
    else
      var row := found.rows[raw.serial];
      if row.consumed then out.ReuseDetected?
      else if row.expires < checked.now || row.user !in begun.core.users then out == Refused
      else if CanConsume(AtConsumption(begun, env, r).rows, raw.serial) then out.Rotated?
      else out.ReuseDetected?
  }

  // What follows once the row tok has been looked up and the clock read; e, f and g happen before the
  // next three steps.
  ghost predicate Judged(checked: World, expired: bool, tok: Token, e: seq<Event>, f: seq<Event>, g: seq<Event>,
                         r: RequestId, out: Response)
  {
    if tok.consumed then out == ReuseDetected(tok, true)
    else if expired || tok.user !in checked.core.users then out == Refused
    else if CanConsume(Run(Then(Then(checked, e, r), f, r), g).core.rows, tok.id) then out.Rotated? && out.tok == tok
    else out == ReuseDetected(tok, true)
  }

  lemma SettlesBy(begun: World, looked: World, checked: World, raw: Raw, env: nat -> seq<Event>, r: RequestId,
                  tok: Token, out: Response)
    requires looked == Then(begun, env(0), r) && looked.core == Run(begun, env(0)).core
    requires checked == Then(looked, env(1), r) && checked.core == Run(looked, env(1)).core
    requires raw == Minted(tok.id) && Found(looked.core.rows, HashRefresh(raw), tok)
    requires Judged(checked, tok.expires < checked.core.now, tok, env(2), env(3), env(4), r, out)
    ensures Settled(begun, raw, env, r, out)
  {
    UsersStay(begun, env(0));
    UsersStay(looked, env(1));
  }

  // The row is the user's and lasts for the refresh lifetime, inserted in state c.
  predicate FirstOf(row: Row, user: UserId, c: Core) {
    row.user == user && row.expires == c.now + c.ttl
  }

  class Handler {
    const store: Store
    // What the database does not hold: the clock, the generators and the requests in flight.
    var world: World
    // Every event since the server started.
    ghost const initial: World
    ghost var log: seq<Event>

    ghost predicate Valid()
      reads this, store
    {
      && world.core.rows == store.rows
      && world == Run(initial, log)
      && exists users, now, ttl :: initial == Init(users, now, ttl)
    }

    constructor (users: set<UserId>, now: int, ttl: int)
      ensures Valid() && world == Init(users, now, ttl) && fresh(store)
    {
      store := new Store();
      world := Init(users, now, ttl);
      initial := Init(users, now, ttl);
      log := [];
    }

    // So whatever is proved of reachable worlds holds whenever a handler method returns.
    lemma WorldIsReachable()
      requires Valid()
      ensures Reachable(world)
    {
      var users, now, ttl :| initial == Init(users, now, ttl);
    }

    method Begin(e: Event)
      requires Valid() && (e.BeginRefresh? || e.BeginLogout? || e.BeginLogin?) && Enabled(world, e)
      modifies this
      ensures Valid() && log == old(log) + [e] && world == Step(old(world), e)
    {
      RunConcat(initial, log, [e]);
      assert Run(world, [e]) == Step(world, e);
      log := log + [e];
      world := Step(world, e);
    }

    // Other requests run, and the clock moves.
    method Yield(env: seq<Event>, r: RequestId)
      requires Valid() && Excludes(env, r) && r in world.reqs
      modifies this, store
      ensures Valid() && log == old(log) + env && world == Run(old(world), env)
      ensures r in world.reqs && world.reqs[r] == old(world).reqs[r]
    {
      OthersLeaveAlone(world, env, r);
      RunConcat(initial, log, env);
      log := log + env;
      world := Run(world, env);
      store.rows := world.core.rows;
    }

    // The statement r has just executed was its next step.
    method Advance(r: RequestId)
      requires world == Run(initial, log) && (exists users, now, ttl :: initial == Init(users, now, ttl))
      requires r in world.reqs && !world.reqs[r].Done?
      requires store.rows == Effect(world.core, world.reqs[r]).rows
      modifies this
      ensures Valid() && log == old(log) + [Act(r)] && world == Step(old(world), Act(r))
      ensures r in world.reqs && world.reqs[r] == Next(old(world).core, old(world).reqs[r])
    {
      RunConcat(initial, log, [Act(r)]);
      assert Run(world, [Act(r)]) == Step(world, Act(r));
      log := log + [Act(r)];
      world := Step(world, Act(r));
    }

    // ---------- one repository call each ----------

    // What is found is the row of the string presented; looking changes nothing.
    method LookUp(r: RequestId, raw: Raw, env: seq<Event>) returns (found: Result<Token, StoreError>)
      requires Valid() && Excludes(env, r) && r in world.reqs
      requires world.reqs[r] == AtLookup(raw) || world.reqs[r] == AtLogoutLookup(raw)
      modifies this, store
      ensures Valid() && log == old(log) + env + [Act(r)] && r in world.reqs
      ensures world == Then(old(world), env, r) && world.core == Run(old(world), env).core
      ensures found.Ok? ==> raw == Minted(found.value.id) && Found(world.core.rows, HashRefresh(raw), found.value)
      ensures found.Err? ==> forall id :: id in world.core.rows ==> world.core.rows[id].hash != HashRefresh(raw)
      ensures found.Err? ==> raw.Unknown? || raw.serial !in world.core.rows
      ensures old(world).reqs[r].AtLookup? ==>
        world.reqs[r] == if found.Ok? then AtCheck(found.value) else Done(Refused)
      ensures old(world).reqs[r].AtLogoutLookup? ==>
        world.reqs[r] == if found.Ok? then AtLogoutFamily(raw, found.value.family) else AtLogoutToken(raw)
    {
      Yield(env, r);
      RowPresented(r, raw);
      found := store.RefreshTokenByHash(HashRefresh(raw));
      Advance(r);
    }

    lemma RowPresented(r: RequestId, raw: Raw)
      requires Valid() && r in world.reqs && (world.reqs[r] == AtLookup(raw) || world.reqs[r] == AtLogoutLookup(raw))
      ensures var rows := store.rows; var found := Lookup(rows, HashRefresh(raw));
        if found.Some? then raw == Minted(found.value.id)
        else
          && (forall id :: id in rows ==> rows[id].hash != HashRefresh(raw))
          && (raw.Minted? ==> raw.serial !in rows)
    {
      WorldIsSound();
      assert PcOk(world.core, world.reqs[r]);
      FoundIsPresented(world.core, raw);
      HashesUnique(world.core);
    }

    // Reads the clock once; the two branches on the row need no store call.
    method Check(r: RequestId, tok: Token, env: seq<Event>) returns (expired: bool)
      requires Valid() && Excludes(env, r) && r in world.reqs && world.reqs[r] == AtCheck(tok)
      modifies this, store
      ensures Valid() && log == old(log) + env + [Act(r)] && r in world.reqs
      ensures world == Then(old(world), env, r) && world.core == Run(old(world), env).core
      ensures expired <==> tok.expires < world.core.now
      ensures world.reqs[r] ==
        if tok.consumed then AtRevokeReuse(tok) else if expired then Done(Refused) else AtLoadUser(tok)
    {
      Yield(env, r);
      expired := tok.expires < world.core.now;
      Advance(r);
    }

    method LoadUser(r: RequestId, tok: Token, env: seq<Event>) returns (known: bool)
      requires Valid() && Excludes(env, r) && r in world.reqs && world.reqs[r] == AtLoadUser(tok)
      modifies this, store
      ensures Valid() && log == old(log) + env + [Act(r)] && r in world.reqs
      ensures world == Then(old(world), env, r) && world.core == Run(old(world), env).core
      ensures known <==> tok.user in world.core.users
      ensures world.reqs[r] == if known then AtMint(tok) else Done(Refused)
    {
      Yield(env, r);
      known := tok.user in world.core.users;
      Advance(r);
    }

    method Insert(id: TokenId, user: UserId, family: FamilyId, expires: int)
      modifies store
      ensures store.rows == Inserted(old(store.rows), id, user, family, HashRefresh(Minted(id)), expires)
    {
      store.InsertRefreshToken(id, user, family, HashRefresh(Minted(id)), expires);
      TableWithRow(old(store.rows), store.rows, id, user, family, HashRefresh(Minted(id)), expires);
    }

    // Generates a token and stores its digest; returns the new row's id. The row is the user's, in the
    // family, and lasts for the refresh lifetime from the moment it is inserted.
    method MintPair(r: RequestId, user: UserId, family: FamilyId, env: seq<Event>) returns (id: TokenId)
      requires Valid() && Excludes(env, r) && r in world.reqs
      requires world.reqs[r].AtMint? && world.reqs[r].tok.user == user && world.reqs[r].tok.family == family
      modifies this, store
      ensures Valid() && log == old(log) + env + [Act(r)] && r in world.reqs
      ensures world == Then(old(world), env, r) && world.reqs[r] == AtConsume(old(world).reqs[r].tok, id)
      ensures var c := Run(old(world), env).core;
        && id == c.next && id in store.rows && KeepsAllBut(c.rows, store.rows, {id})
        && store.rows[id] == Row(user, family, HashRefresh(Minted(id)), c.now + c.ttl, false, None)
    {
      Yield(env, r);
      id := world.core.next;
      Insert(id, user, family, world.core.now + world.core.ttl);
      Advance(r);
    }

    method Consume(r: RequestId, tok: Token, heir: TokenId, env: seq<Event>) returns (used: Result<(), StoreError>)
      requires Valid() && Excludes(env, r) && r in world.reqs && world.reqs[r] == AtConsume(tok, heir)
      modifies this, store
      ensures Valid() && log == old(log) + env + [Act(r)] && r in world.reqs
      ensures world == Then(old(world), env, r)
      ensures used.Ok? <==> CanConsume(Run(old(world), env).core.rows, tok.id)
      ensures world.reqs[r] == if used.Ok? then AtRespond(tok, heir) else AtRevokeRace(tok)
    {
      Yield(env, r);
      used := store.ConsumeRefreshToken(tok.id, heir);
      Advance(r);
    }

    method DeleteFamily(family: FamilyId)
      modifies store
      ensures store.rows == WithoutFamily(old(store.rows), family)
    {
      store.RevokeRefreshFamily(family);
      assert store.rows == WithoutFamily(old(store.rows), family);
    }

    method DeleteToken(h: Digest)
      modifies store
      ensures store.rows == WithoutHash(old(store.rows), h)
    {
      store.RevokeRefreshToken(h);
      assert store.rows == WithoutHash(old(store.rows), h);
    }

    method RevokeFamily(r: RequestId, family: FamilyId, env: seq<Event>)
      requires Valid() && Excludes(env, r) && r in world.reqs
      requires match world.reqs[r]
        case AtRevokeReuse(tok) => tok.family == family
        case AtRevokeRace(tok) => tok.family == family
        case AtLogoutFamily(_, f) => f == family
        case _ => false
      modifies this, store
      ensures Valid() && log == old(log) + env + [Act(r)] && r in world.reqs
      ensures world == Then(old(world), env, r) && family in world.core.revoked
      ensures forall id :: id in store.rows ==> store.rows[id].family != family
      ensures world.reqs[r] ==
        if old(world).reqs[r].AtLogoutFamily? then AtLogoutToken(old(world).reqs[r].raw)
        else Done(ReuseDetected(old(world).reqs[r].tok, true))
    {
      Yield(env, r);
      DeleteFamily(family);
      Advance(r);
    }

    method RevokeToken(r: RequestId, raw: Raw, env: seq<Event>)
      requires Valid() && Excludes(env, r) && r in world.reqs && world.reqs[r] == AtLogoutToken(raw)
      modifies this, store
      ensures Valid() && log == old(log) + env + [Act(r)] && r in world.reqs
      ensures world == Then(old(world), env, r) && world.reqs[r] == Done(LoggedOut)
      ensures forall id :: id in store.rows ==> store.rows[id].hash != HashRefresh(raw)
      ensures old(world).core.revoked <= world.core.revoked
    {
      WorldIsSound();
      RunKeeps(world, env);
      Yield(env, r);
      DeleteToken(HashRefresh(raw));
      Advance(r);
    }

    method Respond(r: RequestId, env: seq<Event>)
      requires Valid() && Excludes(env, r) && r in world.reqs
      requires world.reqs[r].AtRespond? || world.reqs[r].AtLoginRespond?
      modifies this, store
      ensures Valid() && log == old(log) + env + [Act(r)] && r in world.reqs
      ensures world == Then(old(world), env, r)
      ensures world.reqs[r] == match old(world).reqs[r]
        case AtRespond(tok, heir) => Done(Rotated(tok, heir))
        case AtLoginRespond(heir) => Done(LoggedIn(heir))
        case other => other
    {
      Yield(env, r);
      Advance(r);
    }

    // ---------- the handlers ----------

    // env(k) is what happens to the server before the k-th step of this request. The answer is settled
    // by the row the string has when it is looked up, the clock when it is read after that, and in the
    // end by whether the row is still unconsumed.
    method Refresh(r: RequestId, raw: Raw, env: nat -> seq<Event>) returns (out: Response)
      requires Valid() && r !in world.reqs && (raw.Unknown? || raw in world.core.delivered)
      requires forall k: nat :: Excludes(env(k), r)
      modifies this, store
      ensures Valid() && old(log) <= log
      ensures r in world.reqs && world.reqs[r] == Done(out)
      ensures Settled(Step(old(world), BeginRefresh(r, raw)), raw, env, r, out)
      ensures out.Rotated? || out.ReuseDetected? ==> raw == Minted(out.tok.id)
      ensures out.Rotated? ==> Minted(out.heir) in world.core.delivered
      ensures out.ReuseDetected? ==> FamilyIsGone(world.core, out.tok.family)
    {
      Begin(BeginRefresh(r, raw));
      out := Decide(r, raw, env);
      if !out.Refused? {
        WorldIsReachable();
        ResponseIsTruthful(world, r, out.tok);
      }
    }

    method Decide(r: RequestId, raw: Raw, env: nat -> seq<Event>) returns (out: Response)
      requires Valid() && r in world.reqs && world.reqs[r] == AtLookup(raw) && forall k: nat :: Excludes(env(k), r)
      modifies this, store
      ensures Valid() && old(log) <= log
      ensures r in world.reqs && world.reqs[r] == Done(out)
      ensures Settled(old(world), raw, env, r, out)
      ensures out.ReuseDetected? ==> out.confirmed
      ensures out.Rotated? || out.ReuseDetected? ==> raw == Minted(out.tok.id)
    {
      var found := LookUp(r, raw, env(0));
      if found.Err? {
        return Refused;
      }
      ghost var looked := world;
      var tok := found.value;
      var expired := Check(r, tok, env(1));
      ghost var checked := world;
      out := Judge(r, tok, expired, env(2), env(3), env(4), env(5));
      SettlesBy(old(world), looked, checked, raw, env, r, tok, out);
    }

    // What follows the checks on the row.
    method Judge(r: RequestId, tok: Token, expired: bool, e: seq<Event>, f: seq<Event>, g: seq<Event>,
                 h: seq<Event>)
      returns (out: Response)
      requires Valid() && r in world.reqs && Excludes(e, r) && Excludes(f, r) && Excludes(g, r) && Excludes(h, r)
      requires world.reqs[r] ==
        if tok.consumed then AtRevokeReuse(tok) else if expired then Done(Refused) else AtLoadUser(tok)
      modifies this, store
      ensures Valid() && old(log) <= log
      ensures r in world.reqs && world.reqs[r] == Done(out)
      ensures Judged(old(world), expired, tok, e, f, g, r, out)
      ensures out.Refused? ==> world.core == if expired then old(world).core else Run(old(world), e).core
    {
      if tok.consumed {
        RevokeFamily(r, tok.family, e);
        return ReuseDetected(tok, true);
      }
      if expired {
        return Refused;
      }
      UsersStay(world, e);
      var known := LoadUser(r, tok, e);
      if !known {
        return Refused;
      }
      out := Rotate(r, tok, f, g, h);
    }

    // The rest of the refresh handler, once the user is known.
    method Rotate(r: RequestId, tok: Token, e: seq<Event>, f: seq<Event>, g: seq<Event>) returns (out: Response)
      requires Valid() && r in world.reqs && world.reqs[r] == AtMint(tok)
      requires Excludes(e, r) && Excludes(f, r) && Excludes(g, r)
      modifies this, store
      ensures Valid() && old(log) <= log
      ensures r in world.reqs && world.reqs[r] == Done(out)
      ensures var consuming := Run(Then(old(world), e, r), f).core;
        if CanConsume(consuming.rows, tok.id) then out == Rotated(tok, Run(old(world), e).core.next)
        else out == ReuseDetected(tok, true)
    {
      var heir := MintPair(r, tok.user, tok.family, e);
      var used := Consume(r, tok, heir, f);
      if used.Err? {
        RevokeFamily(r, tok.family, g);
        return ReuseDetected(tok, true);
      }
      Respond(r, g);
      return Rotated(tok, heir);
    }

    // Deletes the family the string belongs to, if any, and the string's own row.
    method Forget(r: RequestId, raw: Raw, env: nat -> seq<Event>)
      requires Valid() && r in world.reqs && world.reqs[r] == AtLogoutLookup(raw)
      requires forall k: nat :: Excludes(env(k), r)
      modifies this, store
      ensures Valid() && old(log) <= log
      ensures r in world.reqs && world.reqs[r] == Done(LoggedOut)
      ensures forall id :: id in store.rows ==> store.rows[id].hash != HashRefresh(raw)
      ensures var found := Run(old(world), env(0)).core;
        forall id :: id in found.rows && found.rows[id].hash == HashRefresh(raw) ==>
          raw == Minted(id) && found.rows[id].family in world.core.revoked
    {
      OnlyItsRow(r, raw, env(0));
      var found := LookUp(r, raw, env(0));
      if found.Ok? {
        RevokeFamily(r, found.value.family, env(1));
      }
      RevokeToken(r, raw, env(2));
    }

    // Digests are those of the strings the rows were minted with.
    lemma OnlyItsRow(r: RequestId, raw: Raw, env: seq<Event>)
      requires Valid()
      ensures var rows := Run(world, env).core.rows;
        forall id :: id in rows && rows[id].hash == HashRefresh(raw) ==> raw == Minted(id)
    {
      WorldIsSound();
      RunKeeps(world, env);
    }

    lemma RevokedIsGoneNow()
      requires Valid()
      ensures forall f :: f in world.core.revoked ==> FamilyIsGone(world.core, f)
    {
      WorldIsReachable();
      forall f | f in world.core.revoked ensures FamilyIsGone(world.core, f) {
        RevocationIsFinal(world, [], f);
      }
    }

    // Afterwards the string is worthless, and if it had a row when it was looked up, so is its family.
    method Logout(r: RequestId, raw: Raw, env: nat -> seq<Event>) returns (out: Response)
      requires Valid() && r !in world.reqs && (raw.Unknown? || raw in world.core.delivered)
      requires forall k: nat :: Excludes(env(k), r)
      modifies this, store
      ensures Valid() && old(log) <= log
      ensures r in world.reqs && world.reqs[r] == Done(out) && out == LoggedOut
      ensures forall id :: id in store.rows ==> store.rows[id].hash != HashRefresh(raw)
      ensures var found := Run(Step(old(world), BeginLogout(r, raw)), env(0)).core;
        forall id :: id in found.rows && found.rows[id].hash == HashRefresh(raw) ==>
          FamilyIsGone(world.core, found.rows[id].family)
    {
      Begin(BeginLogout(r, raw));
      Forget(r, raw, env);
      RevokedIsGoneNow();
      return LoggedOut;
    }

    // Inserts the first token of a new family.
    method MintFamily(r: RequestId, user: UserId, env: seq<Event>) returns (id: TokenId)
      requires Valid() && Excludes(env, r) && r in world.reqs && world.reqs[r] == AtLoginMint(user)
      modifies this, store
      ensures Valid() && log == old(log) + env + [Act(r)] && r in world.reqs
      ensures world.reqs[r] == AtLoginRespond(id)
      ensures id !in old(world).core.chains && Secret(world, r, id)
      ensures id in store.rows && FirstOf(store.rows[id], user, Run(old(world), env).core)
    {
      NothingForgotten(env);
      Yield(env, r);
      FamilyWillBeSecret(r);
      id := InsertFirst(r, user);
    }

    lemma FirstRow(c: Core, user: UserId)
      ensures Effect(c, AtLoginMint(user)).rows
        == Inserted(c.rows, c.next, user, c.next, HashRefresh(Minted(c.next)), c.now + c.ttl)
    {
    }

    method InsertFirst(r: RequestId, user: UserId) returns (id: TokenId)
      requires Valid() && r in world.reqs && world.reqs[r] == AtLoginMint(user)
      modifies this, store
      ensures Valid() && log == old(log) + [Act(r)] && world == Step(old(world), Act(r))
      ensures id == old(world).core.next && r in world.reqs && world.reqs[r] == AtLoginRespond(id)
      ensures id in store.rows && FirstOf(store.rows[id], user, old(world).core)
    {
      id := world.core.next;
      Insert(id, user, id, world.core.now + world.core.ttl);
      FirstRow(world.core, user);
      Advance(r);
    }

    // The end of login: the password was accepted, a new family starts. When the answer goes out, the
    // family is new, has this one token, and the token is unused, known to nobody else, belongs to the
    // user and lasts for the refresh lifetime from the moment it was inserted.
    method StartSession(r: RequestId, user: UserId, env: nat -> seq<Event>) returns (out: Response)
      requires Valid() && r !in world.reqs && forall k: nat :: Excludes(env(k), r)
      modifies this, store
      ensures Valid() && old(log) <= log
      ensures r in world.reqs && world.reqs[r] == Done(out) && out.LoggedIn?
      ensures var c, id := world.core, out.heir;
        && ChainOf(c, id) == [id] && id !in c.revoked && id !in old(world).core.chains
        && CanConsume(c.rows, id) && c.rows[id].family == id && Minted(id) in c.delivered
        && Unheard(world, id)
        && FirstOf(c.rows[id], user, Run(Step(old(world), BeginLogin(r, user)), env(0)).core)
    {
      Begin(BeginLogin(r, user));
      var id := MintFamily(r, user, env(0));
      assert old(log) <= log;
      KeepSecret(env(1), r, id);
      assert old(log) <= log;
      Answer(r, id);
      return LoggedIn(id);
    }

    lemma WorldIsSound()
      requires Valid()
      ensures Inv(world)
    {
      WorldIsReachable();
      ReachableInv(world);
    }

    lemma FamilyWillBeSecret(r: RequestId)
      requires Valid() && r in world.reqs && world.reqs[r].AtLoginMint?
      ensures world.core.next !in world.core.chains && Secret(Step(world, Act(r)), r, world.core.next)
    {
      WorldIsSound();
      NewFamilyIsSecret(world, r);
    }

    // Families are never forgotten.
    lemma NothingForgotten(env: seq<Event>)
      requires Valid()
      ensures forall f :: f in world.core.chains ==> f in Run(world, env).core.chains
    {
      WorldIsSound();
      RunKeeps(world, env);
    }

    // Others run while r keeps the token to itself.
    method KeepSecret(env: seq<Event>, r: RequestId, id: TokenId)
      requires Valid() && Excludes(env, r) && r in world.reqs && Secret(world, r, id)
      modifies this, store
      ensures Valid() && log == old(log) + env && Secret(world, r, id)
      ensures id in old(store.rows) && id in store.rows && SameRow(old(store.rows)[id], store.rows[id])
      ensures r in world.reqs && world.reqs[r] == old(world).reqs[r]
    {
      WorldIsSound();
      SecretIsSafe(world, env, r, id);
      RowsStaySame(world, env, id);
      Yield(env, r);
    }

    // The answer tells the secret; until then nothing has happened to the family.
    method Answer(r: RequestId, id: TokenId)
      requires Valid() && r in world.reqs && world.reqs[r] == AtLoginRespond(id) && Secret(world, r, id)
      modifies this, store
      ensures Valid() && log == old(log) + [Act(r)] && store.rows == old(store.rows)
      ensures r in world.reqs && world.reqs[r] == Done(LoggedIn(id))
      ensures Told(world, id)
    {
      SecretIsTold(world, r, id);
      Advance(r);
    }
  }

  // The family has one token, alive and unconsumed; its client has it, and no request works on it.
  ghost predicate Told(w: World, id: TokenId) {
    && ChainOf(w.core, id) == [id] && id !in w.core.revoked
    && CanConsume(w.core.rows, id) && w.core.rows[id].family == id && Minted(id) in w.core.delivered
    && Unheard(w, id)
  }

  lemma SecretIsTold(w: World, r: RequestId, id: TokenId)
    requires r in w.reqs && w.reqs[r] == AtLoginRespond(id) && Secret(w, r, id)
    ensures Told(Step(w, Act(r)), id)
  {
  }
}
