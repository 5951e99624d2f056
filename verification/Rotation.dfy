/**
 Refresh-token rotation as a protocol of interleaved requests.

 A request is a program counter plus the local variables of its handler. Between two
 steps of one request any number of steps of other requests may happen; the only atomic
 actions are single statements on the token table and the delivery of a response.
 A run is any sequence of events: an event that cannot happen leaves the world as it is.
 */
module Rotation {
  import opened Outcomes
  import opened RefreshStore

  type RequestId = nat

  // Everything the requests share. The last four fields are history the server does not store.
  datatype Core = Core(
    rows: Table,
    users: set<UserId>,
    now: int,
    ttl: int,
    next: nat,                              // supply of fresh ids, strings and families
    minted: map<TokenId, FamilyId>,         // every row ever inserted
    chains: map<FamilyId, seq<TokenId>>,    // login root, then the successor of each successful consume
    delivered: set<Raw>,                    // strings sent to a client in a 200
    revoked: set<FamilyId>,                 // families deleted by RevokeRefreshFamily
    faulted: bool)                          // some store call has failed

  datatype Pc =
    // refreshHandler
    | AtLookup(raw: Raw)
    | AtCheck(tok: Token)
    | AtLoadUser(tok: Token)
    | AtMint(tok: Token)
    | AtConsume(tok: Token, heir: TokenId)
    | AtRevokeReuse(tok: Token)
    | AtRevokeRace(tok: Token)
    | AtRespond(tok: Token, heir: TokenId)
    // logout
    | AtLogoutLookup(raw: Raw)
    | AtLogoutFamily(raw: Raw, family: FamilyId)
    | AtLogoutToken(raw: Raw)
    // the tail of login, once the password has been accepted
    | AtLoginMint(user: UserId)
    | AtLoginRespond(heir: TokenId)
    | Done(result: Response)

  datatype Response =
    | Rotated(tok: Token, heir: TokenId)     // 200 with the new pair
    | Lost(tok: Token, heir: TokenId)        // that 200 never arrived
    | ReuseDetected(tok: Token, confirmed: bool)  // 401; whether the revocation reported success is not told
    | Refused                                 // 401, nothing changed
    | Failed                                  // 500
    | LoggedOut                               // 200 of logout
    | LoggedIn(heir: TokenId)                // 200 of login
    | LoginLost(heir: TokenId)

  datatype World = World(core: Core, reqs: map<RequestId, Pc>)

  datatype Event =
    | BeginRefresh(r: RequestId, raw: Raw)
    | BeginLogout(r: RequestId, raw: Raw)
    | BeginLogin(r: RequestId, user: UserId)
    | Act(r: RequestId)                       // the next atomic step of r
    | Fault(r: RequestId, applied: bool)      // r's store call reports an error, with or without effect
    | Lose(r: RequestId)                      // r's response is lost on the way
    | Tick(d: nat)

  // A generated string is known to a client only once it was delivered.
  predicate Presentable(c: Core, raw: Raw) {
    raw.Unknown? || raw in c.delivered
  }

  function ChainOf(c: Core, family: FamilyId): seq<TokenId> {
    if family in c.chains then c.chains[family] else []
  }

  // InsertRefreshToken as mintPair calls it.
  function Mint(c: Core, user: UserId, family: FamilyId): Core {
    c.(rows := Inserted(c.rows, c.next, user, family, HashRefresh(Minted(c.next)), c.now + c.ttl),
       minted := c.minted[c.next := family],
       next := c.next + 1)
  }

  function Commit(c: Core, tok: Token, heir: TokenId): Core {
    if CanConsume(c.rows, tok.id) then
      c.(rows := Consumed(c.rows, tok.id, heir),
         chains := c.chains[tok.family := ChainOf(c, tok.family) + [heir]])
    else c
  }

  function Revoke(c: Core, family: FamilyId): Core {
    c.(rows := WithoutFamily(c.rows, family), revoked := c.revoked + {family})
  }

  function Deliver(c: Core, heir: TokenId): Core {
    c.(delivered := c.delivered + {Minted(heir)})
  }

  function StartFamily(c: Core, user: UserId): Core {
    Mint(c, user, c.next).(chains := c.chains[c.next := [c.next]])
  }

  // What the step at pc does to the shared state ...
  function Effect(c: Core, pc: Pc): Core {
    match pc
    case AtMint(tok) => Mint(c, tok.user, tok.family)
    case AtConsume(tok, heir) => Commit(c, tok, heir)
    case AtRevokeReuse(tok) => Revoke(c, tok.family)
    case AtRevokeRace(tok) => Revoke(c, tok.family)
    case AtRespond(_, heir) => Deliver(c, heir)
    case AtLogoutFamily(_, family) => Revoke(c, family)
    case AtLogoutToken(raw) => c.(rows := WithoutHash(c.rows, HashRefresh(raw)))
    case AtLoginMint(user) => StartFamily(c, user)
    case AtLoginRespond(heir) => Deliver(c, heir)
    case _ => c
  }

  // ... and where the request goes next.
  function Next(c: Core, pc: Pc): Pc {
    match pc
    case AtLookup(raw) =>
      (match Lookup(c.rows, HashRefresh(raw))
       case Some(tok) => AtCheck(tok)
       case None => Done(Refused))
    case AtCheck(tok) =>
      if tok.consumed then AtRevokeReuse(tok)
      else if tok.expires < c.now then Done(Refused)
      else AtLoadUser(tok)
    case AtLoadUser(tok) => if tok.user in c.users then AtMint(tok) else Done(Refused)
    case AtMint(tok) => AtConsume(tok, c.next)
    case AtConsume(tok, heir) =>
      if CanConsume(c.rows, tok.id) then AtRespond(tok, heir) else AtRevokeRace(tok)
    case AtRevokeReuse(tok) => Done(ReuseDetected(tok, true))
    case AtRevokeRace(tok) => Done(ReuseDetected(tok, true))
    case AtRespond(tok, heir) => Done(Rotated(tok, heir))
    case AtLogoutLookup(raw) =>
      (match Lookup(c.rows, HashRefresh(raw))
       case Some(tok) => AtLogoutFamily(raw, tok.family)
       case None => AtLogoutToken(raw))
    case AtLogoutFamily(raw, _) => AtLogoutToken(raw)
    case AtLogoutToken(_) => Done(LoggedOut)
    case AtLoginMint(_) => AtLoginRespond(c.next)
    case AtLoginRespond(heir) => Done(LoggedIn(heir))
    case Done(_) => pc
  }

  predicate CallsStore(pc: Pc) {
    !pc.AtCheck? && !pc.AtRespond? && !pc.AtLoginRespond? && !pc.Done?
  }

  // Where a request goes when its store call reports an error.
  function OnFault(pc: Pc): Pc {
    match pc
    case AtRevokeRace(tok) => Done(ReuseDetected(tok, false))  // the error is ignored
    case AtLogoutLookup(raw) => AtLogoutToken(raw)
    case AtLogoutFamily(raw, _) => AtLogoutToken(raw)       // the error is ignored
    case _ => Done(Failed)
  }

  function OnLoss(pc: Pc): Pc {
    match pc
    case AtRespond(tok, heir) => Done(Lost(tok, heir))
    case AtLoginRespond(heir) => Done(LoginLost(heir))
    case _ => pc
  }

  predicate Enabled(w: World, e: Event) {
    match e
    case BeginRefresh(r, raw) => r !in w.reqs && Presentable(w.core, raw)
    case BeginLogout(r, raw) => r !in w.reqs && Presentable(w.core, raw)
    case BeginLogin(r, _) => r !in w.reqs
    case Act(r) => r in w.reqs && !w.reqs[r].Done?
    case Fault(r, _) => r in w.reqs && CallsStore(w.reqs[r])
    case Lose(r) => r in w.reqs && (w.reqs[r].AtRespond? || w.reqs[r].AtLoginRespond?)
    case Tick(_) => true
  }

  function Step(w: World, e: Event): World {
    if !Enabled(w, e) then w
    else
      match e
      case BeginRefresh(r, raw) => w.(reqs := w.reqs[r := AtLookup(raw)])
      case BeginLogout(r, raw) => w.(reqs := w.reqs[r := AtLogoutLookup(raw)])
      case BeginLogin(r, user) => w.(reqs := w.reqs[r := AtLoginMint(user)])
      case Act(r) => World(Effect(w.core, w.reqs[r]), w.reqs[r := Next(w.core, w.reqs[r])])
      case Fault(r, applied) =>
        var c := if applied then Effect(w.core, w.reqs[r]) else w.core;
        World(c.(faulted := true), w.reqs[r := OnFault(w.reqs[r])])
      case Lose(r) => w.(reqs := w.reqs[r := OnLoss(w.reqs[r])])
      case Tick(d) => w.(core := w.core.(now := w.core.now + d))
  }

  function Run(w: World, run: seq<Event>): World
    decreases |run|
  {
    if run == [] then w else Run(Step(w, run[0]), run[1..])
  }

  lemma {:induction false} RunConcat(w: World, a: seq<Event>, b: seq<Event>)
    ensures Run(w, a + b) == Run(Run(w, a), b)
    decreases |a|
  {
    if a == [] {
      assert a + b == b;
    } else {
      assert (a + b)[0] == a[0] && (a + b)[1..] == a[1..] + b;
      RunConcat(Step(w, a[0]), a[1..], b);
    }
  }

  function Init(users: set<UserId>, now: int, ttl: int): World {
    World(Core(map[], users, now, ttl, 0, map[], map[], {}, {}, false), map[])
  }

  ghost predicate Reachable(w: World) {
    exists users, now, ttl, run :: w == Run(Init(users, now, ttl), run)
  }
}
