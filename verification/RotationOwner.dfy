/** A family belongs to the user who logged in, and a row lasts until its expiry. */
module RotationOwner {
  import opened RefreshStore
  import opened Rotation
  import opened RotationInvariant
  import opened RotationTheorems

  // Who started which family.
  type Owners = map<FamilyId, UserId>

  predicate Owns(owners: Owners, family: FamilyId, user: UserId) {
    family in owners && owners[family] == user
  }

  predicate RequestOwned(owners: Owners, pc: Pc) {
    match pc
    case AtCheck(tok) => Owns(owners, tok.family, tok.user)
    case AtLoadUser(tok) => Owns(owners, tok.family, tok.user)
    case AtMint(tok) => Owns(owners, tok.family, tok.user)
    case _ => true
  }

  predicate RowsOwned(owners: Owners, rows: Table) {
    forall id :: id in rows ==> Owns(owners, rows[id].family, rows[id].user)
  }

  ghost predicate Owned(w: World, owners: Owners) {
    && owners.Keys == w.core.chains.Keys
    && RowsOwned(owners, w.core.rows)
    && forall r :: r in w.reqs ==> RequestOwned(owners, w.reqs[r])
  }

  ghost predicate Extends(more: Owners, owners: Owners) {
    forall f :: f in owners ==> Owns(more, f, owners[f])
  }

  // A login that inserts its first row founds a family.
  function Founded(owners: Owners, c: Core, pc: Pc): Owners {
    match pc
    case AtLoginMint(user) => owners[c.next := user]
    case _ => owners
  }

  lemma ChainKeys(c: Core, pc: Pc)
    requires pc.AtConsume? ==> pc.tok.family in c.chains
    ensures Effect(c, pc).chains.Keys == c.chains.Keys + if pc.AtLoginMint? then {c.next} else {}
  {
  }

  lemma EffectRowsOwned(c: Core, pc: Pc, owners: Owners)
    requires RowsOwned(owners, c.rows) && RequestOwned(owners, pc) && c.next !in owners
    ensures RowsOwned(Founded(owners, c, pc), Effect(c, pc).rows)
  {
  }

  lemma EffectKeepsOwners(c: Core, pc: Pc, owners: Owners)
    requires CoreInv(c) && PcOk(c, pc) && owners.Keys == c.chains.Keys && RowsOwned(owners, c.rows)
    requires RequestOwned(owners, pc)
    ensures var more, d := Founded(owners, c, pc), Effect(c, pc);
      Extends(more, owners) && more.Keys == d.chains.Keys && RowsOwned(more, d.rows)
  {
    NextUnused(c);
    ChainKeys(c, pc);
    EffectRowsOwned(c, pc, owners);
  }

  lemma NextKeepsOwner(c: Core, pc: Pc, owners: Owners)
    requires RowsOwned(owners, c.rows) && RequestOwned(owners, pc)
    ensures RequestOwned(owners, Rotation.Next(c, pc))
  {
  }

  lemma MoreOwned(more: Owners, owners: Owners, pc: Pc)
    requires Extends(more, owners) && RequestOwned(owners, pc)
    ensures RequestOwned(more, pc)
  {
  }

  lemma ActKeepsOwners(w: World, r: RequestId, owners: Owners, v: World)
    requires Inv(w) && Owned(w, owners) && r in w.reqs && v.reqs.Keys == w.reqs.Keys
    requires forall q :: q in w.reqs && q != r ==> v.reqs[q] == w.reqs[q]
    requires v.core.rows == Effect(w.core, w.reqs[r]).rows && v.core.chains == Effect(w.core, w.reqs[r]).chains
    requires RequestOwned(owners, v.reqs[r])
    ensures var more := Founded(owners, w.core, w.reqs[r]); Owned(v, more) && Extends(more, owners)
  {
    var more := Founded(owners, w.core, w.reqs[r]);
    EffectKeepsOwners(w.core, w.reqs[r], owners);
    forall q | q in v.reqs ensures RequestOwned(more, v.reqs[q]) {
      MoreOwned(more, owners, v.reqs[q]);
    }
  }

  lemma StepKeepsOwners(w: World, e: Event, owners: Owners) returns (more: Owners)
    requires Inv(w) && Owned(w, owners)
    ensures Owned(Step(w, e), more) && Extends(more, owners)
  {
    more := owners;
    if Enabled(w, e) && (e.Act? || (e.Fault? && e.applied)) {
      NextKeepsOwner(w.core, w.reqs[e.r], owners);
      ActKeepsOwners(w, e.r, owners, Step(w, e));
      more := Founded(owners, w.core, w.reqs[e.r]);
    }
  }

  lemma {:induction false} RunKeepsOwners(w: World, run: seq<Event>, owners: Owners) returns (more: Owners)
    requires Inv(w) && Owned(w, owners)
    ensures Owned(Run(w, run), more) && Extends(more, owners)
    decreases |run|
  {
    more := owners;
    if run != [] {
      more := StepKeepsOwners(w, run[0], owners);
      StepKeeps(w, run[0]);
      more := RunKeepsOwners(Step(w, run[0]), run[1..], more);
    }
  }

  lemma ReachableIsOwned(w: World) returns (owners: Owners)
    requires Reachable(w)
    ensures Owned(w, owners)
  {
    var users, now, ttl, run :| w == Run(Init(users, now, ttl), run);
    owners := RunKeepsOwners(Init(users, now, ttl), run, map[]);
  }

  // Every row of a family, however much later it is inserted and whatever was deleted in between, belongs
  // to one user.
  lemma FamilyHasOneUser(w: World, run: seq<Event>, a: TokenId, b: TokenId)
    requires Reachable(w) && a in w.core.rows && b in Run(w, run).core.rows
    requires w.core.rows[a].family == Run(w, run).core.rows[b].family
    ensures w.core.rows[a].user == Run(w, run).core.rows[b].user
  {
    var owners := ReachableIsOwned(w);
    ReachableInv(w);
    var more := RunKeepsOwners(w, run, owners);
  }

  // What a row says does not change while it is in the table, apart from being consumed.
  predicate SameRow(a: Row, b: Row) {
    a.user == b.user && a.family == b.family && a.hash == b.hash && a.expires == b.expires
  }

  lemma EffectKeepsRow(c: Core, pc: Pc, id: TokenId)
    requires c.next !in c.rows && id in Effect(c, pc).rows
    ensures id in c.rows ==> SameRow(c.rows[id], Effect(c, pc).rows[id])
    ensures id !in c.rows ==> Effect(c, pc).rows[id].expires == c.now + c.ttl && CanConsume(Effect(c, pc).rows, id)
  {
  }

  // A row that appears lasts for the refresh lifetime from now, and can be consumed; one that stays is
  // the same.
  lemma StepKeepsRow(w: World, e: Event, id: TokenId)
    requires Inv(w) && id in Step(w, e).core.rows
    ensures id in w.core.rows ==> SameRow(w.core.rows[id], Step(w, e).core.rows[id])
    ensures id !in w.core.rows ==>
      Step(w, e).core.rows[id].expires == w.core.now + w.core.ttl && CanConsume(Step(w, e).core.rows, id)
  {
    NextUnused(w.core);
    if Enabled(w, e) && (e.Act? || (e.Fault? && e.applied)) {
      EffectKeepsRow(w.core, w.reqs[e.r], id);
    }
  }

  lemma {:induction false} RowsStaySame(w: World, run: seq<Event>, id: TokenId)
    requires Inv(w) && id in w.core.rows && id in Run(w, run).core.rows
    ensures SameRow(w.core.rows[id], Run(w, run).core.rows[id])
    decreases |run|
  {
    if run != [] {
      StepKeeps(w, run[0]);
      RunKeeps(Step(w, run[0]), run[1..]);
      StepKeepsRow(w, run[0], id);
      RowsStaySame(Step(w, run[0]), run[1..], id);
    }
  }

  // How far the clock moves during a run.
  function Elapsed(run: seq<Event>): int {
    if run == [] then 0 else (if run[0].Tick? then run[0].d else 0) + Elapsed(run[1..])
  }

  lemma {:induction false} ClockAdvances(w: World, run: seq<Event>)
    ensures Run(w, run).core.now == w.core.now + Elapsed(run)
    decreases |run|
  {
    if run != [] {
      ClockAdvances(Step(w, run[0]), run[1..]);
    }
  }

  // Once the clock has passed its expiry a token is useless, whatever is done.
  lemma ExpiryIsFinal(w: World, run: seq<Event>, id: TokenId)
    requires Reachable(w) && id in w.core.rows && w.core.rows[id].expires < w.core.now + Elapsed(run)
    ensures !Usable(Run(w, run).core, id)
  {
    ReachableInv(w);
    ClockAdvances(w, run);
    if id in Run(w, run).core.rows {
      RowsStaySame(w, run, id);
    }
  }
}
