/** What every answer rests on, told from the events of a run and the states it went through. */
module RotationChecks {
  import opened Outcomes
  import opened RefreshStore
  import opened Rotation
  import opened RotationInvariant
  import opened RotationTheorems

  lemma RunNext(w: World, run: seq<Event>, n: nat)
    requires n < |run|
    ensures Run(w, run[..n + 1]) == Step(Run(w, run[..n]), run[n])
  {
    assert run[..n + 1] == run[..n] + [run[n]];
    RunConcat(w, run[..n], [run[n]]);
    assert Run(Run(w, run[..n]), [run[n]]) == Step(Run(w, run[..n]), run[n]);
  }

  // ---------- a 200 of the refresh handler ----------

  // Before event n, request r was begun with the string raw.
  ghost predicate Asked(run: seq<Event>, n: nat, r: RequestId, raw: Raw) {
    exists i :: 0 <= i < n && i < |run| && run[i] == BeginRefresh(r, raw)
  }

  // Before event j the table held the row tok describes, and r had asked with its string.
  ghost predicate HeldAt(w: World, run: seq<Event>, j: nat, r: RequestId, tok: Token) {
    && j <= |run| && Asked(run, j, r, Minted(tok.id))
    && Found(Run(w, run[..j]).core.rows, HashRefresh(Minted(tok.id)), tok)
  }

  ghost predicate Held(w: World, run: seq<Event>, n: nat, r: RequestId, tok: Token) {
    exists j :: 0 <= j < n && HeldAt(w, run, j, r, tok)
  }

  // Later, before event k, that row had not expired.
  ghost predicate TimelyAt(w: World, run: seq<Event>, k: nat, r: RequestId, tok: Token) {
    k <= |run| && Held(w, run, k, r, tok) && Run(w, run[..k]).core.now <= tok.expires
  }

  ghost predicate Timely(w: World, run: seq<Event>, n: nat, r: RequestId, tok: Token) {
    exists k :: 0 <= k < n && TimelyAt(w, run, k, r, tok)
  }

  // And the row heir did not exist yet.
  ghost predicate EarnedAt(w: World, run: seq<Event>, k: nat, r: RequestId, tok: Token, heir: TokenId) {
    TimelyAt(w, run, k, r, tok) && heir !in Run(w, run[..k]).core.minted
  }

  ghost predicate Earned(w: World, run: seq<Event>, n: nat, r: RequestId, tok: Token, heir: TokenId) {
    && (exists k :: 0 <= k < n && EarnedAt(w, run, k, r, tok, heir))
    && !tok.consumed && tok.user in w.core.users
  }

  // ---------- a 401 and a 500 of the refresh handler ----------

  // The row was found consumed, or it was found and could not be consumed later.
  ghost predicate Reused(w: World, run: seq<Event>, n: nat, r: RequestId, tok: Token) {
    Held(w, run, n, r, tok) && (tok.consumed || exists k :: 0 <= k < n && GoneAt(w, run, k, r, tok))
  }

  ghost predicate GoneAt(w: World, run: seq<Event>, k: nat, r: RequestId, tok: Token) {
    k <= |run| && Held(w, run, k, r, tok) && !CanConsume(Run(w, run[..k]).core.rows, tok.id)
  }

  // No row carried the string presented, or the row that did had expired or its user is not known.
  ghost predicate Refusable(w: World, run: seq<Event>, n: nat, r: RequestId) {
    || (exists raw, j :: 0 <= j < n && UnknownAt(w, run, j, r, raw))
    || (exists tok, k :: 0 <= k < n && LateAt(w, run, k, r, tok))
    || (exists tok :: Held(w, run, n, r, tok) && tok.user !in w.core.users)
  }

  ghost predicate UnknownAt(w: World, run: seq<Event>, j: nat, r: RequestId, raw: Raw) {
    && j <= |run| && Asked(run, j, r, raw)
    && forall id :: id in Run(w, run[..j]).core.rows ==> Run(w, run[..j]).core.rows[id].hash != HashRefresh(raw)
  }

  ghost predicate LateAt(w: World, run: seq<Event>, k: nat, r: RequestId, tok: Token) {
    k <= |run| && Held(w, run, k, r, tok) && !tok.consumed && tok.expires < Run(w, run[..k]).core.now
  }

  // Event k is a failure of a store call of r, and not one of those whose error the handlers ignore.
  ghost predicate FaultAt(w: World, run: seq<Event>, k: nat, r: RequestId) {
    && k < |run| && run[k].Fault? && run[k].r == r
    && var v := Run(w, run[..k]);
       && r in v.reqs && CallsStore(v.reqs[r])
       && !v.reqs[r].AtRevokeRace? && !v.reqs[r].AtLogoutLookup? && !v.reqs[r].AtLogoutFamily?
  }

  ghost predicate Faulted(w: World, run: seq<Event>, n: nat, r: RequestId) {
    exists k :: 0 <= k < n && FaultAt(w, run, k, r)
  }

  // ---------- by induction over the run ----------

  // What a request at pc has behind it.
  ghost predicate Behind(w: World, run: seq<Event>, n: nat, r: RequestId, pc: Pc) {
    match pc
    case AtLookup(raw) => Asked(run, n, r, raw)
    case AtCheck(tok) => Held(w, run, n, r, tok)
    case AtLoadUser(tok) => Timely(w, run, n, r, tok) && !tok.consumed
    case AtMint(tok) => Timely(w, run, n, r, tok) && !tok.consumed && tok.user in w.core.users
    case AtConsume(tok, heir) => Earned(w, run, n, r, tok, heir)
    case AtRespond(tok, heir) => Earned(w, run, n, r, tok, heir)
    case Done(Rotated(tok, heir)) => Earned(w, run, n, r, tok, heir)
    case Done(Lost(tok, heir)) => Earned(w, run, n, r, tok, heir)
    case AtRevokeReuse(tok) => Reused(w, run, n, r, tok)
    case AtRevokeRace(tok) => Reused(w, run, n, r, tok)
    case Done(ReuseDetected(tok, _)) => Reused(w, run, n, r, tok)
    case Done(Refused) => Refusable(w, run, n, r)
    case Done(Failed) => Faulted(w, run, n, r)
    case _ => true
  }

  lemma {:induction false} UsersStay(w: World, run: seq<Event>)
    ensures Run(w, run).core.users == w.core.users
    decreases |run|
  {
    if run != [] {
      UsersStay(Step(w, run[0]), run[1..]);
    }
  }

  lemma HeldStays(w: World, run: seq<Event>, n: nat, r: RequestId)
    requires n < |run|
    ensures forall tok :: Held(w, run, n, r, tok) ==> Held(w, run, n + 1, r, tok)
    ensures Refusable(w, run, n, r) ==> Refusable(w, run, n + 1, r)
  {
  }

  lemma BehindStays(w: World, run: seq<Event>, n: nat, r: RequestId, pc: Pc)
    requires n < |run| && Behind(w, run, n, r, pc)
    ensures Behind(w, run, n + 1, r, pc)
  {
    HeldStays(w, run, n, r);
  }

  // What did not exist at the end did not exist before.
  lemma NextWasUnused(w: World, run: seq<Event>, k: nat, n: nat)
    requires Inv(w) && k <= n <= |run|
    ensures Run(w, run[..n]).core.next !in Run(w, run[..k]).core.minted
  {
    RunKeeps(w, run[..k]);
    assert run[..n] == run[..k] + run[k..n];
    RunConcat(w, run[..k], run[k..n]);
    RunKeeps(Run(w, run[..k]), run[k..n]);
  }

  lemma MintIsEarned(w: World, run: seq<Event>, n: nat, r: RequestId, tok: Token)
    requires Inv(w) && n < |run| && Behind(w, run, n, r, AtMint(tok))
    ensures Earned(w, run, n + 1, r, tok, Run(w, run[..n]).core.next)
  {
    var k :| 0 <= k < n && TimelyAt(w, run, k, r, tok);
    NextWasUnused(w, run, k, n);
    assert EarnedAt(w, run, k, r, tok, Run(w, run[..n]).core.next);
  }

  lemma LookupIsHeld(w: World, run: seq<Event>, n: nat, r: RequestId, raw: Raw)
    requires n < |run| && Asked(run, n, r, raw)
    requires CoreInv(Run(w, run[..n]).core) && Presentable(Run(w, run[..n]).core, raw)
    ensures var found := Lookup(Run(w, run[..n]).core.rows, HashRefresh(raw));
      found.Some? ==> Held(w, run, n + 1, r, found.value)
  {
    FoundIsPresented(Run(w, run[..n]).core, raw);
    var found := Lookup(Run(w, run[..n]).core.rows, HashRefresh(raw));
    if found.Some? {
      assert HeldAt(w, run, n, r, found.value);
    }
  }

  lemma UnfoundIsRefusable(w: World, run: seq<Event>, n: nat, r: RequestId, raw: Raw)
    requires n < |run| && Asked(run, n, r, raw) && CoreInv(Run(w, run[..n]).core)
    requires Lookup(Run(w, run[..n]).core.rows, HashRefresh(raw)) == None
    ensures Refusable(w, run, n + 1, r)
  {
    HashesUnique(Run(w, run[..n]).core);
    assert UnknownAt(w, run, n, r, raw);
  }

  lemma CheckAddsBehind(w: World, run: seq<Event>, n: nat, r: RequestId, tok: Token)
    requires n < |run| && Held(w, run, n, r, tok)
    ensures Behind(w, run, n + 1, r, Rotation.Next(Run(w, run[..n]).core, AtCheck(tok)))
  {
    HeldStays(w, run, n, r);
    if !tok.consumed {
      if Run(w, run[..n]).core.now <= tok.expires {
        assert TimelyAt(w, run, n, r, tok);
      } else {
        assert LateAt(w, run, n, r, tok);
      }
    }
  }

  lemma TimelyIsHeld(w: World, run: seq<Event>, n: nat, r: RequestId, tok: Token)
    requires Timely(w, run, n, r, tok)
    ensures Held(w, run, n, r, tok)
  {
    var k :| 0 <= k < n && TimelyAt(w, run, k, r, tok);
    var j :| 0 <= j < k && HeldAt(w, run, j, r, tok);
  }

  lemma LoadAddsBehind(w: World, run: seq<Event>, n: nat, r: RequestId, tok: Token)
    requires n < |run| && Behind(w, run, n, r, AtLoadUser(tok))
    ensures Behind(w, run, n + 1, r, Rotation.Next(Run(w, run[..n]).core, AtLoadUser(tok)))
  {
    UsersStay(w, run[..n]);
    TimelyIsHeld(w, run, n, r, tok);
    HeldStays(w, run, n, r);
    BehindStays(w, run, n, r, AtLoadUser(tok));
  }

  lemma ConsumeAddsBehind(w: World, run: seq<Event>, n: nat, r: RequestId, tok: Token, heir: TokenId)
    requires n < |run| && Behind(w, run, n, r, AtConsume(tok, heir))
    ensures Behind(w, run, n + 1, r, Rotation.Next(Run(w, run[..n]).core, AtConsume(tok, heir)))
  {
    BehindStays(w, run, n, r, AtConsume(tok, heir));
    if !CanConsume(Run(w, run[..n]).core.rows, tok.id) {
      var k :| 0 <= k < n && EarnedAt(w, run, k, r, tok, heir);
      TimelyIsHeld(w, run, n, r, tok);
      HeldStays(w, run, n, r);
      assert GoneAt(w, run, n, r, tok);
    }
  }

  lemma LookupAddsBehind(w: World, run: seq<Event>, n: nat, r: RequestId, raw: Raw)
    requires n < |run| && Asked(run, n, r, raw)
    requires CoreInv(Run(w, run[..n]).core) && Presentable(Run(w, run[..n]).core, raw)
    ensures Behind(w, run, n + 1, r, Rotation.Next(Run(w, run[..n]).core, AtLookup(raw)))
  {
    LookupIsHeld(w, run, n, r, raw);
    if Lookup(Run(w, run[..n]).core.rows, HashRefresh(raw)) == None {
      UnfoundIsRefusable(w, run, n, r, raw);
    }
  }

  // Answering, revoking and logging out add nothing.
  lemma EndAddsNothing(w: World, run: seq<Event>, n: nat, r: RequestId, pc: Pc, c: Core)
    requires n < |run| && Behind(w, run, n, r, pc)
    requires !pc.AtLookup? && !pc.AtCheck? && !pc.AtLoadUser? && !pc.AtMint? && !pc.AtConsume?
    ensures Behind(w, run, n + 1, r, Rotation.Next(c, pc))
  {
    BehindStays(w, run, n, r, pc);
  }

  lemma ActAddsBehind(w: World, run: seq<Event>, n: nat, r: RequestId, pc: Pc)
    requires Inv(w) && n < |run| && Behind(w, run, n, r, pc)
    requires CoreInv(Run(w, run[..n]).core) && PcOk(Run(w, run[..n]).core, pc)
    ensures Behind(w, run, n + 1, r, Rotation.Next(Run(w, run[..n]).core, pc))
  {
    match pc
    case AtLookup(raw) => LookupAddsBehind(w, run, n, r, raw);
    case AtCheck(tok) => CheckAddsBehind(w, run, n, r, tok);
    case AtLoadUser(tok) => LoadAddsBehind(w, run, n, r, tok);
    case AtMint(tok) => MintIsEarned(w, run, n, r, tok);
    case AtConsume(tok, heir) => ConsumeAddsBehind(w, run, n, r, tok, heir);
    case _ => EndAddsNothing(w, run, n, r, pc, Run(w, run[..n]).core);
  }

  // One event: either r is not concerned, or it begins, moves on, fails or loses its answer.
  lemma EventAddsBehind(w: World, run: seq<Event>, n: nat, r: RequestId, v: World)
    requires n < |run| && r in v.reqs
    requires v == Run(w, run[..n])
    requires Behind(w, run, n + 1, r, v.reqs[r]) && Behind(w, run, n + 1, r, Rotation.Next(v.core, v.reqs[r]))
    ensures Behind(w, run, n + 1, r, Step(v, run[n]).reqs[r])
  {
    if run[n].Fault? && run[n].r == r && CallsStore(v.reqs[r]) {
      assert OnFault(v.reqs[r]) == Done(Failed) ==> FaultAt(w, run, n, r);
    }
  }

  lemma BeginAddsBehind(w: World, run: seq<Event>, n: nat, r: RequestId, v: World)
    requires n < |run| && r !in v.reqs
    ensures r in Step(v, run[n]).reqs ==> Behind(w, run, n + 1, r, Step(v, run[n]).reqs[r])
  {
  }

  lemma {:induction false} BehindAlways(w: World, run: seq<Event>, n: nat, r: RequestId)
    requires Inv(w) && r !in w.reqs && n <= |run|
    ensures var v := Run(w, run[..n]); r in v.reqs ==> Behind(w, run, n, r, v.reqs[r])
  {
    if n > 0 {
      var v := Run(w, run[..n - 1]);
      BehindAlways(w, run, n - 1, r);
      RunKeeps(w, run[..n - 1]);
      RunNext(w, run, n - 1);
      if r in v.reqs {
        BehindStays(w, run, n - 1, r, v.reqs[r]);
        ActAddsBehind(w, run, n - 1, r, v.reqs[r]);
        EventAddsBehind(w, run, n - 1, r, v);
      } else {
        BeginAddsBehind(w, run, n - 1, r, v);
      }
    }
  }

  // A request that obtained a new pair had asked with the string of the token it exchanged; after that
  // the table held this token, not consumed, and later again, before the new one existed, the clock had
  // not passed its expiry. Its user is known.
  lemma ExchangeWasEarned(w: World, run: seq<Event>, r: RequestId, tok: Token, heir: TokenId)
    requires Reachable(w) && r !in w.reqs && r in Run(w, run).reqs
    requires Run(w, run).reqs[r] == Done(Rotated(tok, heir)) || Run(w, run).reqs[r] == Done(Lost(tok, heir))
    ensures !tok.consumed && tok.user in w.core.users
    ensures exists i, j, k :: 0 <= i < j < k < |run| && Exchange(w, run, i, j, k, r, tok, heir)
  {
    ReachableInv(w);
    assert run[..|run|] == run;
    BehindAlways(w, run, |run|, r);
    var k :| 0 <= k < |run| && EarnedAt(w, run, k, r, tok, heir);
    var j :| 0 <= j < k && HeldAt(w, run, j, r, tok);
    var i :| 0 <= i < j && run[i] == BeginRefresh(r, Minted(tok.id));
    assert Exchange(w, run, i, j, k, r, tok, heir);
  }

  // Asked at i, found at j, in time at k.
  ghost predicate Exchange(w: World, run: seq<Event>, i: nat, j: nat, k: nat, r: RequestId, tok: Token, heir: TokenId)
    requires i < j < k < |run|
  {
    && run[i] == BeginRefresh(r, Minted(tok.id))
    && Found(Run(w, run[..j]).core.rows, HashRefresh(Minted(tok.id)), tok)
    && Run(w, run[..k]).core.now <= tok.expires
    && heir !in Run(w, run[..k]).core.minted
  }

  // A request that began after w and was refused had presented a string no row carried, or that of a row
  // that had expired or whose user is not known; one that was told of reuse had presented the string of
  // a row that was consumed when found, or could not be consumed later.
  lemma RefusalHasCause(w: World, run: seq<Event>, r: RequestId)
    requires Reachable(w) && r !in w.reqs && r in Run(w, run).reqs && Run(w, run).reqs[r].Done?
    ensures Run(w, run).reqs[r].result == Refused ==> Refusable(w, run, |run|, r)
    ensures Run(w, run).reqs[r].result.ReuseDetected? ==> Reused(w, run, |run|, r, Run(w, run).reqs[r].result.tok)
  {
    ReachableInv(w);
    assert run[..|run|] == run;
    BehindAlways(w, run, |run|, r);
  }

  lemma {:induction false} DoneStays(w: World, run: seq<Event>, r: RequestId)
    requires r in w.reqs && w.reqs[r].Done?
    ensures r in Run(w, run).reqs && Run(w, run).reqs[r] == w.reqs[r]
    decreases |run|
  {
    if run != [] {
      DoneStays(Step(w, run[0]), run[1..], r);
    }
  }

  lemma FaultIsFinal(w: World, run: seq<Event>, k: nat, r: RequestId)
    requires FaultAt(w, run, k, r)
    ensures r in Run(w, run).reqs && Run(w, run).reqs[r] == Done(Failed)
  {
    RunNext(w, run, k);
    assert Run(w, run[..k + 1]).reqs[r] == Done(Failed);
    assert run == run[..k + 1] + run[k + 1..];
    RunConcat(w, run[..k + 1], run[k + 1..]);
    DoneStays(Run(w, run[..k + 1]), run[k + 1..], r);
  }

  // A request is answered 500 if and only if one of its own store calls failed, other than a revocation
  // after a lost race and the lookup and the revocation of logout.
  lemma FailedIff(w: World, run: seq<Event>, r: RequestId)
    requires Reachable(w) && r !in w.reqs
    ensures (r in Run(w, run).reqs && Run(w, run).reqs[r] == Done(Failed)) <==> Faulted(w, run, |run|, r)
  {
    ReachableInv(w);
    assert run[..|run|] == run;
    BehindAlways(w, run, |run|, r);
    if k :| 0 <= k < |run| && FaultAt(w, run, k, r) {
      FaultIsFinal(w, run, k, r);
    }
  }

  // ---------- logout ----------

  lemma StaysForgotten(w: World, run: seq<Event>, raw: Raw)
    requires Inv(w) && (raw.Minted? ==> raw.serial in w.core.minted && raw.serial !in w.core.rows)
    ensures forall id :: id in Run(w, run).core.rows ==> Run(w, run).core.rows[id].hash != HashRefresh(raw)
  {
    RunKeeps(w, run);
  }

  lemma PresentableIsMinted(c: Core, raw: Raw)
    requires CoreInv(c) && Presentable(c, raw) && raw.Minted?
    ensures raw.serial in c.minted
    ensures raw.serial !in WithoutHash(c.rows, HashRefresh(raw))
  {
    assert Committed(c, raw.serial);
  }

  // Once logout has deleted the digest, no lookup ever finds the string again.
  lemma LogoutIsFinal(w: World, run: seq<Event>, r: RequestId, raw: Raw)
    requires Reachable(w) && r in w.reqs && w.reqs[r] == AtLogoutToken(raw)
    ensures var v := Run(Step(w, Act(r)), run);
      && r in v.reqs && v.reqs[r] == Done(LoggedOut)
      && forall id :: id in v.core.rows ==> v.core.rows[id].hash != HashRefresh(raw)
  {
    ReachableInv(w);
    StepKeeps(w, Act(r));
    var v := Step(w, Act(r));
    if raw.Minted? {
      PresentableIsMinted(w.core, raw);
    }
    StaysForgotten(v, run, raw);
    DoneStays(v, run, r);
  }
}
