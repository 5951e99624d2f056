/**
 How many refreshes are posted when several threads want one.

 A thread whose call was answered 401, or that finds the token about to expire, takes a turn: it reads
 Token, and renewIfStale compares what was read with what Token is once it has the lock. Everything here
 is about whole runs of the composed system, with any number of threads and whatever happens between the
 two reads.
 */
module CliTurns {
  import opened Rotation
  import opened CliRenewal

  // The system before the k-th action of the run.
  function At(s: Sys, run: seq<Action>, k: nat): Sys
    requires k <= |run|
  {
    Execute(s, run[..k])
  }

  lemma AtNext(s: Sys, run: seq<Action>, k: nat)
    requires k < |run|
    ensures At(s, run, k + 1) == Do(At(s, run, k), run[k])
  {
    assert run[..k + 1] == run[..k] + [run[k]];
    ExecuteConcat(s, run[..k], [run[k]]);
    assert [run[k]][1..] == [];
    assert Execute(At(s, run, k), [run[k]]) == Do(At(s, run, k), run[k]);
  }

  // The thread wants to renew and has not compared yet.
  predicate Waiting(pc: ThreadPc) {
    pc.WantLock? || pc.Holding?
  }

  // Where a turn begins: `do` reads Token after a 401, or ensureFreshToken reads it because TokenExpiry
  // is near.
  predicate Begins(s: Sys, run: seq<Action>, t: ThreadId, j: nat) {
    && j < |run| && (run[j].Reread? || run[j].Ensure?) && run[j].t == t
    && !Waiting(PcOf(At(s, run, j), t)) && Waiting(PcOf(At(s, run, j + 1), t))
  }

  // Where it ends.
  predicate Compares(s: Sys, run: seq<Action>, t: ThreadId, i: nat) {
    i < |run| && run[i].Compare? && run[i].t == t && CanDo(At(s, run, i), run[i])
  }

  // The comparison sends a refresh to the server.
  predicate Posts(s: Sys, run: seq<Action>, t: ThreadId, i: nat) {
    Compares(s, run, t, i) && PcOf(At(s, run, i + 1), t) == Renewing(run[i].r, PcOf(At(s, run, i), t).phase)
  }

  datatype Turn = Turn(t: ThreadId, begin: nat, compare: nat)

  ghost predicate IsTurn(s: Sys, run: seq<Action>, turn: Turn) {
    && Begins(s, run, turn.t, turn.begin) && Compares(s, run, turn.t, turn.compare) && turn.begin < turn.compare
    && forall k :: turn.begin < k <= turn.compare ==> Waiting(PcOf(At(s, run, k), turn.t))
  }

  // The turn is taken because x was refused, or because the client held x and its expiry was near.
  predicate HitBy(s: Sys, run: seq<Action>, turn: Turn, x: Access) {
    && turn.begin < |run|
    && if run[turn.begin].Reread? then PcOf(At(s, run, turn.begin), turn.t) == Rejected(x)
       else At(s, run, turn.begin).token == x
  }

  // At the end of the turn Token is what it was at its beginning.
  predicate Unmoved(s: Sys, run: seq<Action>, turn: Turn)
    requires turn.begin <= |run| && turn.compare <= |run|
  {
    At(s, run, turn.compare).token == At(s, run, turn.begin).token
  }

  // ---------- what a turn depends on ----------

  lemma StaleStays(s: Sys, a: Action, t: ThreadId)
    requires Waiting(PcOf(s, t)) && Waiting(PcOf(Do(s, a), t))
    ensures PcOf(Do(s, a), t).stale == PcOf(s, t).stale
  {
  }

  lemma TurnStarts(s: Sys, a: Action, t: ThreadId)
    requires !Waiting(PcOf(s, t)) && Waiting(PcOf(Do(s, a), t))
    ensures (a.Reread? || a.Ensure?) && a.t == t
    ensures PcOf(Do(s, a), t).stale == s.token
  {
  }

  lemma {:induction false} StaleIsRead(s: Sys, run: seq<Action>, turn: Turn, k: nat)
    requires IsTurn(s, run, turn) && turn.begin < k <= turn.compare
    ensures PcOf(At(s, run, k), turn.t).stale == At(s, run, turn.begin).token
    decreases k
  {
    AtNext(s, run, k - 1);
    if k > turn.begin + 1 {
      StaleIsRead(s, run, turn, k - 1);
      StaleStays(At(s, run, k - 1), run[k - 1], turn.t);
    } else {
      TurnStarts(At(s, run, k - 1), run[k - 1], turn.t);
    }
  }

  lemma CompareStep(s: Sys, t: ThreadId, r: RequestId)
    requires CanDo(s, Compare(t, r))
    ensures PcOf(Do(s, Compare(t, r)), t) ==
      if s.token == PcOf(s, t).stale then Renewing(r, PcOf(s, t).phase) else Releasing(true, PcOf(s, t).phase)
  {
  }

  // A turn posts a refresh if and only if Token is, when compared, what it was when the turn began. No
  // matter which threads renewed before, in between, or are about to.
  lemma TurnPostsIff(s: Sys, run: seq<Action>, turn: Turn)
    requires IsTurn(s, run, turn)
    ensures Posts(s, run, turn.t, turn.compare) <==> Unmoved(s, run, turn)
    ensures !Posts(s, run, turn.t, turn.compare) ==> PcOf(At(s, run, turn.compare + 1), turn.t).Releasing?
  {
    var i := turn.compare;
    StaleIsRead(s, run, turn, i);
    AtNext(s, run, i);
    CompareStep(At(s, run, i), turn.t, run[i].r);
  }

  lemma {:induction false} TurnBegan(s: Sys, run: seq<Action>, t: ThreadId, i: nat) returns (j: nat)
    requires i <= |run| && Waiting(PcOf(At(s, run, i), t)) && !Waiting(PcOf(s, t))
    ensures j < i && Begins(s, run, t, j)
    ensures forall k :: j < k <= i ==> Waiting(PcOf(At(s, run, k), t))
    decreases i
  {
    assert At(s, run, 0) == s;
    AtNext(s, run, i - 1);
    if Waiting(PcOf(At(s, run, i - 1), t)) {
      j := TurnBegan(s, run, t, i - 1);
    } else {
      TurnStarts(At(s, run, i - 1), run[i - 1], t);
      j := i - 1;
    }
  }

  // Every comparison is the end of a turn that began in the run.
  lemma ComparisonEndsATurn(s: Sys, run: seq<Action>, t: ThreadId, i: nat) returns (turn: Turn)
    requires Compares(s, run, t, i) && !Waiting(PcOf(s, t))
    ensures turn.t == t && turn.compare == i && IsTurn(s, run, turn)
  {
    var j := TurnBegan(s, run, t, i);
    turn := Turn(t, j, i);
  }

  // ---------- more than one refresh ----------

  // Two refreshes are posted over the run.
  ghost predicate PostedTwice(s: Sys, run: seq<Action>) {
    exists t, u, i, j :: i < j && Posts(s, run, t, i) && Posts(s, run, u, j)
  }

  // Two of the selected turns post. What counts as the same occasion is left to the selection.
  ghost predicate RenewedTwice(s: Sys, run: seq<Action>, among: Turn -> bool) {
    exists a: Turn, b: Turn ::
      && a.compare < b.compare && IsTurn(s, run, a) && IsTurn(s, run, b) && among(a) && among(b)
      && Posts(s, run, a.t, a.compare) && Posts(s, run, b.t, b.compare)
  }

  ghost predicate TwoUnmovedTurns(s: Sys, run: seq<Action>, among: Turn -> bool) {
    exists a: Turn, b: Turn ::
      && a.compare < b.compare && IsTurn(s, run, a) && IsTurn(s, run, b) && among(a) && among(b)
      && Unmoved(s, run, a) && Unmoved(s, run, b)
  }

  // Two refreshes are posted for the token x, be it that x was refused or that it was about to expire.
  ghost predicate RenewedTwiceFor(s: Sys, run: seq<Action>, x: Access) {
    RenewedTwice(s, run, turn => HitBy(s, run, turn, x))
  }

  // Over any run and among any turns: more than one refresh is posted if and only if two of the turns,
  // of either kind, each find Token as they first read it.
  lemma RenewedTwiceIff(s: Sys, run: seq<Action>, among: Turn -> bool)
    ensures RenewedTwice(s, run, among) <==> TwoUnmovedTurns(s, run, among)
  {
    forall turn: Turn | IsTurn(s, run, turn)
      ensures Posts(s, run, turn.t, turn.compare) <==> Unmoved(s, run, turn)
    {
      TurnPostsIff(s, run, turn);
    }
  }

  // All refreshes of a run are posted by turns, so this covers the run as a whole.
  lemma PostedTwiceIff(s: Sys, run: seq<Action>)
    requires forall t: ThreadId :: !Waiting(PcOf(s, t))
    ensures PostedTwice(s, run) <==> TwoUnmovedTurns(s, run, turn => true)
  {
    RenewedTwiceIff(s, run, turn => true);
    if PostedTwice(s, run) {
      var t, u, i, j :| i < j && Posts(s, run, t, i) && Posts(s, run, u, j);
      var a := ComparisonEndsATurn(s, run, t, i);
      var b := ComparisonEndsATurn(s, run, u, j);
      assert Posts(s, run, a.t, a.compare) && Posts(s, run, b.t, b.compare);
    }
  }

  // ---------- in terms of stores ----------

  // applySession writes Token.
  predicate Stores(s: Sys, run: seq<Action>, k: nat) {
    k < |run| && run[k].Write? && PcOf(At(s, run, k), run[k].t).SetToken?
  }

  // A new access token differs from every one the client held before.
  ghost predicate NewTokensDiffer(s: Sys, run: seq<Action>) {
    forall k, m :: m <= k && Stores(s, run, k) ==> At(s, run, k + 1).token != At(s, run, m).token
  }

  lemma OnlyStoresMove(s: Sys, run: seq<Action>, k: nat)
    requires k < |run| && !Stores(s, run, k)
    ensures At(s, run, k + 1).token == At(s, run, k).token
  {
    AtNext(s, run, k);
  }

  ghost predicate NoStoreBetween(s: Sys, run: seq<Action>, j: nat, i: nat) {
    forall k :: j <= k < i ==> !Stores(s, run, k)
  }

  lemma {:induction false} TokenMovedIff(s: Sys, run: seq<Action>, j: nat, i: nat)
    requires NewTokensDiffer(s, run) && j <= i <= |run|
    ensures At(s, run, i).token == At(s, run, j).token <==> NoStoreBetween(s, run, j, i)
    decreases i
  {
    if i > j {
      TokenMovedIff(s, run, j, i - 1);
      if Stores(s, run, i - 1) {
        assert At(s, run, i - 1 + 1).token != At(s, run, j).token;
      } else {
        OnlyStoresMove(s, run, i - 1);
        assert NoStoreBetween(s, run, j, i) <==> NoStoreBetween(s, run, j, i - 1);
      }
    }
  }

  // When new tokens differ from old ones, a turn posts if and only if no thread stored a token between
  // its first read and its comparison.
  lemma TurnPostsIffNoStore(s: Sys, run: seq<Action>, turn: Turn)
    requires IsTurn(s, run, turn) && NewTokensDiffer(s, run)
    ensures Posts(s, run, turn.t, turn.compare) <==> NoStoreBetween(s, run, turn.begin, turn.compare)
  {
    TurnPostsIff(s, run, turn);
    TokenMovedIff(s, run, turn.begin, turn.compare);
  }

  // So threads rotate only once, among any turns, exactly when of any two of them one has a store
  // between its first read and its comparison. A thread whose first read comes after another one has
  // stored its new token takes a turn free of stores, and renews again.
  lemma RotatesOnceIff(s: Sys, run: seq<Action>, among: Turn -> bool)
    requires NewTokensDiffer(s, run)
    ensures !RenewedTwice(s, run, among) <==>
      forall a: Turn, b: Turn ::
        a.compare < b.compare && IsTurn(s, run, a) && IsTurn(s, run, b) && among(a) && among(b) ==>
          !NoStoreBetween(s, run, a.begin, a.compare) || !NoStoreBetween(s, run, b.begin, b.compare)
  {
    RenewedTwiceIff(s, run, among);
    forall a: Turn | IsTurn(s, run, a)
      ensures Unmoved(s, run, a) <==> NoStoreBetween(s, run, a.begin, a.compare)
    {
      TokenMovedIff(s, run, a.begin, a.compare);
    }
  }

  // ---------- what single flight does give ----------

  // A refresh is posted because of the stale token x, whether x was refused or about to expire.
  predicate PostsFor(s: Sys, run: seq<Action>, x: Access, i: nat) {
    && i < |run| && run[i].Compare? && CanDo(At(s, run, i), run[i])
    && PcOf(At(s, run, i), run[i].t).stale == x == At(s, run, i).token
  }

  // Two refreshes are posted for the same stale token only if no renewal succeeded in between.
  lemma OneRenewalPerStaleToken(s: Sys, run: seq<Action>, x: Access, i: nat, j: nat)
    requires NewTokensDiffer(s, run) && i < j && PostsFor(s, run, x, i) && PostsFor(s, run, x, j)
    ensures NoStoreBetween(s, run, i, j)
  {
    TokenMovedIff(s, run, i, j);
  }
}
