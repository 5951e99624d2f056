/**
 How large the limiter's map can get while requests overlap. RetryAfter inserts without looking at
 the capacity, and between the two map accesses of one request its key may have been evicted.
 */
module LimiterMemory {
  import opened Cardinality
  import opened TokenBucket
  import opened Limiter

  type RequestId = nat

  // A request inside the middleware, past the map section of Allow.
  datatype Flight =
    | Counted(key: Key)     // its token is about to be taken
    | Refused(key: Key)     // it will ask RetryAfter
    | Answered(key: Key)    // it has asked; the response is being written

  datatype Mem = Mem(m: Buckets, flights: map<RequestId, Flight>)

  datatype Step =
    | Enter(r: RequestId, key: Key, now: real, victims: set<Key>)
    | Decide(r: RequestId, admitted: bool)
    | Ask(r: RequestId, now: real, late: bool)
    | Leave(r: RequestId)
    | Sweep(now: real)

  // At most c requests are inside at once.
  predicate Enabled(s: Mem, c: nat, a: Step) {
    match a
    case Enter(r, key, now, victims) =>
      && r !in s.flights && |s.flights| < c
      && (NeedsRoom(s.m, key) && MAX_BUCKETS <= |Swept(s.m, now)| ==> Batch(Swept(s.m, now), victims))
    case Decide(r, _) => r in s.flights && s.flights[r].Counted?
    case Ask(r, _, _) => r in s.flights && s.flights[r].Refused?
    case Leave(r) => r in s.flights && s.flights[r].Answered?
    case Sweep(_) => true
  }

  function Next(p: Rate, s: Mem, c: nat, a: Step): Mem {
    if !Enabled(s, c, a) then s
    else
      match a
      case Enter(r, key, now, victims) => Mem(Seen(p, s.m, key, now, victims), s.flights[r := Counted(key)])
      case Decide(r, admitted) =>
        if admitted then s.(flights := s.flights - {r})
        else s.(flights := s.flights[r := Refused(s.flights[r].key)])
      case Ask(r, now, late) =>
        Mem(Retried(p, s.m, s.flights[r].key, now, late), s.flights[r := Answered(s.flights[r].key)])
      case Leave(r) => s.(flights := s.flights - {r})
      case Sweep(now) => s.(m := Swept(s.m, now))
  }

  function RunAll(p: Rate, s: Mem, c: nat, run: seq<Step>): Mem
    decreases |run|
  {
    if run == [] then s else RunAll(p, Next(p, s, c, run[0]), c, run[1..])
  }

  // The keys of the requests inside.
  function FlightKeys(f: map<RequestId, Flight>): set<Key> {
    set r | r in f :: f[r].key
  }

  // Everything that is in the map or may be inserted into it without a capacity check.
  function Claimed(s: Mem): set<Key> {
    s.m.Keys + FlightKeys(s.flights)
  }

  ghost predicate Bounded(s: Mem, c: nat) {
    && |s.flights| <= c
    && |Claimed(s)| <= MAX_BUCKETS + c
  }

  lemma {:induction false} FewKeys(f: map<RequestId, Flight>)
    ensures |FlightKeys(f)| <= |f|
    decreases |f|
  {
    if f.Keys != {} {
      var r :| r in f;
      var g := f - {r};
      assert |g| == |f| - 1 by {
        assert g.Keys == f.Keys - {r};
        assert |g.Keys| == |g| && |f.Keys| == |f|;
      }
      FewKeys(g);
      assert FlightKeys(f) == FlightKeys(g) + {f[r].key};
    } else {
      assert FlightKeys(f) == {};
    }
  }

  lemma UnionSize<T>(a: set<T>, b: set<T>)
    ensures |a + b| <= |a| + |b|
  {
  }

  lemma Removed(m: Buckets, victims: set<Key>)
    requires victims <= m.Keys
    ensures |m - victims| == |m| - |victims|
  {
    assert (m - victims).Keys == m.Keys - victims;
    assert |m.Keys| == |m| && |(m - victims).Keys| == |m - victims|;
  }

  // Making room leaves at most a full map less a batch over what was there, or less than capacity.
  lemma RoomMade(m: Buckets, now: real, victims: set<Key>)
    requires MAX_BUCKETS <= |Swept(m, now)| ==> Batch(Swept(m, now), victims)
    ensures |Evicted(m, now, victims)| < MAX_BUCKETS || |Evicted(m, now, victims)| <= |m| - BATCH
  {
    var kept := Swept(m, now);
    SubsetSmaller(kept.Keys, m.Keys);
    assert |kept.Keys| == |kept| && |m.Keys| == |m|;
    if MAX_BUCKETS <= |kept| {
      Removed(kept, victims);
    }
  }

  // Inserting a new key after making room, with fewer than c other requests inside.
  lemma InsertionBound(m: Buckets, room: Buckets, key: Key, others: set<Key>, c: nat)
    requires c <= BATCH && |others| < c && |m.Keys + others| <= MAX_BUCKETS + c
    requires |room| < MAX_BUCKETS || |room| <= |m| - BATCH
    ensures |room.Keys + {key} + others| <= MAX_BUCKETS + c
  {
    SubsetSmaller(m.Keys, m.Keys + others);
    assert |m.Keys| == |m| && |room.Keys| == |room|;
    UnionSize(room.Keys + {key}, others);
    UnionSize(room.Keys, {key});
  }

  function Room(s: Mem, a: Step): Buckets
    requires a.Enter?
  {
    if NeedsRoom(s.m, a.key) then Evicted(s.m, a.now, a.victims) else s.m
  }

  lemma SeenKeys(p: Rate, s: Mem, a: Step)
    requires a.Enter?
    ensures Seen(p, s.m, a.key, a.now, a.victims).Keys == Room(s, a).Keys + {a.key}
    ensures a.key in s.m ==> Room(s, a) == s.m
  {
  }

  lemma OneClaim(m: set<Key>, f: set<Key>, key: Key)
    ensures (m + {key}) + (f + {key}) == m + {key} + f
    ensures key in m ==> m + {key} + f == m + f
  {
  }

  lemma EnterClaims(p: Rate, s: Mem, c: nat, a: Step)
    requires Bounded(s, c) && c <= BATCH && a.Enter? && Enabled(s, c, a)
    ensures |Claimed(Next(p, s, c, a))| <= MAX_BUCKETS + c
  {
    SeenKeys(p, s, a);
    FlightAdded(s.flights, a.r, a.key);
    OneClaim(Room(s, a).Keys, FlightKeys(s.flights), a.key);
    if a.key !in s.m {
      NewKeyFits(s, c, a);
    }
  }

  lemma NewKeyFits(s: Mem, c: nat, a: Step)
    requires Bounded(s, c) && c <= BATCH && a.Enter? && Enabled(s, c, a) && a.key !in s.m
    ensures |Room(s, a).Keys + {a.key} + FlightKeys(s.flights)| <= MAX_BUCKETS + c
  {
    FewKeys(s.flights);
    if NeedsRoom(s.m, a.key) {
      RoomMade(s.m, a.now, a.victims);
    }
    InsertionBound(s.m, Room(s, a), a.key, FlightKeys(s.flights), c);
  }

  lemma EnterKeeps(p: Rate, s: Mem, c: nat, a: Step)
    requires Bounded(s, c) && c <= BATCH && a.Enter? && Enabled(s, c, a)
    ensures Bounded(Next(p, s, c, a), c)
  {
    EnterClaims(p, s, c, a);
    OneMore(s.flights, a.r, Counted(a.key));
  }

  lemma OneMore(f: map<RequestId, Flight>, r: RequestId, x: Flight)
    requires r !in f
    ensures |f[r := x]| == |f| + 1
  {
    assert f[r := x].Keys == f.Keys + {r};
    assert |f[r := x].Keys| == |f[r := x]| && |f.Keys| == |f|;
  }

  lemma FlightAdded(f: map<RequestId, Flight>, r: RequestId, key: Key)
    requires r !in f
    ensures FlightKeys(f[r := Counted(key)]) == FlightKeys(f) + {key}
  {
    var g := f[r := Counted(key)];
    forall k | k in FlightKeys(f) + {key} ensures k in FlightKeys(g) {
      if k in FlightKeys(f) {
        var q :| q in f && f[q].key == k;
        assert q in g && g[q].key == k;
      } else {
        assert r in g && g[r].key == k;
      }
    }
  }

  // Every other step only takes claims away.
  lemma OtherStepsShrink(p: Rate, s: Mem, c: nat, a: Step)
    requires !a.Enter? && Enabled(s, c, a)
    ensures Claimed(Next(p, s, c, a)) <= Claimed(s) && |Next(p, s, c, a).flights| <= |s.flights|
  {
    var y := Next(p, s, c, a);
    assert y.flights.Keys <= s.flights.Keys;
    SubsetSmaller(y.flights.Keys, s.flights.Keys);
    assert |y.flights.Keys| == |y.flights| && |s.flights.Keys| == |s.flights|;
  }

  lemma {:induction false} StaysBounded(p: Rate, s: Mem, c: nat, run: seq<Step>)
    requires Bounded(s, c) && c <= BATCH
    ensures Bounded(RunAll(p, s, c, run), c)
    decreases |run|
  {
    if run != [] {
      var a := run[0];
      if Enabled(s, c, a) {
        if a.Enter? {
          EnterKeeps(p, s, c, a);
        } else {
          OtherStepsShrink(p, s, c, a);
          SubsetSmaller(Claimed(Next(p, s, c, a)), Claimed(s));
        }
      }
      StaysBounded(p, Next(p, s, c, a), c, run[1..]);
    }
  }

  // With at most c requests inside at once, and c no more than a batch, the map plus the keys of the
  // requests inside that are missing from it never exceeds the capacity by more than c.
  lemma MemoryBound(p: Rate, c: nat, run: seq<Step>)
    requires c <= 5000
    ensures var s := RunAll(p, Mem(map[], map[]), c, run);
      |s.m| + |FlightKeys(s.flights) - s.m.Keys| <= 50000 + c
  {
    var s0 := Mem(map[], map[]);
    assert Claimed(s0) == {};
    StaysBounded(p, s0, c, run);
    var s := RunAll(p, s0, c, run);
    assert Claimed(s) == s.m.Keys + (FlightKeys(s.flights) - s.m.Keys);
    assert |s.m.Keys| == |s.m|;
  }
}
