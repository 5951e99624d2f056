/** The limiter against one that never forgets, and bounds on what it admits and on what it stores. */
module LimiterProof {
  import opened Cardinality
  import opened TokenBucket
  import opened Limiter
  import opened Sequences

  // What the requests of one key were told, in order.
  function Answers(p: Rate, m: Buckets, ops: seq<Op>, key: Key): seq<bool>
    decreases |ops|
  {
    if ops == [] then []
    else
      (if ops[0].Allow? && ops[0].key == key then [Answer(p, m, key, ops[0].now)] else [])
      + Answers(p, Apply(p, m, ops[0]), ops[1..], key)
  }

  // The limiter that keeps every bucket: one bucket per key, nothing else.
  function IdealNext(p: Rate, b: Bucket, op: Op, key: Key): Bucket {
    if op.Allow? && op.key == key then Take(p, b, op.now)
    else if op.Ask? && op.key == key then Reserved(p, b, op.now, op.late)
    else b
  }

  function IdealAnswers(p: Rate, b: Bucket, ops: seq<Op>, key: Key): seq<bool>
    decreases |ops|
  {
    if ops == [] then []
    else if ops[0].Allow? && ops[0].key == key then
      [Admits(p, b, ops[0].now)] + IdealAnswers(p, IdealNext(p, b, ops[0], key), ops[1..], key)
    else IdealAnswers(p, IdealNext(p, b, ops[0], key), ops[1..], key)
  }

  function IdealBucket(p: Rate, b: Bucket, ops: seq<Op>, key: Key): Bucket
    decreases |ops|
  {
    if ops == [] then b else IdealBucket(p, IdealNext(p, b, ops[0], key), ops[1..], key)
  }

  // The clock never goes back.
  predicate Ordered(from: real, ops: seq<Op>)
    decreases |ops|
  {
    ops == [] || (from <= ops[0].now && Ordered(ops[0].now, ops[1..]))
  }

  function End(from: real, ops: seq<Op>): real {
    if ops == [] then from else ops[|ops| - 1].now
  }

  // No batch eviction of the run drops this key.
  ghost predicate Spared(p: Rate, m: Buckets, ops: seq<Op>, key: Key)
    decreases |ops|
  {
    ops == [] ||
    ((ops[0].Allow? && NeedsRoom(m, ops[0].key) && MAX_BUCKETS <= |Swept(m, ops[0].now)| ==> key !in ops[0].victims)
     && Spared(p, Apply(p, m, ops[0]), ops[1..], key))
  }

  // ---------- the simulation ----------

  predicate EntryOk(p: Rate, e: Entry, now: real) {
    WellFormed(p, e.bucket, now) && e.bucket.stamp <= e.last <= now
  }

  // The stored bucket is the remembered one, or both are full.
  predicate Agrees(p: Rate, m: Buckets, b: Bucket, key: Key, now: real) {
    && WellFormed(p, b, now)
    && (key in m ==> EntryOk(p, m[key], now))
    && (if key in m then
          m[key].bucket == b || (Level(p, m[key].bucket, now) == p.burst as real && Level(p, b, now) == p.burst as real)
        else Level(p, b, now) == p.burst as real)
  }

  lemma FullIsFull(p: Rate, now: real)
    requires p.Valid()
    ensures WellFormed(p, Full(p, now), now) && Level(p, Full(p, now), now) == p.burst as real
  {
  }

  lemma AgreesLater(p: Rate, m: Buckets, b: Bucket, key: Key, now: real, later: real)
    requires p.Valid() && Agrees(p, m, b, key, now) && now <= later
    ensures Agrees(p, m, b, key, later)
  {
    if Level(p, b, now) == p.burst as real {
      FullStaysFull(p, b, now, later);
    }
    if key in m && Level(p, m[key].bucket, now) == p.burst as real {
      FullStaysFull(p, m[key].bucket, now, later);
    }
  }

  // Idle eviction drops only buckets that are full again.
  lemma SweepAgrees(p: Rate, m: Buckets, b: Bucket, key: Key, now: real)
    requires p.Valid() && p.burst as real <= p.rps * TTL && Agrees(p, m, b, key, now)
    ensures Agrees(p, Swept(m, now), b, key, now)
  {
    if key in m && Idle(m[key], now) {
      IdleIsFull(p, m[key].bucket, now, TTL);
    }
  }

  lemma SeenAgrees(p: Rate, m: Buckets, b: Bucket, key: Key, other: Key, now: real, victims: set<Key>)
    requires p.Valid() && p.burst as real <= p.rps * TTL && Agrees(p, m, b, key, now)
    requires NeedsRoom(m, other) && MAX_BUCKETS <= |Swept(m, now)| ==> key !in victims
    ensures Agrees(p, Seen(p, m, other, now, victims), b, key, now)
  {
    FullIsFull(p, now);
    if NeedsRoom(m, other) {
      SweepAgrees(p, m, b, key, now);
    }
  }

  // One operation: the answer is the ideal one, and agreement survives.
  lemma OpAgrees(p: Rate, m: Buckets, b: Bucket, op: Op, key: Key)
    requires p.Valid() && p.burst as real <= p.rps * TTL && Agrees(p, m, b, key, op.now)
    requires op.Allow? && NeedsRoom(m, op.key) && MAX_BUCKETS <= |Swept(m, op.now)| ==> key !in op.victims
    ensures op.Allow? && op.key == key ==> Answer(p, m, key, op.now) == Admits(p, b, op.now)
    ensures Agrees(p, Apply(p, m, op), IdealNext(p, b, op, key), key, op.now)
  {
    FullIsFull(p, op.now);
    match op
    case Allow(other, now, victims) =>
      SeenAgrees(p, m, b, key, other, now, victims);
      var s := Seen(p, m, other, now, victims);
      if other == key {
        TakeKeeps(p, b, now);
        TakeKeeps(p, s[key].bucket, now);
      }
    case Ask(other, now, late) =>
      if other == key {
        TakeKeeps(p, b, now);
        TakeKeeps(p, BucketOf(p, m, key, now), now);
      }
    case Sweep(now) => SweepAgrees(p, m, b, key, now);
  }

  lemma {:induction false} RunAgrees(p: Rate, m: Buckets, b: Bucket, from: real, ops: seq<Op>, key: Key)
    requires p.Valid() && p.burst as real <= p.rps * TTL && Agrees(p, m, b, key, from)
    requires Ordered(from, ops) && Spared(p, m, ops, key)
    ensures Answers(p, m, ops, key) == IdealAnswers(p, b, ops, key)
    ensures Agrees(p, ApplyAll(p, m, ops), IdealBucket(p, b, ops, key), key, End(from, ops))
    decreases |ops|
  {
    if ops != [] {
      var op := ops[0];
      AgreesLater(p, m, b, key, from, op.now);
      OpAgrees(p, m, b, op, key);
      RunAgrees(p, Apply(p, m, op), IdealNext(p, b, op, key), op.now, ops[1..], key);
    }
  }

  // Forgetting idle buckets cannot be noticed.
  lemma IdleEvictionInvisible(p: Rate, from: real, ops: seq<Op>, key: Key)
    requires p.Valid() && p.burst as real <= p.rps * TTL
    requires Ordered(from, ops) && Spared(p, map[], ops, key)
    ensures Answers(p, map[], ops, key) == IdealAnswers(p, Full(p, from), ops, key)
  {
    FullIsFull(p, from);
    RunAgrees(p, map[], Full(p, from), from, ops, key);
  }

  // ---------- how many requests get through ----------

  function CountTrue(a: seq<bool>): nat {
    if a == [] then 0 else (if a[0] then 1 else 0) + CountTrue(a[1..])
  }

  lemma Product(a: real, b: real)
    requires 0.0 <= a && 0.0 <= b
    ensures 0.0 <= a * b
  {
  }

  lemma {:induction false} IdealBound(p: Rate, b: Bucket, from: real, until: real, ops: seq<Op>, key: Key)
    requires p.Valid() && WellFormed(p, b, from) && Ordered(from, ops) && End(from, ops) <= until
    ensures CountTrue(IdealAnswers(p, b, ops, key)) as real <= Level(p, b, from) + p.rps * (until - from)
    decreases |ops|
  {
    TakeKeeps(p, b, from);
    if ops == [] {
      Product(p.rps, until - from);
    } else {
      var now := ops[0].now;
      LastIsLatest(from, ops);
      LevelGrows(p, b, from, now);
      TakeKeeps(p, b, now);
      assert p.rps * (until - from) == p.rps * (now - from) + p.rps * (until - now);
      assert ops[1..] != [] ==> End(now, ops[1..]) == End(from, ops);
      if ops[0].Allow? && ops[0].key == key {
        var rest := IdealAnswers(p, Take(p, b, now), ops[1..], key);
        IdealBound(p, Take(p, b, now), now, until, ops[1..], key);
        assert IdealAnswers(p, b, ops, key)[1..] == rest;
        assert Level(p, Take(p, b, now), now) <= Take(p, b, now).tokens || !Admits(p, b, now);
      } else {
        var b' := IdealNext(p, b, ops[0], key);
        assert Level(p, b', now) <= Level(p, b, now);
        IdealBound(p, b', now, until, ops[1..], key);
      }
    }
  }

  lemma {:induction false} LastIsLatest(from: real, ops: seq<Op>)
    requires Ordered(from, ops)
    ensures from <= End(from, ops) && (ops != [] ==> ops[0].now <= End(from, ops))
    decreases |ops|
  {
    if ops != [] {
      LastIsLatest(ops[0].now, ops[1..]);
    }
  }

  lemma {:induction false} SparedConcat(p: Rate, m: Buckets, a: seq<Op>, b: seq<Op>, key: Key)
    ensures Spared(p, m, a + b, key) <==> Spared(p, m, a, key) && Spared(p, ApplyAll(p, m, a), b, key)
    decreases |a|
  {
    if a == [] {
      assert a + b == b;
    } else {
      assert (a + b)[1..] == a[1..] + b;
      SparedConcat(p, Apply(p, m, a[0]), a[1..], b, key);
    }
  }

  lemma {:induction false} OrderedConcat(from: real, a: seq<Op>, b: seq<Op>)
    ensures Ordered(from, a + b) <==> Ordered(from, a) && Ordered(End(from, a), b)
    decreases |a|
  {
    if a == [] {
      assert a + b == b;
    } else {
      assert (a + b)[1..] == a[1..] + b;
      OrderedConcat(a[0].now, a[1..], b);
    }
  }

  lemma WindowBound(p: Rate, m: Buckets, b: Bucket, start: real, until: real, window: seq<Op>, key: Key)
    requires p.Valid() && p.burst as real <= p.rps * TTL && Agrees(p, m, b, key, start)
    requires Ordered(start, window) && Spared(p, m, window, key) && End(start, window) <= until
    ensures CountTrue(Answers(p, m, window, key)) as real <= p.burst as real + p.rps * (until - start)
  {
    RunAgrees(p, m, b, start, window, key);
    IdealBound(p, b, start, until, window, key);
  }

  lemma AgreesAtWindow(p: Rate, from: real, before: seq<Op>, window: seq<Op>, key: Key)
    requires p.Valid() && p.burst as real <= p.rps * TTL
    requires Ordered(from, before) && Ordered(End(from, before), window)
    requires Spared(p, map[], before, key) && window != []
    ensures Agrees(p, ApplyAll(p, map[], before), IdealBucket(p, Full(p, from), before, key), key, window[0].now)
    ensures Ordered(window[0].now, window)
  {
    FullIsFull(p, from);
    RunAgrees(p, map[], Full(p, from), from, before, key);
    var ideal := IdealBucket(p, Full(p, from), before, key);
    AgreesLater(p, ApplyAll(p, map[], before), ideal, key, End(from, before), window[0].now);
  }

  // However often a key's bucket was forgotten and made anew, in any window of time at most
  // burst + rps * (length of the window) of its requests are admitted.
  lemma AdmissionBound(p: Rate, from: real, before: seq<Op>, window: seq<Op>, key: Key, until: real)
    requires p.Valid() && p.burst as real <= p.rps * TTL
    requires Ordered(from, before + window) && Spared(p, map[], before + window, key)
    requires window != [] && End(from, window) <= until
    ensures CountTrue(Answers(p, ApplyAll(p, map[], before), window, key)) as real
      <= p.burst as real + p.rps * (until - window[0].now)
  {
    OrderedConcat(from, before, window);
    SparedConcat(p, map[], before, window, key);
    AgreesAtWindow(p, from, before, window, key);
    var ideal := IdealBucket(p, Full(p, from), before, key);
    WindowBound(p, ApplyAll(p, map[], before), ideal, window[0].now, until, window, key);
  }

  // ---------- the condition is exact ----------

  lemma {:induction false} AnswersConcat(p: Rate, m: Buckets, a: seq<Op>, b: seq<Op>, key: Key)
    ensures Answers(p, m, a + b, key) == Answers(p, m, a, key) + Answers(p, ApplyAll(p, m, a), b, key)
    ensures ApplyAll(p, m, a + b) == ApplyAll(p, ApplyAll(p, m, a), b)
    decreases |a|
  {
    if a == [] {
      assert a + b == b;
    } else {
      assert (a + b)[0] == a[0] && (a + b)[1..] == a[1..] + b;
      var y := Apply(p, m, a[0]);
      AnswersConcat(p, y, a[1..], b, key);
      var first := if a[0].Allow? && a[0].key == key then [Answer(p, m, key, a[0].now)] else [];
      Regroup(first, Answers(p, y, a[1..], key), Answers(p, ApplyAll(p, m, a), b, key));
    }
  }

  lemma {:induction false} CountConcat(a: seq<bool>, b: seq<bool>)
    ensures CountTrue(a + b) == CountTrue(a) + CountTrue(b)
  {
    if a == [] {
      assert a + b == b;
    } else {
      assert (a + b)[1..] == a[1..] + b;
      CountConcat(a[1..], b);
    }
  }

  function Volley(n: nat, key: Key, now: real): seq<Op> {
    if n == 0 then [] else [Allow(key, now, {})] + Volley(n - 1, key, now)
  }

  lemma {:induction false} VolleyShape(n: nat, key: Key, now: real)
    ensures |Volley(n, key, now)| == n && (forall i :: 0 <= i < n ==> Volley(n, key, now)[i] == Allow(key, now, {}))
    ensures Ordered(now, Volley(n, key, now)) && End(now, Volley(n, key, now)) == now
  {
    if n > 0 {
      VolleyShape(n - 1, key, now);
    }
  }

  lemma OneAdmitted(p: Rate, m: Buckets, n: nat, key: Key, now: real)
    requires p.Valid() && m.Keys <= {key} && 0 < n
    requires if key in m then n as real <= Level(p, m[key].bucket, now) else n <= p.burst
    ensures Answer(p, m, key, now) && !NeedsRoom(m, key)
    ensures var rest := Apply(p, m, Allow(key, now, {}));
      rest.Keys == {key} && (n - 1) as real <= Level(p, rest[key].bucket, now) && rest[key].last == now
  {
    SubsetSmaller(m.Keys, {key});
    assert |m| == |m.Keys|;
    FullIsFull(p, now);
  }

  // As many requests at once as there are tokens all get through.
  lemma {:induction false} VolleyAdmitted(p: Rate, m: Buckets, n: nat, key: Key, now: real)
    requires p.Valid() && m.Keys <= {key}
    requires if key in m then n as real <= Level(p, m[key].bucket, now) else n <= p.burst
    ensures CountTrue(Answers(p, m, Volley(n, key, now), key)) == n
    ensures var m' := ApplyAll(p, m, Volley(n, key, now));
      m'.Keys <= {key} && (n > 0 ==> key in m' && m'[key].last == now)
    ensures Spared(p, m, Volley(n, key, now), key)
    decreases n
  {
    if n > 0 {
      var rest := Apply(p, m, Allow(key, now, {}));
      OneAdmitted(p, m, n, key, now);
      assert Volley(n, key, now)[1..] == Volley(n - 1, key, now);
      VolleyAdmitted(p, rest, n - 1, key, now);
      assert Answers(p, m, Volley(n, key, now), key) == [true] + Answers(p, rest, Volley(n - 1, key, now), key);
    }
  }

  ghost predicate Invisible(p: Rate) {
    forall from, ops, key :: Ordered(from, ops) && Spared(p, map[], ops, key) ==>
      Answers(p, map[], ops, key) == IdealAnswers(p, Full(p, from), ops, key)
  }

  // Drain the bucket, wait until it is forgotten, and come back.
  function DrainAndReturn(n: nat, key: Key, t: real): seq<Op> {
    Volley(n, key, 0.0) + [Sweep(t)] + Volley(n, key, t)
  }

  lemma ReturnAdmitted(p: Rate, key: Key, t: real)
    requires p.Valid() && TTL < t
    ensures var ops := DrainAndReturn(p.burst, key, t);
      && Ordered(0.0, ops) && End(0.0, ops) == t && Spared(p, map[], ops, key)
      && CountTrue(Answers(p, map[], ops, key)) == 2 * p.burst
  {
    var n := p.burst;
    var a, sweep, b := Volley(n, key, 0.0), [Sweep(t)], Volley(n, key, t);
    VolleyShape(n, key, 0.0);
    VolleyShape(n, key, t);
    assert sweep[1..] == [];
    OrderedConcat(0.0, a + sweep, b);
    OrderedConcat(0.0, a, sweep);
    VolleyAdmitted(p, map[], n, key, 0.0);
    var drained := ApplyAll(p, map[], a);
    assert Swept(drained, t) == map[];
    assert ApplyAll(p, drained, sweep) == map[];
    VolleyAdmitted(p, map[], n, key, t);
    SparedConcat(p, map[], a + sweep, b, key);
    SparedConcat(p, map[], a, sweep, key);
    AnswersConcat(p, map[], a + sweep, b, key);
    AnswersConcat(p, map[], a, sweep, key);
    assert Answers(p, drained, sweep, key) == [];
    assert Answers(p, map[], a, key) + [] == Answers(p, map[], a, key);
    CountConcat(Answers(p, map[], a, key), Answers(p, map[], b, key));
  }

  lemma TooSoonToRefill(p: Rate) returns (t: real)
    requires p.Valid() && p.rps * TTL < p.burst as real
    ensures TTL < t && p.rps * t < p.burst as real
  {
    var gap := (p.burst as real - p.rps * TTL) / (2.0 * p.rps);
    assert 2.0 * p.rps * gap == p.burst as real - p.rps * TTL;
    t := TTL + gap;
    assert p.rps * t == p.rps * TTL + p.rps * gap;
  }

  // If a burst takes longer than the idle limit to refill, a client can drain its bucket, wait to be
  // forgotten, and get a whole new burst.
  lemma EvictionNoticed(p: Rate)
    requires p.Valid() && p.rps * TTL < p.burst as real
    ensures !Invisible(p)
  {
    var t := TooSoonToRefill(p);
    var ops := DrainAndReturn(p.burst, "k", t);
    ReturnAdmitted(p, "k", t);
    FullIsFull(p, 0.0);
    IdealBound(p, Full(p, 0.0), 0.0, t, ops, "k");
    assert t - 0.0 == t;
    assert Ordered(0.0, ops) && Spared(p, map[], ops, "k");
    assert Answers(p, map[], ops, "k") != IdealAnswers(p, Full(p, 0.0), ops, "k");
  }

  lemma InvisibleIff(p: Rate)
    requires p.Valid()
    ensures Invisible(p) <==> p.burst as real <= p.rps * TTL
  {
    if p.burst as real <= p.rps * TTL {
      forall from, ops, key | Ordered(from, ops) && Spared(p, map[], ops, key)
        ensures Answers(p, map[], ops, key) == IdealAnswers(p, Full(p, from), ops, key)
      {
        IdleEvictionInvisible(p, from, ops, key);
      }
    } else {
      EvictionNoticed(p);
    }
  }
}
