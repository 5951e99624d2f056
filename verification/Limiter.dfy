/**
 The keyed limiter: a bounded map of token buckets with idle eviction and, at capacity, batch
 eviction. The functions say what each operation does to the map; the class does it.
 */
module Limiter {
  import opened Outcomes
  import opened TokenBucket

  type Key = string

  const TTL := 600.0
  const MAX_BUCKETS: nat := 50000
  const BATCH: nat := MAX_BUCKETS / 10

  datatype Entry = Entry(bucket: Bucket, last: real)

  type Buckets = map<Key, Entry>

  predicate Idle(e: Entry, now: real) {
    TTL < now - e.last
  }

  function Swept(m: Buckets, now: real): Buckets {
    map k | k in m && !Idle(m[k], now) :: m[k]
  }

  // Go's map order is random: the batch may be any keys of the right number.
  predicate Batch(m: Buckets, victims: set<Key>) {
    victims <= m.Keys && |victims| == BATCH
  }

  function Evicted(m: Buckets, now: real, victims: set<Key>): Buckets {
    var kept := Swept(m, now);
    if |kept| < MAX_BUCKETS then kept else kept - victims
  }

  predicate NeedsRoom(m: Buckets, key: Key) {
    key !in m && MAX_BUCKETS <= |m|
  }

  // The bucket a key has, or will be given.
  function BucketOf(p: Rate, m: Buckets, key: Key, now: real): Bucket {
    if key in m then m[key].bucket else Full(p, now)
  }

  // The map section of Allow, under the lock.
  function Seen(p: Rate, m: Buckets, key: Key, now: real, victims: set<Key>): Buckets {
    var room := if NeedsRoom(m, key) then Evicted(m, now, victims) else m;
    room[key := Entry(BucketOf(p, m, key, now), now)]
  }

  function Allowed(p: Rate, m: Buckets, key: Key, now: real, victims: set<Key>): Buckets {
    var s := Seen(p, m, key, now, victims);
    s[key := Entry(Take(p, s[key].bucket, now), now)]
  }

  predicate Answer(p: Rate, m: Buckets, key: Key, now: real) {
    Admits(p, BucketOf(p, m, key, now), now)
  }

  // A reservation made and cancelled. One that had to wait takes nothing. One for a token that is there
  // is due at once, and once it is due a cancellation gives nothing back: `late` says that the clock
  // has moved on in between.
  function Reserved(p: Rate, b: Bucket, now: real, late: bool): Bucket {
    if late then Take(p, b, now) else b
  }

  // RetryAfter: no capacity check.
  function Retried(p: Rate, m: Buckets, key: Key, now: real, late: bool): Buckets {
    m[key := Entry(Reserved(p, BucketOf(p, m, key, now), now, late), now)]
  }

  // Asking is only advisory, unless there was no need to ask: a token is lost exactly when there was one.
  lemma TokenLostIff(p: Rate, b: Bucket, now: real, late: bool)
    requires p.Valid() && WellFormed(p, b, now)
    ensures Level(p, Reserved(p, b, now, late), now) < Level(p, b, now) <==> late && Admits(p, b, now)
  {
    TakeKeeps(p, b, now);
  }

  // ---------- runs ----------

  datatype Op =
    | Allow(key: Key, now: real, victims: set<Key>)
    | Ask(key: Key, now: real, late: bool)           // RetryAfter
    | Sweep(now: real)

  function Apply(p: Rate, m: Buckets, op: Op): Buckets {
    match op
    case Allow(key, now, victims) => Allowed(p, m, key, now, victims)
    case Ask(key, now, late) => Retried(p, m, key, now, late)
    case Sweep(now) => Swept(m, now)
  }

  function ApplyAll(p: Rate, m: Buckets, ops: seq<Op>): Buckets
    decreases |ops|
  {
    if ops == [] then m else ApplyAll(p, Apply(p, m, ops[0]), ops[1..])
  }

  class Limiter {
    const rate: Rate
    var buckets: Buckets

    constructor (rate: Rate)
      ensures this.rate == rate && buckets == map[]
    {
      this.rate := rate;
      buckets := map[];
    }

    // Deletes every bucket that has not been used for more than ten minutes, and no other.
    method EvictIdle(now: real)
      modifies this
      ensures buckets == Swept(old(buckets), now)
      ensures forall k :: k in buckets <==> k in old(buckets) && now - old(buckets)[k].last <= 600.0
      ensures forall k :: k in buckets ==> buckets[k] == old(buckets)[k]
    {
      var todo := buckets.Keys;
      ghost var all := buckets;
      while todo != {}
        invariant todo <= all.Keys
        invariant buckets == map k | k in all && (k in todo || !Idle(all[k], now)) :: all[k]
        decreases |todo|
      {
        var k :| k in todo;
        if now - buckets[k].last > TTL {
          buckets := buckets - {k};
        }
        todo := todo - {k};
      }
    }

    // Deletes a batch of buckets, whichever come first.
    method EvictBatch() returns (ghost victims: set<Key>)
      requires MAX_BUCKETS <= |buckets|
      modifies this
      ensures Batch(old(buckets), victims) && buckets == old(buckets) - victims && |victims| == 5000
    {
      victims := {};
      var toRemove := if BATCH < 1 then 1 else BATCH;
      var count := 0;
      var todo := buckets.Keys;
      while todo != {}
        invariant todo == buckets.Keys && victims <= old(buckets).Keys
        invariant buckets == old(buckets) - victims && count == |victims| < toRemove
        invariant |todo| == |old(buckets)| - count
        decreases |todo|
      {
        var k :| k in todo;
        buckets := buckets - {k};
        todo := todo - {k};
        victims := victims + {k};
        count := count + 1;
        if count >= toRemove {
          return;
        }
      }
    }

    method EvictOldestLocked(now: real) returns (ghost victims: set<Key>)
      modifies this
      ensures buckets == Evicted(old(buckets), now, victims)
      ensures MAX_BUCKETS <= |Swept(old(buckets), now)| ==> Batch(Swept(old(buckets), now), victims)
      ensures forall k :: k in buckets ==> k in old(buckets) && buckets[k] == old(buckets)[k]
      ensures forall k :: k in buckets ==> now - buckets[k].last <= 600.0
      ensures |Swept(old(buckets), now)| < 50000 ==>
        forall k :: k in old(buckets) && now - old(buckets)[k].last <= 600.0 ==> k in buckets
    {
      EvictIdle(now);
      victims := {};
      if |buckets| < MAX_BUCKETS {
        return;
      }
      victims := EvictBatch();
    }

    method Allow(key: Key, now: real) returns (ok: bool, ghost victims: set<Key>)
      modifies this
      ensures ok == Answer(rate, old(buckets), key, now)
      ensures buckets == Allowed(rate, old(buckets), key, now, victims)
      ensures NeedsRoom(old(buckets), key) && MAX_BUCKETS <= |Swept(old(buckets), now)| ==>
        Batch(Swept(old(buckets), now), victims)
      // The key is known from now on and was used now; nobody else's bucket is touched, and none is
      // deleted unless the key is new and the map full.
      ensures key in buckets && buckets[key].last == now
      ensures forall k :: k in buckets && k != key ==> k in old(buckets) && buckets[k] == old(buckets)[k]
      ensures key in old(buckets) || |old(buckets)| < 50000 ==> buckets.Keys == old(buckets).Keys + {key}
    {
      victims := {};
      var bucket := Full(rate, now);
      if key !in buckets {
        if |buckets| >= MAX_BUCKETS {
          victims := EvictOldestLocked(now);
        }
      } else {
        bucket := buckets[key].bucket;
      }
      ok := Admits(rate, bucket, now);
      buckets := buckets[key := Entry(Take(rate, bucket, now), now)];
    }

    // Reserves and cancels; `late` is whether time passes in between.
    method RetryAfter(key: Key, now: real, late: bool) returns (wait: real)
      requires rate.Valid()
      modifies this
      ensures buckets == Retried(rate, old(buckets), key, now, late)
      ensures wait == Delay(rate, BucketOf(rate, old(buckets), key, now), now)
      ensures buckets.Keys == old(buckets).Keys + {key} && buckets[key].last == now
      ensures forall k :: k in old(buckets) && k != key ==> buckets[k] == old(buckets)[k]
    {
      if key !in buckets {
        buckets := buckets[key := Entry(Full(rate, now), now)];
      }
      var bucket := buckets[key].bucket;
      wait := if Admits(rate, bucket, now) then 0.0 else (1.0 - Level(rate, bucket, now)) / rate.rps;
      buckets := buckets[key := Entry(Reserved(rate, bucket, now, late), now)];
    }

    // What other requests and the sweeper do meanwhile.
    method Others(ops: seq<Op>)
      modifies this
      ensures buckets == ApplyAll(rate, old(buckets), ops)
    {
      for i := 0 to |ops|
        invariant ApplyAll(rate, buckets, ops[i..]) == ApplyAll(rate, old(buckets), ops)
      {
        assert ops[i..][0] == ops[i] && ops[i..][1..] == ops[i + 1..];
        buckets := Apply(rate, buckets, ops[i]);
      }
    }

    // What the middleware does with one request; None is a request without a stable key. Between the
    // refusal and the question how long to wait, anything may happen to the map.
    method MaybeLimit(key: Option<Key>, now: real, between: seq<Op>, later: real, late: bool)
      returns (admitted: bool, advertised: int, ghost victims: set<Key>)
      requires rate.Valid()
      modifies this
      ensures key.None? ==> admitted && buckets == old(buckets)
      ensures key.Some? ==> admitted == Answer(rate, old(buckets), key.value, now)
      ensures key.Some? ==>
        var after := Allowed(rate, old(buckets), key.value, now, victims);
        buckets == if admitted then after else Retried(rate, ApplyAll(rate, after, between), key.value, later, late)
      ensures !admitted ==>
        var found := ApplyAll(rate, Allowed(rate, old(buckets), key.value, now, victims), between);
        var delay := Delay(rate, BucketOf(rate, found, key.value, later), later);
        advertised == Seconds(delay) && 1 <= advertised && delay - advertised as real < 0.5
    {
      admitted, advertised, victims := true, 0, {};
      if key.Some? {
        var ok;
        ok, victims := Allow(key.value, now);
        if !ok {
          Others(between);
          var retry := RetryAfter(key.value, later, late);
          var secs := (retry + 0.5).Floor;
          if secs < 1 {
            secs := 1;
          }
          admitted, advertised := false, secs;
        }
      }
    }
  }
}
