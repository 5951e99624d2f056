/**
 One token bucket: lazy refill at a fixed rate up to a burst, over exact arithmetic.
 Also the wait advertised after a refusal (section 10.2.3 of RFC 9110), and how far it can be trusted.
 */
module TokenBucket {

  // The configuration only accepts positive rates and bursts.
  datatype Rate = Rate(rps: real, burst: nat) {
    predicate Valid() {
      0.0 < rps && 1 <= burst
    }
  }

  datatype Bucket = Bucket(tokens: real, stamp: real)

  function Full(p: Rate, now: real): Bucket {
    Bucket(p.burst as real, now)
  }

  function Elapsed(b: Bucket, now: real): real {
    if now < b.stamp then 0.0 else now - b.stamp
  }

  function Level(p: Rate, b: Bucket, now: real): real {
    var filled := b.tokens + p.rps * Elapsed(b, now);
    if filled < p.burst as real then filled else p.burst as real
  }

  predicate Admits(p: Rate, b: Bucket, now: real) {
    1.0 <= Level(p, b, now)
  }

  // A request takes a token if there is one; a refused request changes nothing.
  function Take(p: Rate, b: Bucket, now: real): Bucket {
    if Admits(p, b, now) then Bucket(Level(p, b, now) - 1.0, now) else b
  }

  predicate WellFormed(p: Rate, b: Bucket, now: real) {
    0.0 <= b.tokens <= p.burst as real && b.stamp <= now
  }

  lemma TakeKeeps(p: Rate, b: Bucket, now: real)
    requires p.Valid() && WellFormed(p, b, now)
    ensures WellFormed(p, Take(p, b, now), now)
    ensures 0.0 <= Level(p, b, now) <= p.burst as real
  {
    assert 0.0 <= p.rps * Elapsed(b, now);
  }

  // Between two moments a bucket gains at most what the rate allows.
  lemma LevelGrows(p: Rate, b: Bucket, from: real, to: real)
    requires p.Valid() && WellFormed(p, b, from) && from <= to
    ensures Level(p, b, from) <= Level(p, b, to) <= Level(p, b, from) + p.rps * (to - from)
  {
    assert p.rps * Elapsed(b, to) == p.rps * Elapsed(b, from) + p.rps * (to - from);
    assert 0.0 <= p.rps * (to - from);
  }

  // A bucket left alone for ttl is full again, if the burst refills within ttl.
  lemma IdleIsFull(p: Rate, b: Bucket, now: real, ttl: real)
    requires p.Valid() && WellFormed(p, b, now) && ttl <= now - b.stamp
    requires p.burst as real <= p.rps * ttl
    ensures Level(p, b, now) == p.burst as real
  {
    assert p.rps * ttl <= p.rps * (now - b.stamp);
  }

  lemma FullStaysFull(p: Rate, b: Bucket, now: real, later: real)
    requires p.Valid() && WellFormed(p, b, now) && now <= later && Level(p, b, now) == p.burst as real
    ensures Level(p, b, later) == p.burst as real
  {
    LevelGrows(p, b, now, later);
  }

  // ---------- the advertised wait ----------

  // How long until a refused request would find a token.
  function Delay(p: Rate, b: Bucket, now: real): real
    requires p.Valid()
  {
    if Admits(p, b, now) then 0.0 else (1.0 - Level(p, b, now)) / p.rps
  }

  // Whole seconds, rounded to the nearest, at least one.
  function Seconds(delay: real): int {
    var secs := (delay + 0.5).Floor;
    if secs < 1 then 1 else secs
  }

  // The delay is exact: a request is admitted from then on and not before.
  lemma AdmittedFromDelayOn(p: Rate, b: Bucket, now: real, wait: real)
    requires p.Valid() && WellFormed(p, b, now) && !Admits(p, b, now) && 0.0 <= wait
    ensures Admits(p, b, now + wait) <==> Delay(p, b, now) <= wait
  {
    var level := Level(p, b, now);
    LevelGrows(p, b, now, now + wait);
    assert Elapsed(b, now + wait) == Elapsed(b, now) + wait;
    assert p.rps * Elapsed(b, now + wait) == p.rps * Elapsed(b, now) + p.rps * wait;
    var delay := Delay(p, b, now);
    assert p.rps * delay == 1.0 - level;
    if delay <= wait {
      assert p.rps * delay <= p.rps * wait;
    } else {
      assert p.rps * wait < p.rps * delay;
    }
  }

  // The advertised wait is never short by half a second or more, and never long by more than that
  // except where it was raised to one second.
  lemma WaitIsNearlyRight(delay: real)
    requires 0.0 <= delay
    ensures delay - Seconds(delay) as real < 0.5
    ensures Seconds(delay) > 1 ==> Seconds(delay) as real - delay <= 0.5
  {
  }

  predicate RoundsUp(delay: real) {
    delay <= 1.0 || delay == delay.Floor as real || 0.5 <= delay - delay.Floor as real
  }

  // A refused client that waits as told, with no other traffic on its key, is admitted exactly when
  // rounding did not lose a fraction of a second.
  lemma WaitSufficesIff(p: Rate, b: Bucket, now: real)
    requires p.Valid() && WellFormed(p, b, now) && !Admits(p, b, now)
    ensures Admits(p, b, now + Seconds(Delay(p, b, now)) as real) <==> RoundsUp(Delay(p, b, now))
  {
    var delay := Delay(p, b, now);
    TakeKeeps(p, b, now);
    assert 0.0 <= delay;
    AdmittedFromDelayOn(p, b, now, Seconds(delay) as real);
    var whole, part := delay.Floor, delay - delay.Floor as real;
    assert 0.0 <= part < 1.0;
    if part < 0.5 {
      assert (delay + 0.5).Floor == whole;
    } else {
      assert (delay + 0.5).Floor == whole + 1;
    }
  }

  // ---------- the buckets there can be ----------

  // The bucket after requests at these times.
  function TakeAll(p: Rate, b: Bucket, times: seq<real>): Bucket
    decreases |times|
  {
    if times == [] then b else TakeAll(p, Take(p, b, times[0]), times[1..])
  }

  predicate InOrder(from: real, times: seq<real>, now: real)
    decreases |times|
  {
    if times == [] then from <= now else from <= times[0] && InOrder(times[0], times[1..], now)
  }

  lemma {:induction false} ReachedIsWellFormed(p: Rate, b: Bucket, from: real, times: seq<real>, now: real)
    requires p.Valid() && WellFormed(p, b, from) && InOrder(from, times, now)
    ensures WellFormed(p, TakeAll(p, b, times), now)
    decreases |times|
  {
    if times != [] {
      TakeKeeps(p, b, times[0]);
      ReachedIsWellFormed(p, Take(p, b, times[0]), times[0], times[1..], now);
    }
  }

  // The advertised wait can be relied on: whatever requests a full bucket has seen, one that is refused
  // and waits as told is admitted.
  ghost predicate WaitAlwaysSuffices(p: Rate)
    requires p.Valid()
  {
    forall start, times, now :: InOrder(start, times, now) && !Admits(p, TakeAll(p, Full(p, start), times), now) ==>
      var b := TakeAll(p, Full(p, start), times);
      Admits(p, b, now + Seconds(Delay(p, b, now)) as real)
  }

  function Burst(n: nat): seq<real> {
    if n == 0 then [] else [0.0] + Burst(n - 1)
  }

  lemma {:induction false} Drained(p: Rate, n: nat, now: real)
    requires p.Valid() && n <= p.burst && 0.0 <= now
    ensures TakeAll(p, Bucket(n as real, 0.0), Burst(n)) == Bucket(0.0, 0.0) && InOrder(0.0, Burst(n), now)
  {
    if n > 0 {
      var b := Bucket(n as real, 0.0);
      assert Elapsed(b, 0.0) == 0.0 && Level(p, b, 0.0) == n as real;
      assert Take(p, b, 0.0) == Bucket((n - 1) as real, 0.0);
      assert Burst(n)[1..] == Burst(n - 1);
      Drained(p, n - 1, now);
    }
  }

  lemma WaitSufficesFromOne(p: Rate, b: Bucket, now: real)
    requires p.Valid() && 1.0 <= p.rps && WellFormed(p, b, now) && !Admits(p, b, now)
    ensures Admits(p, b, now + Seconds(Delay(p, b, now)) as real)
  {
    TakeKeeps(p, b, now);
    assert p.rps * Delay(p, b, now) == 1.0 - Level(p, b, now);
    assert Delay(p, b, now) <= p.rps * Delay(p, b, now);
    WaitSufficesIff(p, b, now);
  }

  // Below one request per second there is a delay a little over a second.
  lemma ShortDelay(p: Rate) returns (delay: real)
    requires p.Valid() && p.rps < 1.0
    ensures 1.0 < delay < 1.5 && p.rps * delay < 1.0
  {
    delay := if p.rps < 0.8 then 1.2 else (1.0 + 1.0 / p.rps) / 2.0;
    assert p.rps * (1.0 / p.rps) == 1.0;
    if 0.8 <= p.rps {
      assert p.rps * delay == (p.rps + 1.0) / 2.0;
    }
  }

  lemma TimeToRefusal(p: Rate, delay: real) returns (now: real)
    requires p.Valid() && p.rps * delay < 1.0
    ensures 0.0 <= now && p.rps * now == 1.0 - p.rps * delay
  {
    now := (1.0 - p.rps * delay) / p.rps;
  }

  // An emptied bucket, asked so late that the delay is the given one.
  lemma EmptyBucketDelay(p: Rate, now: real, delay: real)
    requires p.Valid() && 0.0 <= now && 0.0 < delay && p.rps * now == 1.0 - p.rps * delay
    ensures var b := Bucket(0.0, 0.0);
      WellFormed(p, b, now) && !Admits(p, b, now) && Delay(p, b, now) == delay
  {
    var b := Bucket(0.0, 0.0);
    assert Elapsed(b, now) == now && p.rps * Elapsed(b, now) == p.rps * now;
    assert 0.0 < p.rps * delay;
    assert Level(p, b, now) == p.rps * now;
    assert p.rps * Delay(p, b, now) == p.rps * delay;
  }

  // It can be relied on exactly when the rate is at least one request per second. Below that a client
  // that used up its burst and asks again at the right moment is told to come back too early.
  lemma WaitAlwaysSufficesIff(p: Rate)
    requires p.Valid()
    ensures WaitAlwaysSuffices(p) <==> 1.0 <= p.rps
  {
    if 1.0 <= p.rps {
      forall start, times, now | InOrder(start, times, now) && !Admits(p, TakeAll(p, Full(p, start), times), now)
        ensures var b := TakeAll(p, Full(p, start), times);
          Admits(p, b, now + Seconds(Delay(p, b, now)) as real)
      {
        ReachedIsWellFormed(p, Full(p, start), start, times, now);
        WaitSufficesFromOne(p, TakeAll(p, Full(p, start), times), now);
      }
    } else {
      var delay := ShortDelay(p);
      var now := TimeToRefusal(p, delay);
      var b := Bucket(0.0, 0.0);
      Drained(p, p.burst, now);
      assert TakeAll(p, Full(p, 0.0), Burst(p.burst)) == b;
      EmptyBucketDelay(p, now, delay);
      WaitSufficesIff(p, b, now);
      assert !RoundsUp(delay);
    }
  }
}
