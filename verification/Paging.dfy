/** Walking a room's history backwards, one page at a time. */
module Paging {
  import opened Outcomes
  import opened History

  lemma {:induction false} BeforeIsPrefix(h: seq<Message>, t: Time)
    requires Ascending(h)
    ensures |Before(h, t)| <= |h| && Before(h, t) == h[..|Before(h, t)|]
    ensures forall i :: 0 <= i < |h| ==> (h[i].at < t <==> i < |Before(h, t)|)
  {
    if h != [] {
      BeforeIsPrefix(h[1..], t);
      var rest := Before(h[1..], t);
      if h[0].at < t {
        assert Before(h, t) == [h[0]] + rest;
        forall i | 0 <= i < |h| ensures h[i].at < t <==> i < 1 + |rest| {
          assert i > 0 ==> h[i] == h[1..][i - 1];
        }
      } else {
        assert |h| > 1 ==> h[1..][0] == h[1] && h[0].at <= h[1].at;
        assert rest == [];
        forall i | 0 <= i < |h| ensures !(h[i].at < t) {
          assert i > 0 ==> h[0].at <= h[i].at;
        }
      }
    }
  }

  // How many messages of an ordered history a request with this cursor can see.
  predicate Sees(h: seq<Message>, cursor: Option<Time>, k: nat) {
    && k <= |h|
    && forall i :: 0 <= i < |h| ==>
         (i < k <==> cursor == None || cursor == Some(ZERO_TIME) || h[i].at < cursor.value)
  }

  // A page is the newest messages strictly older than the cursor, as many as the limit allows; without a
  // cursor, or with the zero time, the newest of all.
  lemma PageIsNewest(h: seq<Message>, limit: nat, cursor: Option<Time>) returns (k: nat)
    requires Ascending(h)
    ensures Sees(h, cursor, k)
    ensures Page(h, limit, cursor) == h[if k <= limit then 0 else k - limit..k]
  {
    k := |Older(h, cursor)|;
    if cursor != None && cursor != Some(ZERO_TIME) {
      BeforeIsPrefix(h, cursor.value);
    }
  }

  lemma {:induction false} BeforeSmaller(h: seq<Message>, t: Time)
    ensures |Before(h, t)| <= |h|
    ensures (exists i :: 0 <= i < |h| && t <= h[i].at) ==> |Before(h, t)| < |h|
  {
    if h != [] {
      BeforeSmaller(h[1..], t);
      if i :| 0 <= i < |h| && t <= h[i].at {
        assert i > 0 ==> h[1..][i - 1] == h[i];
      }
    }
  }

  lemma {:induction false} BeforeBefore(h: seq<Message>, t: Time, u: Time)
    requires u <= t
    ensures Before(Before(h, t), u) == Before(h, u)
  {
    if h != [] {
      BeforeBefore(h[1..], t, u);
      if h[0].at < t {
        assert Before(h, t)[1..] == Before(h[1..], t);
      } else {
        assert Before(h, t) == Before(h[1..], t);
      }
    }
  }

  lemma {:induction false} BeforeStamped(h: seq<Message>, t: Time)
    requires Stamped(h)
    ensures Stamped(Before(h, t)) && forall i :: 0 <= i < |Before(h, t)| ==> Before(h, t)[i].at < t
  {
    if h != [] {
      BeforeStamped(h[1..], t);
    }
  }

  // The pages of a backwards walk, the oldest page first: each request asks for what is older than
  // the oldest message of the page before, until a page is empty.
  function Walk(h: seq<Message>, limit: nat, cursor: Option<Time>): seq<Message>
    requires 0 < limit && Stamped(h)
    decreases |Older(h, cursor)|
  {
    var page := Page(h, limit, cursor);
    if page == [] then []
    else
      WalkProgress(h, limit, cursor);
      Walk(h, limit, Some(page[0].at)) + page
  }

  // Every page moves the cursor strictly back, so the walk ends.
  lemma WalkProgress(h: seq<Message>, limit: nat, cursor: Option<Time>)
    requires 0 < limit && Stamped(h) && Page(h, limit, cursor) != []
    ensures var t := Page(h, limit, cursor)[0].at;
      t != ZERO_TIME && |Older(h, Some(t))| < |Older(h, cursor)|
  {
    var older := Older(h, cursor);
    var t := Page(h, limit, cursor)[0].at;
    if cursor != None && cursor != Some(ZERO_TIME) {
      BeforeStamped(h, cursor.value);
      BeforeBefore(h, cursor.value, t);
    }
    assert older[if |older| <= limit then 0 else |older| - limit].at == t;
    BeforeSmaller(older, t);
  }

  // From the second page on the walk sees only what lies before its cursor.
  lemma {:induction false} WalkFrom(h: seq<Message>, limit: nat, t: Time)
    requires 0 < limit && Stamped(h) && t != ZERO_TIME
    ensures Stamped(Before(h, t))
    ensures Walk(h, limit, Some(t)) == Walk(Before(h, t), limit, None)
    decreases |Before(h, t)|
  {
    BeforeStamped(h, t);
    var g := Before(h, t);
    assert Page(h, limit, Some(t)) == Page(g, limit, None);
    var page := Page(g, limit, None);
    if page != [] {
      var u := page[0].at;
      WalkProgress(g, limit, None);
      BeforeBefore(h, t, u);
      WalkFrom(h, limit, u);
      WalkFrom(g, limit, u);
    }
  }

  // Where the newest page begins.
  function Cut(h: seq<Message>, limit: nat): nat {
    if |h| <= limit then 0 else |h| - limit
  }

  // No two messages on either side of a page boundary carry the same timestamp.
  predicate CleanBoundaries(h: seq<Message>, limit: nat)
    requires 0 < limit
    decreases |h|
  {
    var k := Cut(h, limit);
    k == 0 || (h[k - 1].at < h[k].at && CleanBoundaries(h[..k], limit))
  }

  // What the rest of the walk works on.
  function Rest(h: seq<Message>, limit: nat): seq<Message>
    requires 0 < limit && h != []
  {
    Before(h, h[Cut(h, limit)].at)
  }

  lemma RestIsPrefix(h: seq<Message>, limit: nat)
    requires 0 < limit && Ascending(h) && h != []
    ensures var k, rest := Cut(h, limit), Rest(h, limit);
      && |rest| <= k && rest == h[..|rest|]
      && (|rest| == k <==> k == 0 || h[k - 1].at < h[k].at)
  {
    BeforeIsPrefix(h, h[Cut(h, limit)].at);
  }

  lemma OneStep(h: seq<Message>, limit: nat)
    requires 0 < limit && Stamped(h) && h != []
    ensures Stamped(Rest(h, limit))
    ensures Walk(h, limit, None) == Walk(Rest(h, limit), limit, None) + h[Cut(h, limit)..]
  {
    FirstPage(h, limit);
    WalkFrom(h, limit, h[Cut(h, limit)].at);
  }

  lemma FirstPage(h: seq<Message>, limit: nat)
    requires 0 < limit && h != []
    ensures Page(h, limit, None) == h[Cut(h, limit)..] && Page(h, limit, None)[0] == h[Cut(h, limit)]
  {
  }

  lemma {:induction false} WalkNoLonger(h: seq<Message>, limit: nat)
    requires 0 < limit && Stamped(h) && Ascending(h)
    ensures |Walk(h, limit, None)| <= |h|
    decreases |h|
  {
    if h != [] {
      OneStep(h, limit);
      RestIsPrefix(h, limit);
      WalkNoLonger(Rest(h, limit), limit);
    }
  }

  lemma SameFront<T>(a: seq<T>, b: seq<T>, c: seq<T>)
    ensures a + c == b + c <==> a == b
  {
    if a + c == b + c {
      assert |a| == |b|;
      assert (a + c)[..|a|] == a && (b + c)[..|b|] == b;
    }
  }

  lemma CompleteStep<T>(h: seq<T>, k: nat, rest: seq<T>, walk: seq<T>)
    requires |rest| <= k <= |h| && rest == h[..|rest|] && |walk| <= |rest|
    ensures walk + h[k..] == h <==> |rest| == k && walk == rest
  {
    assert h == h[..k] + h[k..];
    SameFront(walk, h[..k], h[k..]);
  }

  lemma CleanStep(h: seq<Message>, limit: nat, rest: seq<Message>)
    requires 0 < limit && |rest| <= Cut(h, limit) && rest == h[..|rest|]
    requires var k := Cut(h, limit); |rest| == k <==> k == 0 || h[k - 1].at < h[k].at
    ensures CleanBoundaries(h, limit) <==> |rest| == Cut(h, limit) && CleanBoundaries(rest, limit)
  {
    var k := Cut(h, limit);
    if 0 < k == |rest| {
      assert h[..k] == rest;
    }
  }

  lemma JoinStep(h: seq<Message>, limit: nat, rest: seq<Message>, walkRest: seq<Message>, walk: seq<Message>)
    requires 0 < limit && h != [] && |walkRest| <= |rest|
    requires var k := Cut(h, limit);
      |rest| <= k && rest == h[..|rest|] && (|rest| == k <==> k == 0 || h[k - 1].at < h[k].at)
    requires walkRest == rest <==> CleanBoundaries(rest, limit)
    requires walk == walkRest + h[Cut(h, limit)..]
    ensures walk == h <==> CleanBoundaries(h, limit)
  {
    CompleteStep(h, Cut(h, limit), rest, walkRest);
    CleanStep(h, limit, rest);
  }

  lemma RestIsShorter(h: seq<Message>, limit: nat)
    requires 0 < limit && Ascending(h) && h != []
    ensures |Rest(h, limit)| < |h| && Ascending(Rest(h, limit))
  {
    RestIsPrefix(h, limit);
  }

  // The walk returns the whole history, in order, each message once, exactly when no page boundary
  // falls between messages with equal timestamps.
  lemma {:induction false} WalkCompleteIff(h: seq<Message>, limit: nat)
    requires 0 < limit && Stamped(h) && Ascending(h)
    ensures Walk(h, limit, None) == h <==> CleanBoundaries(h, limit)
    decreases |h|
  {
    if h == [] {
    } else {
      var rest := Rest(h, limit);
      OneStep(h, limit);
      RestIsPrefix(h, limit);
      RestIsShorter(h, limit);
      WalkCompleteIff(rest, limit);
      WalkNoLonger(rest, limit);
      JoinStep(h, limit, rest, Walk(rest, limit, None), Walk(h, limit, None));
    }
  }

  // Two messages of one moment, read one at a time: the walk loses the first.
  lemma TiesAreLost(a: Message, b: Message)
    requires a.at == b.at != ZERO_TIME
    ensures Walk([a, b], 1, None) == [b]
  {
    var h := [a, b];
    OneStep(h, 1);
    assert Rest(h, 1) == Before(h, b.at) == [] by {
      NoneBefore(h, b.at);
    }
    assert h[1..] == [b];
  }

  predicate DistinctTimes(h: seq<Message>) {
    forall i, j :: 0 <= i < j < |h| ==> h[i].at != h[j].at
  }

  lemma {:induction false} DistinctIsClean(h: seq<Message>, limit: nat)
    requires 0 < limit && Ascending(h) && DistinctTimes(h)
    ensures CleanBoundaries(h, limit)
    decreases |h|
  {
    if |h| > limit {
      DistinctIsClean(h[..|h| - limit], limit);
    }
  }

  // With distinct timestamps and any page size the server accepts, the pages put together are all the
  // messages of the room, oldest first.
  lemma PagingIsComplete(table: seq<Message>, room: RoomId, rawLimit: string)
    requires ParseLimit(rawLimit).Ok?
    requires Stamped(RoomHistory(table, room)) && DistinctTimes(RoomHistory(table, room))
    ensures var walk := Walk(RoomHistory(table, room), ParseLimit(rawLimit).value, None);
      && Ascending(walk)
      && forall m :: multiset(walk)[m] == if m.room == room then multiset(table)[m] else 0
  {
    HistoryIsComplete(table, room);
    DistinctIsClean(RoomHistory(table, room), ParseLimit(rawLimit).value);
    WalkCompleteIff(RoomHistory(table, room), ParseLimit(rawLimit).value);
  }

  // ---------- a walk over a growing room ----------

  // History i is what the room holds when the i-th page is read. Nothing is ever taken out, and what is
  // added comes at the end.
  ghost predicate Grows(h: nat -> seq<Message>) {
    forall i: nat :: h(i) <= h(i + 1) && Ascending(h(i)) && Stamped(h(i))
  }

  lemma AddedIsNewer(h: seq<Message>, g: seq<Message>, t: Time)
    requires h <= g && Ascending(g) && (exists i :: 0 <= i < |h| && t <= h[i].at)
    ensures Before(g, t) == Before(h, t)
  {
    var newer := g[|h|..];
    var i :| 0 <= i < |h| && t <= h[i].at;
    assert g == h + newer;
    forall k | 0 <= k < |newer| ensures t <= newer[k].at {
      assert newer[k] == g[|h| + k] && g[i] == h[i] && g[i].at <= g[|h| + k].at;
    }
    BeforeConcat(h, newer, t);
    NoneBefore(newer, t);
  }

  // The cursor a page leaves points into the history it was read from.
  lemma CursorIsInside(h: seq<Message>, limit: nat, cursor: Option<Time>)
    requires 0 < limit && Page(h, limit, cursor) != []
    ensures var t := Page(h, limit, cursor)[0].at; exists i :: 0 <= i < |h| && t <= h[i].at
  {
    var m := Page(h, limit, cursor)[0];
    var older := Older(h, cursor);
    assert m in older;
    if cursor != None && cursor != Some(ZERO_TIME) {
      BeforeIsSubset(h, cursor.value, m);
    }
  }

  // Page i of the walk is read from history i.
  ghost function GrowingWalk(h: nat -> seq<Message>, i: nat, limit: nat, cursor: Option<Time>): seq<Message>
    requires 0 < limit && Grows(h)
    decreases |Older(h(i), cursor)|
  {
    var page := Page(h(i), limit, cursor);
    if page == [] then []
    else
      WalkProgress(h(i), limit, cursor);
      CursorIsInside(h(i), limit, cursor);
      AddedIsNewer(h(i), h(i + 1), page[0].at);
      GrowingWalk(h, i + 1, limit, Some(page[0].at)) + page
  }

  // From any page on, the walk returns what it would if the room had stood still since that page.
  lemma {:induction false} GrowthIsInvisible(h: nat -> seq<Message>, i: nat, limit: nat, cursor: Option<Time>)
    requires 0 < limit && Grows(h)
    ensures GrowingWalk(h, i, limit, cursor) == Walk(h(i), limit, cursor)
    decreases |Older(h(i), cursor)|
  {
    var page := Page(h(i), limit, cursor);
    if page != [] {
      var t := page[0].at;
      WalkProgress(h(i), limit, cursor);
      CursorIsInside(h(i), limit, cursor);
      AddedIsNewer(h(i), h(i + 1), t);
      GrowthIsInvisible(h, i + 1, limit, Some(t));
      WalkFrom(h(i), limit, t);
      WalkFrom(h(i + 1), limit, t);
    }
  }

  // Messages posted during the walk do not disturb it: it returns the room as it was when the first page
  // was read, whole if and only if no page boundary of that history falls between equal timestamps.
  lemma GrowingWalkCompleteIff(h: nat -> seq<Message>, limit: nat)
    requires 0 < limit && Grows(h)
    ensures GrowingWalk(h, 0, limit, None) == h(0) <==> CleanBoundaries(h(0), limit)
  {
    GrowthIsInvisible(h, 0, limit, None);
    WalkCompleteIff(h(0), limit);
  }

  lemma {:induction false} BeforeConcat(h: seq<Message>, g: seq<Message>, t: Time)
    ensures Before(h + g, t) == Before(h, t) + Before(g, t)
  {
    if h == [] {
      assert h + g == g;
    } else {
      assert (h + g)[1..] == h[1..] + g;
      BeforeConcat(h[1..], g, t);
    }
  }

  lemma {:induction false} NoneBefore(h: seq<Message>, t: Time)
    requires forall i :: 0 <= i < |h| ==> t <= h[i].at
    ensures Before(h, t) == []
  {
    if h != [] {
      NoneBefore(h[1..], t);
    }
  }
}
