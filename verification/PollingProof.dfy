/** When the polling chat shows every message exactly once. */
module PollingProof {
  import opened Outcomes
  import opened History
  import opened Polling
  import Paging

  // ---------- which rounds poll ----------

  // The round ends the chat: it is cancelled, its line cannot be read or is a command, its message is
  // not accepted, the wait is interrupted, or the poll fails.
  predicate IsLast(round: Round) {
    || round.cancelled
    || round.input.ReadFailure?
    || round.input.text == "/quit"
    || round.input.text == "/leave"
    || (round.input.text != "" && round.requested.Some?)
    || round.interrupted
    || round.room.Err?
  }

  // Round k is the first to end the chat; there is none if k is the number of rounds.
  predicate LastRound(rounds: seq<Round>, k: nat) {
    k <= |rounds| && (forall j :: 0 <= j < k ==> !IsLast(rounds[j])) && (k < |rounds| ==> IsLast(rounds[k]))
  }

  lemma {:induction false} SomeLastRound(rounds: seq<Round>) returns (k: nat)
    ensures LastRound(rounds, k)
  {
    k := 0;
    if rounds != [] && !IsLast(rounds[0]) {
      var n := SomeLastRound(rounds[1..]);
      k := n + 1;
      forall j | 0 <= j < k ensures !IsLast(rounds[j]) {
        assert j > 0 ==> rounds[j] == rounds[1..][j - 1];
      }
    }
  }

  // Every round before the one that ends the chat polls, once, the room as it is then; no other does.
  lemma {:induction false} PolledExactly(rounds: seq<Round>, k: nat)
    requires LastRound(rounds, k)
    ensures var logs := PolledLogs(rounds).0;
      |logs| == k && forall j :: 0 <= j < k ==> rounds[j].room == Ok(logs[j])
    decreases k
  {
    if k > 0 {
      var rest := rounds[1..];
      assert !IsLast(rounds[0]);
      assert LastRound(rest, k - 1) by {
        forall j | 0 <= j < k - 1 ensures !IsLast(rest[j]) {
          assert rest[j] == rounds[j + 1];
        }
      }
      PolledExactly(rest, k - 1);
      forall j | 0 <= j < k ensures rounds[j].room == Ok(PolledLogs(rounds).0[j]) {
        assert j > 0 ==> rounds[j] == rest[j - 1];
      }
    }
  }

  // That round decides how the chat ends; with none the input has ended.
  lemma {:induction false} EndsAsAsked(rounds: seq<Round>, k: nat)
    requires LastRound(rounds, k)
    ensures var end := PolledLogs(rounds).1;
      if k == |rounds| || rounds[k].cancelled then end == EndOfInput
      else
        match rounds[k].input
        case ReadFailure(e) => end == Broken(e)
        case Line(text) =>
          if text == "/quit" then end == Bye
          else if text != "" && rounds[k].requested.Some? then end == Broken(rounds[k].requested.value)
          else if text == "/leave" then end == LeftRoom
          else if rounds[k].interrupted then end == Bye
          else rounds[k].room.Err? && end == Broken(rounds[k].room.error)
    decreases k
  {
    if k > 0 {
      var rest := rounds[1..];
      assert !IsLast(rounds[0]);
      forall j | 0 <= j < k - 1 ensures !IsLast(rest[j]) {
        assert rest[j] == rounds[j + 1];
      }
      EndsAsAsked(rest, k - 1);
    }
  }

  // ---------- what is shown ----------

  // A room's history only ever grows at its end.
  predicate Growing(seen: seq<Message>, logs: seq<seq<Message>>)
    decreases |logs|
  {
    logs == [] || (seen <= logs[0] && Growing(logs[0], logs[1..]))
  }

  function Last(seen: seq<Message>, logs: seq<seq<Message>>): seq<Message>
    decreases |logs|
  {
    if logs == [] then seen else Last(logs[0], logs[1..])
  }

  // Between two polls at most a page arrives, and nothing with the timestamp of the newest message
  // that was there before.
  predicate Caught(seen: seq<Message>, log: seq<Message>) {
    |log| <= |seen| + RECENT_COUNT && (0 < |seen| < |log| ==> log[|seen| - 1].at < log[|seen|].at)
  }

  predicate AllCaught(seen: seq<Message>, logs: seq<seq<Message>>)
    decreases |logs|
  {
    logs == [] || (Caught(seen, logs[0]) && AllCaught(logs[0], logs[1..]))
  }

  // What the polls add to the screen.
  function News(cursor: Option<Time>, logs: seq<seq<Message>>): seq<Message> {
    Follow(View([], cursor), logs).shown
  }

  lemma {:induction false} GrowsToLast(seen: seq<Message>, logs: seq<seq<Message>>)
    requires Growing(seen, logs)
    ensures seen <= Last(seen, logs)
    decreases |logs|
  {
    if logs != [] {
      GrowsToLast(logs[0], logs[1..]);
    }
  }

  // From position k on, everything is newer than t; before it, nothing is.
  predicate NewerFrom(s: seq<Message>, t: Time, k: int) {
    0 <= k <= |s| && forall i :: 0 <= i < |s| ==> (s[i].at > t <==> k <= i)
  }

  lemma {:induction false} AfterIsSuffix(s: seq<Message>, t: Time)
    requires Ascending(s)
    ensures var k := |s| - |After(s, t)|; NewerFrom(s, t, k) && After(s, t) == s[k..]
  {
    if s != [] {
      var init := s[..|s| - 1];
      AfterIsSuffix(init, t);
      if s[|s| - 1].at > t {
        NewestCounts(s, init, t, |init| - |After(init, t)|);
      } else {
        NothingCounts(s, init, t, |init| - |After(init, t)|);
      }
    }
  }

  lemma NewestCounts(s: seq<Message>, init: seq<Message>, t: Time, k: int)
    requires s != [] && init == s[..|s| - 1] && NewerFrom(init, t, k) && s[|s| - 1].at > t
    ensures NewerFrom(s, t, k) && init[k..] + [s[|s| - 1]] == s[k..]
  {
    forall i | 0 <= i < |s| ensures s[i].at > t <==> k <= i {
      assert i < |init| ==> s[i] == init[i];
    }
  }

  lemma NothingCounts(s: seq<Message>, init: seq<Message>, t: Time, k: int)
    requires s != [] && init == s[..|s| - 1] && NewerFrom(init, t, k) && s[|s| - 1].at <= t && Ascending(s)
    ensures k == |init| && NewerFrom(s, t, |s|)
  {
    forall i | 0 <= i < |s| ensures s[i].at <= t {
      assert s[i].at <= s[|s| - 1].at;
    }
    if init != [] {
      var j := if k < |init| then k else 0;
      assert init[j] == s[j];
    }
  }

  // One poll shows a tail of what is new, all of it exactly when nothing slips through, and leaves
  // the cursor at the newest message either way.
  lemma PollStep(seen: seq<Message>, log: seq<Message>)
    requires seen <= log && Ascending(log) && Stamped(log)
    ensures var recent := Fresh(log, LastStamp(seen));
      && |seen| <= |log| - |recent| <= |log| && recent == log[|log| - |recent|..]
      && (|recent| == |log| - |seen| <==> Caught(seen, log))
      && (if recent == [] then LastStamp(seen) else LastStamp(recent)) == LastStamp(log)
  {
    var recent := Fresh(log, LastStamp(seen));
    if seen == [] {
      FirstPoll(log);
    } else {
      LaterPoll(seen, log);
    }
    CursorMoves(seen, log, recent);
  }

  lemma FirstPoll(log: seq<Message>)
    requires Stamped(log)
    ensures var recent := Fresh(log, LastStamp([]));
      && |recent| <= |log| && recent == log[|log| - |recent|..]
      && (|recent| == |log| <==> Caught([], log)) && (recent == [] ==> log == [])
  {
  }

  lemma LaterPoll(seen: seq<Message>, log: seq<Message>)
    requires seen != [] && seen <= log && Ascending(log) && Stamped(log)
    ensures var recent := Fresh(log, LastStamp(seen));
      && |seen| <= |log| - |recent| && recent == log[|log| - |recent|..]
      && (|recent| == |log| - |seen| <==> Caught(seen, log))
      && (recent == [] ==> log[|log| - 1].at == seen[|seen| - 1].at)
  {
    StampOfSeen(seen, log);
    PageOf(log);
    NewerOnPage(seen, log, Paging.Cut(log, RECENT_COUNT), Page(log, RECENT_COUNT, None), seen[|seen| - 1].at);
  }

  lemma NewerOnPage(seen: seq<Message>, log: seq<Message>, cut: nat, page: seq<Message>, t: Time)
    requires seen != [] && seen <= log && Ascending(log) && t == seen[|seen| - 1].at
    requires cut == Paging.Cut(log, RECENT_COUNT) && page == log[cut..] && Ascending(page)
    ensures var recent := After(page, t);
      && |seen| <= |log| - |recent| && recent == log[|log| - |recent|..]
      && (|recent| == |log| - |seen| <==> Caught(seen, log))
      && (recent == [] ==> log[|log| - 1].at == t)
  {
    AfterIsSuffix(page, t);
    TailOfTail(log, cut, |After(page, t)|);
    SuffixBounds(seen, log, cut, page, |After(page, t)|);
  }

  lemma StampOfSeen(seen: seq<Message>, log: seq<Message>)
    requires seen != [] && seen <= log && Stamped(log)
    ensures LastStamp(seen) == Some(seen[|seen| - 1].at)
  {
    assert seen[|seen| - 1] == log[|seen| - 1];
  }

  lemma PageOf(log: seq<Message>)
    requires Ascending(log)
    ensures var page := Page(log, RECENT_COUNT, None);
      Ascending(page) && page == log[Paging.Cut(log, RECENT_COUNT)..]
  {
  }

  lemma TailOfTail<T>(s: seq<T>, cut: nat, n: nat)
    requires cut <= |s| && n <= |s| - cut
    ensures s[cut..][|s| - cut - n..] == s[|s| - n..]
  {
  }

  lemma CursorMoves(seen: seq<Message>, log: seq<Message>, recent: seq<Message>)
    requires seen <= log && Stamped(log) && |recent| <= |log| && recent == log[|log| - |recent|..]
    requires recent == [] ==> log == [] || (seen != [] && log[|log| - 1].at == seen[|seen| - 1].at)
    ensures (if recent == [] then LastStamp(seen) else LastStamp(recent)) == LastStamp(log)
  {
    if recent != [] {
      assert recent[|recent| - 1] == log[|log| - 1];
    } else if log != [] {
      assert seen[|seen| - 1] == log[|seen| - 1];
    }
  }

  lemma SuffixBounds(seen: seq<Message>, log: seq<Message>, cut: nat, page: seq<Message>, n: nat)
    requires seen != [] && seen <= log && Ascending(log)
    requires cut == Paging.Cut(log, RECENT_COUNT) && page == log[cut..] && n <= |page|
    requires NewerFrom(page, seen[|seen| - 1].at, |page| - n)
    ensures |seen| <= |log| - n
    ensures n == |log| - |seen| <==> Caught(seen, log)
    ensures n == 0 ==> log[|log| - 1].at == seen[|seen| - 1].at
  {
    var t := seen[|seen| - 1].at;
    forall i | cut <= i < |log| ensures log[i].at > t <==> |log| - n <= i {
      assert page[i - cut] == log[i];
    }
    var j := if |log| - n < |seen| then |log| - n else |seen| - 1;
    assert log[j].at <= log[|seen| - 1].at;
    if |seen| < |log| {
      assert log[|seen| - 1].at == t;
      assert log[|seen| - 1].at <= log[|seen|].at;
      if cut <= |seen| {
        assert n == |log| - |seen| <==> log[|seen|].at > t;
      }
    }
    assert cut <= |log| - 1;
    assert log[|seen| - 1].at <= log[|log| - 1].at;
  }

  lemma PrefixKeeps(a: seq<Message>, b: seq<Message>)
    requires a <= b && Ascending(b) && Stamped(b)
    ensures Ascending(a) && Stamped(a)
  {
    assert forall i :: 0 <= i < |a| ==> a[i] == b[i];
  }

  lemma NewsUnfolds(cursor: Option<Time>, logs: seq<seq<Message>>)
    requires logs != []
    ensures var recent := Fresh(logs[0], cursor);
      News(cursor, logs) == recent + News(if recent == [] then cursor else LastStamp(recent), logs[1..])
  {
    var recent := Fresh(logs[0], cursor);
    var next := if recent == [] then cursor else LastStamp(recent);
    assert [] + recent == recent && recent + [] == recent;
    FollowAppends(recent, View([], next), logs[1..]);
  }

  lemma Joined<T>(whole: seq<T>, n: nat, m: nat, a: seq<T>, b: seq<T>)
    requires n <= m <= |whole|
    requires |a| <= m - n && a == whole[m - |a|..m] && |b| <= |whole| - m
    ensures a + b == whole[n..] <==> |a| == m - n && b == whole[m..]
  {
    if |a| == m - n && b == whole[m..] {
      assert whole[n..] == whole[n..m] + whole[m..];
    }
    if a + b == whole[n..] {
      assert |a| == m - n && |b| == |whole| - m;
      forall i | 0 <= i < |b| ensures b[i] == whole[m..][i] {
        assert (a + b)[|a| + i] == whole[n..][|a| + i];
      }
    }
  }

  lemma NewsStep(seen: seq<Message>, logs: seq<seq<Message>>)
    requires logs != [] && Growing(seen, logs) && Ascending(Last(seen, logs)) && Stamped(Last(seen, logs))
    ensures var log, last, recent := logs[0], Last(seen, logs), Fresh(logs[0], LastStamp(seen));
      && seen <= log <= last && |recent| <= |log| - |seen| && recent == last[|log| - |recent|..|log|]
      && (|recent| == |log| - |seen| <==> Caught(seen, log))
      && News(LastStamp(seen), logs) == recent + News(LastStamp(log), logs[1..])
  {
    var log := logs[0];
    GrowsToLast(log, logs[1..]);
    PrefixKeeps(log, Last(seen, logs));
    PollStep(seen, log);
    NewsUnfolds(LastStamp(seen), logs);
  }

  // The polls together add exactly what arrived since `seen`, in order, if and only if no poll lets
  // anything slip through; otherwise messages are missing.
  lemma {:induction false} NewsExactIff(seen: seq<Message>, logs: seq<seq<Message>>)
    requires Growing(seen, logs) && Ascending(Last(seen, logs)) && Stamped(Last(seen, logs))
    ensures |seen| + |News(LastStamp(seen), logs)| <= |Last(seen, logs)|
    ensures News(LastStamp(seen), logs) == Last(seen, logs)[|seen|..] <==> AllCaught(seen, logs)
    decreases |logs|
  {
    if logs == [] {
      assert News(LastStamp(seen), logs) == [];
    } else {
      NewsStep(seen, logs);
      NewsExactIff(logs[0], logs[1..]);
      AddsUp(Last(seen, logs), seen, logs, News(LastStamp(seen), logs), News(LastStamp(logs[0]), logs[1..]));
    }
  }

  lemma AddsUp(last: seq<Message>, seen: seq<Message>, logs: seq<seq<Message>>, news: seq<Message>, rest: seq<Message>)
    requires logs != [] && seen <= logs[0] <= last
    requires var log, recent := logs[0], Fresh(logs[0], LastStamp(seen));
      && |recent| <= |log| - |seen| && recent == last[|log| - |recent|..|log|]
      && (|recent| == |log| - |seen| <==> Caught(seen, log)) && news == recent + rest
      && |log| + |rest| <= |last| && (rest == last[|log|..] <==> AllCaught(log, logs[1..]))
    ensures |seen| + |news| <= |last|
    ensures news == last[|seen|..] <==> AllCaught(seen, logs)
  {
    ExactStep(last, seen, logs[0], Fresh(logs[0], LastStamp(seen)), rest, AllCaught(logs[0], logs[1..]));
  }

  lemma ExactStep(last: seq<Message>, seen: seq<Message>, log: seq<Message>, recent: seq<Message>, rest: seq<Message>,
                  others: bool)
    requires seen <= log <= last && |recent| <= |log| - |seen| && recent == last[|log| - |recent|..|log|]
    requires |recent| == |log| - |seen| <==> Caught(seen, log)
    requires |log| + |rest| <= |last| && (rest == last[|log|..] <==> others)
    ensures |seen| + |recent + rest| <= |last|
    ensures recent + rest == last[|seen|..] <==> Caught(seen, log) && others
  {
    Joined(last, |seen|, |log|, recent, rest);
  }

  // Even when messages are missed, what is shown is in order and nothing is shown twice.
  lemma {:induction false} NewsOrdered(seen: seq<Message>, logs: seq<seq<Message>>)
    requires Growing(seen, logs) && Ascending(Last(seen, logs)) && Stamped(Last(seen, logs))
    ensures seen <= Last(seen, logs)
    ensures multiset(News(LastStamp(seen), logs)) <= multiset(Last(seen, logs)[|seen|..])
    ensures Ascending(News(LastStamp(seen), logs))
    decreases |logs|
  {
    if logs == [] {
    } else {
      var log := logs[0];
      NewsStep(seen, logs);
      NewsOrdered(log, logs[1..]);
      TailOrdered(Last(seen, logs), |seen|, |log|, Fresh(log, LastStamp(seen)), News(LastStamp(log), logs[1..]));
    }
  }

  lemma TailOrdered(last: seq<Message>, n: nat, m: nat, a: seq<Message>, b: seq<Message>)
    requires Ascending(last) && n <= m <= |last| && |a| <= m - n && a == last[m - |a|..m]
    requires Ascending(b) && multiset(b) <= multiset(last[m..])
    ensures multiset(a + b) <= multiset(last[n..]) && Ascending(a + b)
  {
    assert last[n..] == last[n..m - |a|] + a + last[m..];
    forall i, j | 0 <= i < j < |a + b| ensures (a + b)[i].at <= (a + b)[j].at {
      if i < |a| <= j {
        assert b[j - |a|] in multiset(last[m..]);
        var k :| 0 <= k < |last[m..]| && last[m..][k] == b[j - |a|];
        assert last[m + k] == b[j - |a|] && a[i] == last[m - |a| + i];
      }
    }
  }

  // Over a whole chat, the screen holds the room's history from the first opening message on, each
  // message once and in order, if and only if every poll catches all that arrived before it.
  lemma ChatIsExactIff(opening: seq<Message>, rounds: seq<Round>)
    requires var logs := PolledLogs(rounds).0;
      Growing(opening, logs) && Ascending(Last(opening, logs)) && Stamped(Last(opening, logs))
    ensures opening <= Last(opening, PolledLogs(rounds).0)
    ensures var logs := PolledLogs(rounds).0;
      Follow(Opening(opening), logs).shown == Last(opening, logs)[Paging.Cut(opening, RECENT_COUNT)..]
      <==> AllCaught(opening, logs)
  {
    var logs := PolledLogs(rounds).0;
    ScreenIsOpeningAndNews(opening, logs);
    NewsExactIff(opening, logs);
    var cut := Paging.Cut(opening, RECENT_COUNT);
    assert opening[cut..] == Last(opening, logs)[cut..|opening|];
    Joined(Last(opening, logs), cut, |opening|, opening[cut..], News(LastStamp(opening), logs));
  }

  lemma SameStamp(log: seq<Message>)
    requires Stamped(log)
    ensures LastStamp(Page(log, RECENT_COUNT, None)) == LastStamp(log)
  {
    if log != [] {
      var page := Page(log, RECENT_COUNT, None);
      assert page[|page| - 1] == log[|log| - 1];
    }
  }

  lemma ScreenIsOpeningAndNews(opening: seq<Message>, logs: seq<seq<Message>>)
    requires Growing(opening, logs) && Ascending(Last(opening, logs)) && Stamped(Last(opening, logs))
    ensures opening <= Last(opening, logs)
    ensures Follow(Opening(opening), logs).shown ==
      opening[Paging.Cut(opening, RECENT_COUNT)..] + News(LastStamp(opening), logs)
  {
    GrowsToLast(opening, logs);
    PrefixKeeps(opening, Last(opening, logs));
    var page := Page(opening, RECENT_COUNT, None);
    SameStamp(opening);
    assert page + [] == page;
    FollowAppends(page, View([], LastStamp(page)), logs);
  }

  // Whatever arrives and however fast, the screen is in order and repeats nothing.
  lemma ChatRepeatsNothing(opening: seq<Message>, rounds: seq<Round>)
    requires var logs := PolledLogs(rounds).0;
      Growing(opening, logs) && Ascending(Last(opening, logs)) && Stamped(Last(opening, logs))
    ensures var logs := PolledLogs(rounds).0;
      var shown := Follow(Opening(opening), logs).shown;
      Ascending(shown) && multiset(shown) <= multiset(Last(opening, logs))
  {
    var logs := PolledLogs(rounds).0;
    ScreenIsOpeningAndNews(opening, logs);
    NewsOrdered(opening, logs);
    ScreenOrdered(opening, Last(opening, logs), News(LastStamp(opening), logs));
  }

  lemma ScreenOrdered(opening: seq<Message>, last: seq<Message>, news: seq<Message>)
    requires opening <= last && Ascending(last)
    requires Ascending(news) && multiset(news) <= multiset(last[|opening|..])
    ensures var screen := opening[Paging.Cut(opening, RECENT_COUNT)..] + news;
      Ascending(screen) && multiset(screen) <= multiset(last)
  {
    var cut := Paging.Cut(opening, RECENT_COUNT);
    assert opening[cut..] == last[cut..|opening|];
    TailOrdered(last, cut, |opening|, opening[cut..], news);
    assert last == last[..cut] + last[cut..];
  }

  // Twenty-one messages between two polls of an empty room: the first is never shown.
  lemma OneTooMany(log: seq<Message>)
    requires |log| == 21 && Ascending(log) && Stamped(log)
    ensures var rounds := [Round(false, Line(""), None, false, Ok(log))];
      Follow(Opening([]), PolledLogs(rounds).0).shown == log[1..]
  {
    var rounds := [Round(false, Line(""), None, false, Ok(log))];
    assert rounds[1..] == [] && PolledLogs(rounds).0 == [log] + [];
    assert Fresh(log, None) == log[1..];
    assert Follow(AfterPoll(Opening([]), log), []) == AfterPoll(Opening([]), log);
    assert [log][1..] == [] && [] + log[1..] == log[1..];
  }
}
