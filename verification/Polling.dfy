/** The chat view that polls: it shows recent history, then after every input line whatever is new. */
module Polling {
  import opened Outcomes
  import opened History

  const RECENT_COUNT: nat := 20

  type Failure = nat

  // One line as trimmed; the input ends where the rounds do.
  datatype Input = Line(text: string) | ReadFailure(error: Failure)

  // What happens around one turn of the loop. `requested` answers the send or leave call; `room` is
  // the room's whole history at the moment the poll reaches the server, or the failure of the poll.
  datatype Round = Round(
    cancelled: bool, input: Input, requested: Option<Failure>, interrupted: bool,
    room: Result<seq<Message>, Failure>)

  datatype Signal = Continue | Quit | Left | Failed(error: Failure)

  datatype End = EndOfInput | Bye | LeftRoom | Broken(error: Failure)

  datatype Outcome = Usage | NoSession | Refused(error: Failure) | Realtime | Polled(end: End)

  // The polling view of the chat: what has been shown, and the newest timestamp seen.
  datatype View = View(shown: seq<Message>, cursor: Option<Time>)

  // ---------- specification ----------

  // The newest timestamp that is set, looking from the end.
  function LastStamp(s: seq<Message>): Option<Time> {
    if s == [] then None
    else if s[|s| - 1].at != ZERO_TIME then Some(s[|s| - 1].at)
    else LastStamp(s[..|s| - 1])
  }

  function After(s: seq<Message>, t: Time): seq<Message> {
    if s == [] then [] else After(s[..|s| - 1], t) + (if s[|s| - 1].at > t then [s[|s| - 1]] else [])
  }

  function Fresh(log: seq<Message>, cursor: Option<Time>): seq<Message> {
    var page := Page(log, RECENT_COUNT, None);
    if cursor == None then page else After(page, cursor.value)
  }

  function AfterPoll(v: View, log: seq<Message>): View {
    var recent := Fresh(log, v.cursor);
    View(v.shown + recent, if recent == [] then v.cursor else LastStamp(recent))
  }

  // How a line ends the chat before anything is polled, if it does.
  function Early(round: Round): Option<Signal>
    requires round.input.Line?
  {
    var line := round.input.text;
    if line == "/quit" then Some(Quit)
    else if line == "/leave" then Some(if round.requested.Some? then Failed(round.requested.value) else Left)
    else if line != "" && round.requested.Some? then Some(Failed(round.requested.value))
    else if round.interrupted then Some(Quit)
    else if round.room.Err? then Some(Failed(round.room.error))
    else None
  }

  function Ending(signal: Signal): End
    requires signal != Continue
  {
    match signal
    case Quit => Bye
    case Left => LeftRoom
    case Failed(e) => Broken(e)
  }

  // The end of a round that does not poll.
  function Stop(round: Round): Option<End> {
    if round.cancelled then Some(EndOfInput)
    else if round.input.ReadFailure? then Some(Broken(round.input.error))
    else if Early(round).Some? then Some(Ending(Early(round).value))
    else None
  }

  // The histories a chat polls before it ends, and how it ends.
  function PolledLogs(rounds: seq<Round>): (seq<seq<Message>>, End) {
    if rounds == [] then ([], EndOfInput)
    else if Stop(rounds[0]).Some? then ([], Stop(rounds[0]).value)
    else
      var (logs, end) := PolledLogs(rounds[1..]);
      ([rounds[0].room.value] + logs, end)
  }

  function Follow(v: View, logs: seq<seq<Message>>): View
    decreases |logs|
  {
    if logs == [] then v else Follow(AfterPoll(v, logs[0]), logs[1..])
  }

  function Opening(log: seq<Message>): View {
    var page := Page(log, RECENT_COUNT, None);
    View(page, LastStamp(page))
  }

  // ---------- the command ----------

  class Terminal {
    var shown: seq<Message>

    constructor ()
      ensures shown == []
    {
      shown := [];
    }

    method PrintMessages(messages: seq<Message>)
      modifies this
      ensures shown == old(shown) + messages
    {
      for i := 0 to |messages|
        invariant shown == old(shown) + messages[..i]
      {
        shown := shown + [messages[i]];
      }
    }
  }

  method CursorFrom(messages: seq<Message>) returns (r: Option<Time>)
    ensures r == LastStamp(messages)
    ensures r.Some? ==> exists i :: 0 <= i < |messages| && messages[i].at == r.value != ZERO_TIME
    ensures r.None? <==> forall i :: 0 <= i < |messages| ==> messages[i].at == ZERO_TIME
  {
    var i := |messages| - 1;
    assert messages[..i + 1] == messages;
    while i >= 0
      invariant -1 <= i < |messages|
      invariant LastStamp(messages) == LastStamp(messages[..i + 1])
      invariant forall k :: i < k < |messages| ==> messages[k].at == ZERO_TIME
    {
      if messages[i].at != ZERO_TIME {
        return Some(messages[i].at);
      }
      assert messages[..i + 1][..i] == messages[..i];
      i := i - 1;
    }
    return None;
  }

  method PollAfter(room: Result<seq<Message>, Failure>, cursor: Option<Time>) returns (r: Result<seq<Message>, Failure>)
    ensures room.Err? ==> r == Err(room.error)
    ensures room.Ok? ==> r == Ok(Fresh(room.value, cursor))
  {
    if room.Err? {
      return Err(room.error);
    }
    var messages := Page(room.value, RECENT_COUNT, None);
    if cursor == None {
      return Ok(messages);
    }
    var out: seq<Message> := [];
    for i := 0 to |messages|
      invariant out == After(messages[..i], cursor.value)
    {
      assert messages[..i + 1][..i] == messages[..i];
      if messages[i].at > cursor.value {
        out := out + [messages[i]];
      }
    }
    assert messages[..|messages|] == messages;
    return Ok(out);
  }

  method HandleChatLine(out: Terminal, round: Round, cursor: Option<Time>) returns (next: Option<Time>, signal: Signal)
    requires round.input.Line?
    modifies out
    ensures Early(round).Some? ==> signal == Early(round).value && next == cursor && out.shown == old(out.shown)
    ensures Early(round).None? ==>
      signal == Continue && View(out.shown, next) == AfterPoll(View(old(out.shown), cursor), round.room.value)
  {
    var line := round.input.text;
    if line == "/quit" {
      return cursor, Quit;
    } else if line == "/leave" {
      return cursor, if round.requested.Some? then Failed(round.requested.value) else Left;
    } else if line != "" {
      if round.requested.Some? {
        return cursor, Failed(round.requested.value);
      }
    }
    if round.interrupted {
      return cursor, Quit;
    }
    var recent := PollAfter(round.room, cursor);
    if recent.Err? {
      return cursor, Failed(recent.error);
    }
    out.PrintMessages(recent.value);
    next, signal := cursor, Continue;
    if |recent.value| > 0 {
      next := CursorFrom(recent.value);
    }
  }

  method RunPollingChat(out: Terminal, rounds: seq<Round>, opening: Option<Time>) returns (end: End)
    modifies out
    ensures end == PolledLogs(rounds).1
    ensures out.shown == Follow(View(old(out.shown), opening), PolledLogs(rounds).0).shown
  {
    var cursor := opening;
    ghost var start := View(out.shown, opening);
    var i := 0;
    while i < |rounds|
      invariant 0 <= i <= |rounds|
      invariant PolledLogs(rounds[i..]).1 == PolledLogs(rounds).1
      invariant Follow(View(out.shown, cursor), PolledLogs(rounds[i..]).0) == Follow(start, PolledLogs(rounds).0)
    {
      var round := rounds[i];
      assert rounds[i..][0] == round && rounds[i..][1..] == rounds[i + 1..];
      if round.cancelled {
        return EndOfInput;
      }
      if round.input.ReadFailure? {
        return Broken(round.input.error);
      }
      var signal;
      cursor, signal := HandleChatLine(out, round, cursor);
      if signal != Continue {
        return Ending(signal);
      }
      i := i + 1;
    }
    return EndOfInput;
  }

  method CmdChat(out: Terminal, args: seq<RoomId>, session: bool, history: Result<seq<Message>, Failure>,
                 realtime: bool, rounds: seq<Round>) returns (outcome: Outcome)
    modifies out
    ensures |args| != 1 ==> outcome == Usage
    ensures |args| == 1 && !session ==> outcome == NoSession
    ensures |args| == 1 && session && history.Err? ==> outcome == Refused(history.error)
    ensures (|args| != 1 || !session || history.Err?) ==> out.shown == old(out.shown)
    ensures |args| == 1 && session && history.Ok? ==>
      if realtime then outcome == Realtime && out.shown == old(out.shown) + Opening(history.value).shown
      else
        && outcome == Polled(PolledLogs(rounds).1)
        && out.shown == old(out.shown) + Follow(Opening(history.value), PolledLogs(rounds).0).shown
  {
    if |args| != 1 {
      return Usage;
    }
    if !session {
      return NoSession;
    }
    if history.Err? {
      return Refused(history.error);
    }
    var messages := Page(history.value, RECENT_COUNT, None);
    ghost var before := out.shown;
    out.PrintMessages(messages);
    var cursor := CursorFrom(messages);
    if realtime {
      return Realtime;
    }
    FollowAppends(before, Opening(history.value), PolledLogs(rounds).0);
    var end := RunPollingChat(out, rounds, cursor);
    return Polled(end);
  }

  // What is on the screen already does not influence what is shown next.
  lemma {:induction false} FollowAppends(before: seq<Message>, v: View, logs: seq<seq<Message>>)
    ensures Follow(View(before + v.shown, v.cursor), logs) ==
      View(before + Follow(v, logs).shown, Follow(v, logs).cursor)
    decreases |logs|
  {
    if logs != [] {
      var recent := Fresh(logs[0], v.cursor);
      assert (before + v.shown) + recent == before + (v.shown + recent);
      FollowAppends(before, AfterPoll(v, logs[0]), logs[1..]);
    }
  }
}
