/** Room history as the message repository serves it, and the clamp on the page size. */
module History {
  import opened Outcomes

  type RoomId = nat
  type Time = int

  // Go's zero time. Stored messages never carry it: Create replaces it by the current time.
  const ZERO_TIME: Time := 0

  datatype Message = Message(id: nat, room: RoomId, user: nat, content: string, at: Time)

  // ---------- what a query means ----------

  function InRoom(table: seq<Message>, room: RoomId): seq<Message> {
    if table == [] then []
    else (if table[0].room == room then [table[0]] else []) + InRoom(table[1..], room)
  }

  function Insert(m: Message, s: seq<Message>): seq<Message> {
    if s == [] || m.at <= s[0].at then [m] + s else [s[0]] + Insert(m, s[1..])
  }

  function SortByTime(s: seq<Message>): seq<Message> {
    if s == [] then [] else Insert(s[0], SortByTime(s[1..]))
  }

  // The messages of a room, oldest first.
  function RoomHistory(table: seq<Message>, room: RoomId): seq<Message> {
    SortByTime(InRoom(table, room))
  }

  predicate Ascending(h: seq<Message>) {
    forall i, j :: 0 <= i < j < |h| ==> h[i].at <= h[j].at
  }

  predicate Stamped(h: seq<Message>) {
    forall i :: 0 <= i < |h| ==> h[i].at != ZERO_TIME
  }

  lemma {:induction false} InsertSorted(m: Message, s: seq<Message>)
    requires Ascending(s)
    ensures Ascending(Insert(m, s)) && multiset(Insert(m, s)) == multiset(s) + multiset{m}
  {
    if s == [] || m.at <= s[0].at {
    } else {
      var rest := s[1..];
      InsertSorted(m, rest);
      assert s == [s[0]] + rest;
      FromEither(m, rest, Insert(m, rest), s[0].at);
    }
  }

  lemma FromEither(m: Message, s: seq<Message>, r: seq<Message>, t: Time)
    requires multiset(r) == multiset(s) + multiset{m}
    requires t <= m.at && forall i :: 0 <= i < |s| ==> t <= s[i].at
    ensures forall i :: 0 <= i < |r| ==> t <= r[i].at
  {
    forall i | 0 <= i < |r| ensures t <= r[i].at {
      assert r[i] in multiset(r);
      assert r[i] in multiset(s) || r[i] == m;
    }
  }

  lemma {:induction false} SortSorts(s: seq<Message>)
    ensures Ascending(SortByTime(s)) && multiset(SortByTime(s)) == multiset(s)
  {
    if s != [] {
      SortSorts(s[1..]);
      InsertSorted(s[0], SortByTime(s[1..]));
      assert s == [s[0]] + s[1..];
    }
  }

  // How often a message belongs into the history of a room.
  function TimesIn(table: seq<Message>, room: RoomId, m: Message): nat {
    if m.room == room then multiset(table)[m] else 0
  }

  lemma {:induction false} InRoomCounts(table: seq<Message>, room: RoomId, m: Message)
    ensures multiset(InRoom(table, room))[m] == TimesIn(table, room, m)
  {
    if table != [] {
      InRoomCounts(table[1..], room, m);
      assert table == [table[0]] + table[1..];
    }
  }

  // The history is ordered and holds every message of the table that is in the room, as often as the
  // table does, and nothing else.
  lemma HistoryIsComplete(table: seq<Message>, room: RoomId)
    ensures Ascending(RoomHistory(table, room))
    ensures forall m :: multiset(RoomHistory(table, room))[m] == if m.room == room then multiset(table)[m] else 0
  {
    SortSorts(InRoom(table, room));
    forall m ensures multiset(InRoom(table, room))[m] == TimesIn(table, room, m) {
      InRoomCounts(table, room, m);
    }
  }

  function Before(h: seq<Message>, t: Time): seq<Message> {
    if h == [] then [] else (if h[0].at < t then [h[0]] else []) + Before(h[1..], t)
  }

  function Older(h: seq<Message>, cursor: Option<Time>): seq<Message> {
    if cursor == None || cursor == Some(ZERO_TIME) then h else Before(h, cursor.value)
  }

  function Reverse<T>(s: seq<T>): seq<T> {
    if s == [] then [] else Reverse(s[1..]) + [s[0]]
  }

  // ORDER BY created_at DESC LIMIT n, with the cursor applied.
  function SelectRows(h: seq<Message>, limit: nat, cursor: Option<Time>): seq<Message> {
    var rows := Reverse(Older(h, cursor));
    if |rows| <= limit then rows else rows[..limit]
  }

  // What the caller gets: the newest messages older than the cursor, oldest of them first.
  function Page(h: seq<Message>, limit: nat, cursor: Option<Time>): seq<Message> {
    var older := Older(h, cursor);
    if |older| <= limit then older else older[|older| - limit..]
  }

  lemma {:induction false} BeforeIsSubset(h: seq<Message>, t: Time, m: Message)
    requires m in Before(h, t)
    ensures m in h && m.at < t
  {
    if h[0].at < t && m == h[0] {
    } else {
      BeforeIsSubset(h[1..], t, m);
    }
  }

  lemma OlderIsSubset(h: seq<Message>, cursor: Option<Time>)
    ensures forall m :: m in Older(h, cursor) ==> m in h
  {
    if cursor != None && cursor != Some(ZERO_TIME) {
      forall m | m in Before(h, cursor.value) ensures m in h {
        BeforeIsSubset(h, cursor.value, m);
      }
    }
  }

  // Every page is made of messages of the room that the table holds.
  lemma PageIsFromRoom(table: seq<Message>, room: RoomId, limit: nat, cursor: Option<Time>)
    ensures var page := Page(RoomHistory(table, room), limit, cursor);
      forall i :: 0 <= i < |page| ==> page[i].room == room && page[i] in table
  {
    var h, page := RoomHistory(table, room), Page(RoomHistory(table, room), limit, cursor);
    HistoryIsComplete(table, room);
    OlderIsSubset(h, cursor);
    forall i | 0 <= i < |page| ensures page[i].room == room && page[i] in table {
      assert page[i] in Older(h, cursor);
      assert page[i] in h;
      assert multiset(h)[page[i]] > 0;
      assert page[i] in multiset(table);
    }
  }

  lemma {:induction false} ReverseAt<T>(s: seq<T>, k: nat)
    requires k < |s|
    ensures |Reverse(s)| == |s| && Reverse(s)[k] == s[|s| - 1 - k]
  {
    if |s| > 1 {
      ReverseAt(s[1..], if k < |s| - 1 then k else 0);
    }
  }

  lemma ReverseShape<T>(s: seq<T>)
    ensures |Reverse(s)| == |s| && forall k :: 0 <= k < |s| ==> Reverse(s)[k] == s[|s| - 1 - k]
  {
    forall k | 0 <= k < |s| ensures |Reverse(s)| == |s| && Reverse(s)[k] == s[|s| - 1 - k] {
      ReverseAt(s, k);
    }
    assert s == [] ==> Reverse(s) == [];
  }

  lemma ReversedRowsArePage(h: seq<Message>, limit: nat, cursor: Option<Time>)
    ensures Reverse(SelectRows(h, limit, cursor)) == Page(h, limit, cursor)
  {
    ReverseShape(Older(h, cursor));
    ReverseShape(SelectRows(h, limit, cursor));
  }

  // ---------- the repository ----------

  datatype HistoryError = RoomNotFound | NotFound | BadLimit | BadCursor

  method ReverseInPlace(a: array<Message>)
    modifies a
    ensures a[..] == Reverse(old(a[..]))
  {
    var i, j := 0, a.Length - 1;
    while i < j
      invariant 0 <= i && j == a.Length - 1 - i && i <= j + 1
      invariant forall k :: 0 <= k < i ==> a[k] == old(a[a.Length - 1 - k]) && a[a.Length - 1 - k] == old(a[k])
      invariant forall k :: i <= k <= j ==> a[k] == old(a[k])
    {
      a[i], a[j] := a[j], a[i];
      i, j := i + 1, j - 1;
    }
    ReverseShape(old(a[..]));
  }

  class Repository {
    var rooms: set<RoomId>
    var table: seq<Message>

    constructor ()
      ensures rooms == {} && table == []
    {
      rooms, table := {}, [];
    }

    method ListByRoom(room: RoomId, limit: nat, before: Option<Time>) returns (r: Result<seq<Message>, HistoryError>)
      ensures r.Err? <==> room !in rooms
      ensures r.Err? ==> r.error == RoomNotFound
      ensures r.Ok? ==> r.value == Page(RoomHistory(table, room), limit, before)
      ensures r.Ok? ==> forall i :: 0 <= i < |r.value| ==> r.value[i].room == room && r.value[i] in table
    {
      if room !in rooms {
        return Err(RoomNotFound);
      }
      var rows := SelectRows(RoomHistory(table, room), limit, before);
      var messages: seq<Message> := [];
      for i := 0 to |rows|
        invariant messages == rows[..i]
      {
        messages := messages + [rows[i]];
      }
      var a := new Message[|messages|](i requires 0 <= i < |messages| => messages[i]);
      assert a[..] == rows;
      ReverseInPlace(a);
      ReversedRowsArePage(RoomHistory(table, room), limit, before);
      PageIsFromRoom(table, room, limit, before);
      return Ok(a[..]);
    }

    // `before` is the cursor of the request as parsed.
    method List(rawLimit: string, room: RoomId, before: Result<Option<Time>, ()>, member: bool)
      returns (r: Result<seq<Message>, HistoryError>)
      ensures ParseLimit(rawLimit).Err? ==> r == Err(BadLimit)
      ensures ParseLimit(rawLimit).Ok? && before.Err? ==> r == Err(BadCursor)
      ensures ParseLimit(rawLimit).Ok? && before.Ok? && !member ==> r == Err(NotFound)
      ensures ParseLimit(rawLimit).Ok? && before.Ok? && member && room !in rooms ==> r == Err(RoomNotFound)
      ensures ParseLimit(rawLimit).Ok? && before.Ok? && member && room in rooms ==>
        r == Ok(Page(RoomHistory(table, room), ParseLimit(rawLimit).value, before.value))
      ensures r.Ok? ==> forall i :: 0 <= i < |r.value| ==> r.value[i].room == room && r.value[i] in table
    {
      var limit := ParseLimit(rawLimit);
      if limit.Err? {
        return Err(BadLimit);
      }
      if before.Err? {
        return Err(BadCursor);
      }
      if !member {
        return Err(NotFound);
      }
      r := ListByRoom(room, limit.value, before.value);
    }
  }

  // ---------- the limit ----------

  const DEFAULT_LIMIT := 50
  const MIN_LIMIT := 1
  const MAX_LIMIT := 100

  function Digits(s: string, acc: nat): Option<nat> {
    if s == [] then Some(acc)
    else if '0' <= s[0] <= '9' then Digits(s[1..], 10 * acc + (s[0] - '0') as nat)
    else None
  }

  // strconv.Atoi with 64-bit integers.
  function Atoi(s: string): Option<int> {
    var signed := s != "" && (s[0] == '+' || s[0] == '-');
    var body := if signed then s[1..] else s;
    if body == "" then None
    else
      match Digits(body, 0)
      case None => None
      case Some(n) =>
        var magnitude: int := n;
        var v := if signed && s[0] == '-' then -magnitude else magnitude;
        if -0x8000_0000_0000_0000 <= v < 0x8000_0000_0000_0000 then Some(v) else None
  }

  // n in decimal.
  function Numeral(n: nat): string {
    (if n < 10 then "" else Numeral(n / 10)) + ['0' + (n % 10) as char]
  }

  predicate AllDigits(s: string) {
    forall i :: 0 <= i < |s| ==> '0' <= s[i] <= '9'
  }

  lemma {:induction false} DigitsConcat(a: string, b: string, acc: nat)
    ensures Digits(a + b, acc) == match Digits(a, acc) case None => None case Some(n) => Digits(b, n)
    decreases |a|
  {
    if a == [] {
      assert a + b == b;
    } else if '0' <= a[0] <= '9' {
      assert (a + b)[1..] == a[1..] + b;
      DigitsConcat(a[1..], b, 10 * acc + (a[0] - '0') as nat);
    }
  }

  lemma {:induction false} DigitsOfNumeral(n: nat)
    ensures Digits(Numeral(n), 0) == Some(n) && Numeral(n) != "" && AllDigits(Numeral(n))
  {
    var d := '0' + (n % 10) as char;
    assert Digits([d], n / 10) == Some(n);
    if n >= 10 {
      DigitsOfNumeral(n / 10);
      DigitsConcat(Numeral(n / 10), [d], 0);
    } else {
      assert "" + [d] == [d];
    }
  }

  lemma {:induction false} DigitsIff(s: string, acc: nat)
    ensures Digits(s, acc).Some? <==> AllDigits(s)
    decreases |s|
  {
    if s != [] && '0' <= s[0] <= '9' {
      DigitsIff(s[1..], 10 * acc + (s[0] - '0') as nat);
      assert AllDigits(s[1..]) <==> AllDigits(s) by {
        assert s == [s[0]] + s[1..];
      }
    }
  }

  lemma {:induction false} DigitsOfZeros(zeros: string)
    requires forall i :: 0 <= i < |zeros| ==> zeros[i] == '0'
    ensures Digits(zeros, 0) == Some(0) && AllDigits(zeros)
  {
    if zeros != [] {
      DigitsOfZeros(zeros[1..]);
    }
  }

  // Every integer of 64 bits is read back from its numeral, with leading zeros and with either sign; no
  // larger one is accepted.
  lemma AtoiReadsNumerals(zeros: string, n: nat)
    requires forall i :: 0 <= i < |zeros| ==> zeros[i] == '0'
    ensures var s, magnitude: int := zeros + Numeral(n), n;
      && Atoi(s) == Atoi("+" + s) == (if n < 0x8000_0000_0000_0000 then Some(magnitude) else None)
      && Atoi("-" + s) == if n <= 0x8000_0000_0000_0000 then Some(-magnitude) else None
  {
    var s := zeros + Numeral(n);
    DigitsOfZeros(zeros);
    DigitsOfNumeral(n);
    DigitsConcat(zeros, Numeral(n), 0);
    assert ("+" + s)[1..] == s && ("-" + s)[1..] == s;
    assert '0' <= s[0] <= '9';
  }

  // Whatever else is accepted consists of digits too, after at most one sign.
  lemma AtoiRefuses(s: string)
    ensures Atoi(s).Some? ==> AllDigits(s) || (s != "" && (s[0] == '+' || s[0] == '-') && AllDigits(s[1..]))
    ensures Atoi(s).Some? ==> s != "" && '0' <= s[|s| - 1] <= '9'
  {
    var signed := s != "" && (s[0] == '+' || s[0] == '-');
    DigitsIff(if signed then s[1..] else s, 0);
  }

  // Whatever the client sends: fifty if it sends nothing, an integer brought into the range from one to
  // a hundred, and anything that is not an integer is refused.
  function ParseLimit(raw: string): (r: Result<nat, HistoryError>)
    ensures raw == "" ==> r == Ok(50)
    ensures r.Ok? ==> 1 <= r.value <= 100
    ensures Atoi(raw).Some? && 1 <= Atoi(raw).value <= 100 ==> r == Ok(Atoi(raw).value)
    ensures Atoi(raw).Some? && Atoi(raw).value < 1 ==> r == Ok(1)
    ensures Atoi(raw).Some? && Atoi(raw).value > 100 ==> r == Ok(100)
    ensures r.Err? <==> raw != "" && Atoi(raw).None?
  {
    if raw == "" then Ok(DEFAULT_LIMIT)
    else
      match Atoi(raw)
      case None => Err(BadLimit)
      case Some(n) => if n < MIN_LIMIT then Ok(MIN_LIMIT) else if n > MAX_LIMIT then Ok(MAX_LIMIT) else Ok(n)
  }
}
