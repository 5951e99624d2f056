/** The terminal sanitizer: a byte automaton, the grammar of what it strips, and their agreement. */
module Sanitizer {
  import opened Sequences

  newtype byte = x: int | 0 <= x < 256

  const BEL: byte := 0x07
  const TAB: byte := 0x09
  const NEWLINE: byte := 0x0A
  const ESC: byte := 0x1B
  const DEL: byte := 0x7F
  const OPEN_BRACKET: byte := 0x5B
  const BACKSLASH: byte := 0x5C
  const CLOSE_BRACKET: byte := 0x5D
  const CHARSETS: set<byte> := {0x28, 0x29, 0x2A, 0x2B}

  // ---------- the grammar ----------

  predicate IsText(c: byte) {
    c == NEWLINE || c == TAB || (32 <= c && c != DEL)
  }

  predicate IsFinal(c: byte) {
    0x40 <= c <= 0x7E
  }

  // A control sequence after its introducer: everything up to and including the first final byte.
  predicate CsiTail(t: seq<byte>) {
    t != [] && IsFinal(t[|t| - 1]) && forall i :: 0 <= i < |t| - 1 ==> !IsFinal(t[i])
  }

  // A string free of BEL and ESC, then BEL, or ESC and what may follow it there.
  ghost predicate OscTail(t: seq<byte>)
    decreases |t|, 1
  {
    exists k :: 0 <= k < |t| && OscEndsAt(t, k)
  }

  ghost predicate OscEndsAt(t: seq<byte>, k: nat)
    requires k < |t|
    decreases |t|, 0
  {
    && (forall i :: 0 <= i < k ==> t[i] != BEL && t[i] != ESC)
    && ((t[k] == BEL && |t| == k + 1) || (t[k] == ESC && OscEscapeTail(t[k + 1..])))
  }

  // Inside a string, ESC may open another sequence; any other byte after it ends the string.
  ghost predicate OscEscapeTail(t: seq<byte>)
    decreases |t|, 2
  {
    t != [] &&
    if t[0] == OPEN_BRACKET then CsiTail(t[1..])
    else if t[0] == CLOSE_BRACKET then OscTail(t[1..])
    else |t| == 1
  }

  // What may follow ESC in ordinary text.
  ghost predicate EscapeTail(t: seq<byte>) {
    t != [] &&
    if t[0] == OPEN_BRACKET then CsiTail(t[1..])
    else if t[0] == CLOSE_BRACKET then OscTail(t[1..])
    else if t[0] in CHARSETS then |t| == 2
    else |t| == 1
  }

  ghost predicate IsSequence(e: seq<byte>) {
    e != [] && e[0] == ESC && EscapeTail(e[1..])
  }

  // ESC and whatever follows it, if no escape sequence is complete by the end.
  ghost predicate IsUnterminated(e: seq<byte>) {
    e != [] && e[0] == ESC && forall k :: 0 <= k <= |e| ==> !IsSequence(e[..k])
  }

  datatype Item = Text(c: byte) | Control(c: byte) | Sequence(bytes: seq<byte>) | Unterminated(bytes: seq<byte>)

  ghost predicate WellFormed(item: Item) {
    match item
    case Text(c) => IsText(c)
    case Control(c) => !IsText(c) && c != ESC
    case Sequence(e) => IsSequence(e)
    case Unterminated(e) => IsUnterminated(e)
  }

  function Bytes(item: Item): seq<byte> {
    match item
    case Text(c) => [c]
    case Control(c) => [c]
    case Sequence(e) => e
    case Unterminated(e) => e
  }

  // The items are well formed, only the last may be unterminated, and together they spell out s.
  ghost predicate IsParse(s: seq<byte>, items: seq<Item>)
    decreases |items|
  {
    if items == [] then s == []
    else
      && WellFormed(items[0])
      && (items[0].Unterminated? ==> |items| == 1)
      && Bytes(items[0]) <= s
      && IsParse(s[|Bytes(items[0])|..], items[1..])
  }

  // The text bytes among the items.
  function TextOf(items: seq<Item>): seq<byte> {
    if items == [] then []
    else (if items[0].Text? then [items[0].c] else []) + TextOf(items[1..])
  }

  // ---------- the automaton ----------

  datatype State = Normal | Escape | Csi | Osc | OscEscape | Charset

  function Next(state: State, c: byte): State {
    match state
    case Normal => if c == ESC then Escape else Normal
    case Escape =>
      if c == OPEN_BRACKET then Csi
      else if c == CLOSE_BRACKET then Osc
      else if c in CHARSETS then Charset
      else Normal
    case Csi => if IsFinal(c) then Normal else Csi
    case Osc => if c == BEL then Normal else if c == ESC then OscEscape else Osc
    case OscEscape => if c == OPEN_BRACKET then Csi else if c == CLOSE_BRACKET then Osc else Normal
    case Charset => Normal
  }

  function Output(state: State, s: seq<byte>): seq<byte>
    decreases |s|
  {
    if s == [] then []
    else (if state == Normal && IsText(s[0]) then [s[0]] else []) + Output(Next(state, s[0]), s[1..])
  }

  function EndState(state: State, s: seq<byte>): State
    decreases |s|
  {
    if s == [] then state else EndState(Next(state, s[0]), s[1..])
  }

  function Sanitize(s: seq<byte>): seq<byte> {
    Output(Normal, s)
  }

  // t is where the automaton first comes back to Normal.
  predicate Completes(state: State, t: seq<byte>)
    decreases |t|
  {
    t != [] && if Next(state, t[0]) == Normal then |t| == 1 else Completes(Next(state, t[0]), t[1..])
  }

  // ---------- automaton and grammar agree on where a sequence ends ----------

  lemma {:induction false} CsiAgrees(t: seq<byte>)
    ensures CsiTail(t) <==> Completes(Csi, t)
  {
    if |t| > 1 && !IsFinal(t[0]) {
      CsiAgrees(t[1..]);
      assert t[1..][|t| - 2] == t[|t| - 1];
      assert forall i :: 0 < i < |t| ==> t[i] == t[1..][i - 1];
    }
  }

  lemma OscTailShift(t: seq<byte>)
    requires t != [] && t[0] != BEL && t[0] != ESC
    ensures OscTail(t) <==> OscTail(t[1..])
  {
    if k :| 0 <= k < |t| && OscEndsAt(t, k) {
      assert t[1..][k - 1..] == t[k..] && t[1..][k..] == t[k + 1..];
      assert OscEndsAt(t[1..], k - 1);
    }
    if k :| 0 <= k < |t[1..]| && OscEndsAt(t[1..], k) {
      assert t[1..][k + 1..] == t[k + 2..];
      forall i | 0 <= i < k + 1 ensures t[i] != BEL && t[i] != ESC {
        assert i > 0 ==> t[i] == t[1..][i - 1];
      }
      assert OscEndsAt(t, k + 1);
    }
  }

  lemma OscTailStops(t: seq<byte>)
    requires t != [] && (t[0] == BEL || t[0] == ESC)
    ensures OscTail(t) <==> OscEndsAt(t, 0)
  {
  }

  lemma {:induction false} OscAgrees(t: seq<byte>)
    ensures OscTail(t) <==> Completes(Osc, t)
    decreases |t|
  {
    if t == [] {
    } else if t[0] == BEL || t[0] == ESC {
      OscTailStops(t);
      if t[0] == ESC && |t| > 1 {
        CsiAgrees(t[2..]);
        OscAgrees(t[2..]);
        assert t[1..][1..] == t[2..];
      }
    } else {
      OscTailShift(t);
      OscAgrees(t[1..]);
    }
  }

  // A complete escape sequence is exactly a shortest way round from Normal through ESC.
  lemma SequenceAgrees(e: seq<byte>)
    requires e != [] && e[0] == ESC
    ensures IsSequence(e) <==> Completes(Normal, e)
  {
    var t := e[1..];
    assert Completes(Normal, e) <==> Completes(Escape, t);
    if t != [] {
      CsiAgrees(t[1..]);
      OscAgrees(t[1..]);
      assert Completes(Charset, t[1..]) <==> |t| == 2;
    }
  }

  // ---------- runs of the automaton ----------

  lemma {:induction false} EndConcat(state: State, a: seq<byte>, b: seq<byte>)
    ensures EndState(state, a + b) == EndState(EndState(state, a), b)
    decreases |a|
  {
    if a == [] {
      assert a + b == b;
    } else {
      assert (a + b)[0] == a[0] && (a + b)[1..] == a[1..] + b;
      EndConcat(Next(state, a[0]), a[1..], b);
    }
  }

  lemma {:induction false} OutputConcat(state: State, a: seq<byte>, b: seq<byte>)
    ensures Output(state, a + b) == Output(state, a) + Output(EndState(state, a), b)
    decreases |a|
  {
    if a == [] {
      assert a + b == b;
    } else {
      assert (a + b)[0] == a[0] && (a + b)[1..] == a[1..] + b;
      var next := Next(state, a[0]);
      OutputConcat(next, a[1..], b);
      var first := if state == Normal && IsText(a[0]) then [a[0]] else [];
      Regroup(first, Output(next, a[1..]), Output(EndState(state, a), b));
    }
  }

  lemma RunConcat(state: State, a: seq<byte>, b: seq<byte>)
    ensures Output(state, a + b) == Output(state, a) + Output(EndState(state, a), b)
    ensures EndState(state, a + b) == EndState(EndState(state, a), b)
  {
    OutputConcat(state, a, b);
    EndConcat(state, a, b);
  }

  lemma {:induction false} CompletesSilently(state: State, t: seq<byte>)
    requires Completes(state, t) && (state == Normal ==> t[0] == ESC)
    ensures Output(state, t) == [] && EndState(state, t) == Normal
    decreases |t|
  {
    if Next(state, t[0]) != Normal {
      CompletesSilently(Next(state, t[0]), t[1..]);
    }
  }

  lemma {:induction false} CompletesOnce(state: State, t: seq<byte>, u: seq<byte>)
    requires Completes(state, t) && Completes(state, u) && t <= u
    ensures t == u
    decreases |t|
  {
    if Next(state, t[0]) != Normal {
      CompletesOnce(Next(state, t[0]), t[1..], u[1..]);
    }
  }

  // The shortest prefix that brings the automaton back to Normal, or nothing.
  function Scan(state: State, s: seq<byte>): (n: nat)
    ensures n <= |s| && (n > 0 ==> Completes(state, s[..n]))
    ensures n == 0 ==> forall k :: 0 <= k <= |s| ==> !Completes(state, s[..k])
    decreases |s|
  {
    if s == [] then 0
    else if Next(state, s[0]) == Normal then
      assert s[..1] == [s[0]];
      1
    else
      var n := Scan(Next(state, s[0]), s[1..]);
      assert forall k :: 0 < k <= |s| ==> s[..k][1..] == s[1..][..k - 1];
      if n == 0 then 0 else n + 1
  }

  lemma {:induction false} NeverReturns(state: State, s: seq<byte>)
    requires state != Normal && forall k :: 0 <= k <= |s| ==> !Completes(state, s[..k])
    ensures Output(state, s) == [] && EndState(state, s) != Normal
    decreases |s|
  {
    if s != [] {
      var next := Next(state, s[0]);
      assert !Completes(state, s[..1]);
      forall k | 0 <= k <= |s[1..]| ensures !Completes(next, s[1..][..k]) {
        assert s[..k + 1][1..] == s[1..][..k];
      }
      NeverReturns(next, s[1..]);
    }
  }

  // ---------- parsing ----------

  function Parse(s: seq<byte>): seq<Item>
    decreases |s|
  {
    if s == [] then []
    else if s[0] != ESC then [if IsText(s[0]) then Text(s[0]) else Control(s[0])] + Parse(s[1..])
    else
      var n := Scan(Normal, s);
      if n == 0 then [Unterminated(s)] else [Sequence(s[..n])] + Parse(s[n..])
  }

  lemma UnterminatedAgrees(e: seq<byte>)
    requires e != [] && e[0] == ESC
    ensures IsUnterminated(e) <==> forall k :: 0 <= k <= |e| ==> !Completes(Normal, e[..k])
  {
    forall k | 0 < k <= |e| ensures IsSequence(e[..k]) <==> Completes(Normal, e[..k]) {
      SequenceAgrees(e[..k]);
    }
  }

  lemma UnterminatedIsSilent(e: seq<byte>)
    requires IsUnterminated(e)
    ensures Output(Normal, e) == [] && EndState(Normal, e) != Normal
  {
    UnterminatedAgrees(e);
    forall k | 0 <= k <= |e[1..]| ensures !Completes(Escape, e[1..][..k]) {
      assert e[..k + 1][1..] == e[1..][..k];
    }
    NeverReturns(Escape, e[1..]);
  }

  // Every input has a parse.
  lemma {:induction false} ParseIsParse(s: seq<byte>)
    ensures IsParse(s, Parse(s))
    decreases |s|
  {
    if s == [] {
    } else if s[0] != ESC {
      ParseIsParse(s[1..]);
      assert Parse(s)[1..] == Parse(s[1..]);
    } else {
      var n := Scan(Normal, s);
      if n == 0 {
        UnterminatedAgrees(s);
        assert s[|s|..] == [];
      } else {
        SequenceAgrees(s[..n]);
        ParseIsParse(s[n..]);
        assert Parse(s)[1..] == Parse(s[n..]);
      }
    }
  }

  // Two well-formed items that can start the same input are the same item, unless one of them takes
  // the whole input as unterminated.
  lemma ItemUnique(s: seq<byte>, a: Item, b: Item)
    requires WellFormed(a) && WellFormed(b) && Bytes(a) <= s && Bytes(b) <= s
    requires a.Unterminated? ==> a.bytes == s
    requires b.Unterminated? ==> b.bytes == s
    ensures a == b
  {
    if s[0] == ESC {
      if a.Sequence? && b.Sequence? {
        SequenceAgrees(a.bytes);
        SequenceAgrees(b.bytes);
        if |a.bytes| <= |b.bytes| {
          CompletesOnce(Normal, a.bytes, b.bytes);
        } else {
          CompletesOnce(Normal, b.bytes, a.bytes);
        }
      }
      if a.Sequence? {
        CompleteIsNotOpen(s, a.bytes);
      }
      if b.Sequence? {
        CompleteIsNotOpen(s, b.bytes);
      }
    }
  }

  lemma CompleteIsNotOpen(s: seq<byte>, e: seq<byte>)
    requires IsSequence(e) && e <= s
    ensures !IsUnterminated(s)
  {
    assert s[..|e|] == e;
  }

  // The split of an input into text, controls and escape sequences is unique.
  lemma {:induction false} ParseUnique(s: seq<byte>, a: seq<Item>, b: seq<Item>)
    requires IsParse(s, a) && IsParse(s, b)
    ensures a == b
    decreases |a|
  {
    if a != [] && b != [] {
      LastTakesAll(s, a);
      LastTakesAll(s, b);
      ItemUnique(s, a[0], b[0]);
      ParseUnique(s[|Bytes(a[0])|..], a[1..], b[1..]);
      assert a == [a[0]] + a[1..] && b == [b[0]] + b[1..];
    } else {
      EmptyParse(s, a);
      EmptyParse(s, b);
    }
  }

  lemma EmptyParse(s: seq<byte>, items: seq<Item>)
    requires IsParse(s, items)
    ensures s == [] <==> items == []
  {
    if items != [] {
      assert Bytes(items[0]) != [];
    }
  }

  lemma LastTakesAll(s: seq<byte>, items: seq<Item>)
    requires IsParse(s, items) && items != []
    ensures items[0].Unterminated? ==> items[0].bytes == s
  {
    if items[0].Unterminated? {
      assert items[1..] == [] && s == items[0].bytes + s[|items[0].bytes|..];
    }
  }

  predicate Closed(items: seq<Item>) {
    items == [] || !items[|items| - 1].Unterminated?
  }

  // The automaton writes exactly the text items, and ends in Normal exactly when no sequence is left
  // open.
  lemma {:induction false} OutputIsText(s: seq<byte>, items: seq<Item>)
    requires IsParse(s, items)
    ensures Sanitize(s) == TextOf(items)
    ensures EndState(Normal, s) == Normal <==> Closed(items)
    decreases |items|
  {
    if items != [] {
      var item, rest := items[0], s[|Bytes(items[0])|..];
      assert s == Bytes(item) + rest;
      OutputIsText(rest, items[1..]);
      ItemOutput(item);
      RunConcat(Normal, Bytes(item), rest);
      if item.Unterminated? {
        LastTakesAll(s, items);
        assert rest == [];
      } else {
        assert items[1..] != [] ==> items[1..][|items| - 2] == items[|items| - 1];
      }
    }
  }

  lemma ItemOutput(item: Item)
    requires WellFormed(item)
    ensures Output(Normal, Bytes(item)) == if item.Text? then [item.c] else []
    ensures EndState(Normal, Bytes(item)) == Normal <==> !item.Unterminated?
  {
    match item
    case Text(c) => assert [c][1..] == [];
    case Control(c) => assert [c][1..] == [];
    case Sequence(e) =>
      SequenceAgrees(e);
      CompletesSilently(Normal, e);
    case Unterminated(e) => UnterminatedIsSilent(e);
  }

  lemma PrefixStep(s: seq<byte>, i: nat)
    requires i < |s|
    ensures var state := EndState(Normal, s[..i]);
      && EndState(Normal, s[..i + 1]) == Next(state, s[i])
      && Output(Normal, s[..i + 1]) ==
        if state == Normal && IsText(s[i]) then Output(Normal, s[..i]) + [s[i]] else Output(Normal, s[..i])
  {
    assert s[..i + 1] == s[..i] + [s[i]];
    RunConcat(Normal, s[..i], [s[i]]);
    assert [s[i]][1..] == [];
  }

  method SanitizeTerminal(s: seq<byte>) returns (b: seq<byte>)
    ensures IsParse(s, Parse(s)) && b == TextOf(Parse(s))
    ensures b == Sanitize(s)
  {
    b := [];
    var state := Normal;
    var i := 0;
    while i < |s|
      invariant 0 <= i <= |s|
      invariant b == Output(Normal, s[..i]) && state == EndState(Normal, s[..i])
    {
      PrefixStep(s, i);
      var c := s[i];
      i := i + 1;
      match state {
        case Normal =>
          if c == ESC {
            state := Escape;
          } else if c == NEWLINE || c == TAB {
            b := b + [c];
          } else if c < 32 || c == DEL {
            continue;
          } else {
            b := b + [c];
          }
        case Escape =>
          if c == OPEN_BRACKET {
            state := Csi;
          } else if c == CLOSE_BRACKET {
            state := Osc;
          } else if c in CHARSETS {
            state := Charset;
          } else {
            state := Normal;
          }
        case Csi =>
          if c >= 0x40 && c <= 0x7E {
            state := Normal;
          }
        case Osc =>
          if c == BEL {
            state := Normal;
          } else if c == ESC {
            state := OscEscape;
          }
        case OscEscape =>
          if c == BACKSLASH {
            state := Normal;
          } else if c == OPEN_BRACKET {
            state := Csi;
          } else if c == CLOSE_BRACKET {
            state := Osc;
          } else {
            state := Normal;
          }
        case Charset =>
          state := Normal;
      }
    }
    assert s[..|s|] == s;
    ParseIsParse(s);
    OutputIsText(s, Parse(s));
  }

  // ---------- consequences ----------

  // Sanitizing piece by piece is sanitizing the whole, whatever comes second, if and only if the
  // first piece leaves no sequence open.
  lemma ConcatIff(a: seq<byte>)
    ensures (forall b: seq<byte> :: Sanitize(a + b) == Sanitize(a) + Sanitize(b)) <==> Closed(Parse(a))
  {
    ParseIsParse(a);
    OutputIsText(a, Parse(a));
    if Closed(Parse(a)) {
      forall b: seq<byte> ensures Sanitize(a + b) == Sanitize(a) + Sanitize(b) {
        RunConcat(Normal, a, b);
      }
    } else {
      var letter: seq<byte> := [0x41];
      RunConcat(Normal, a, letter);
      assert letter[1..] == [];
      assert Output(EndState(Normal, a), letter) == [] && Sanitize(letter) == letter;
      assert Sanitize(a + letter) != Sanitize(a) + Sanitize(letter);
    }
  }

  // An escape sequence outside any other leaves no trace, and what surrounds it is untouched.
  lemma SequencesVanish(a: seq<byte>, e: seq<byte>, b: seq<byte>)
    requires Closed(Parse(a)) && IsSequence(e)
    ensures Sanitize(a + e + b) == Sanitize(a) + Sanitize(b)
  {
    ParseIsParse(a);
    OutputIsText(a, Parse(a));
    SilentRun(e);
    Rejoin(a, e, b);
  }

  lemma SilentRun(e: seq<byte>)
    requires IsSequence(e)
    ensures Output(Normal, e) == [] && EndState(Normal, e) == Normal
  {
    SequenceAgrees(e);
    CompletesSilently(Normal, e);
  }

  lemma Rejoin(a: seq<byte>, e: seq<byte>, b: seq<byte>)
    requires EndState(Normal, a) == EndState(Normal, e) == Normal && Output(Normal, e) == []
    ensures Sanitize(a + e + b) == Sanitize(a) + Sanitize(b)
  {
    RunConcat(Normal, a, e);
    RunConcat(Normal, a + e, b);
    assert Sanitize(a) + [] == Sanitize(a);
  }

  predicate IsParameter(c: byte) {
    0x30 <= c <= 0x3F
  }

  predicate IsIntermediate(c: byte) {
    0x20 <= c <= 0x2F
  }

  predicate ParametersEndAt(e: seq<byte>, k: nat)
    requires 2 <= k < |e|
  {
    && (forall i :: 2 <= i < k ==> IsParameter(e[i]))
    && (forall i :: k <= i < |e| - 1 ==> IsIntermediate(e[i]))
  }

  // Section 5.4 of ECMA-48: the introducer, parameter bytes, intermediate bytes, a final byte.
  predicate IsControlSequence(e: seq<byte>) {
    && |e| >= 3 && e[0] == ESC && e[1] == OPEN_BRACKET && IsFinal(e[|e| - 1])
    && exists k :: 2 <= k < |e| && ParametersEndAt(e, k)
  }

  // Every control sequence of the standard is one the grammar strips.
  lemma StandardIsCovered(e: seq<byte>)
    requires IsControlSequence(e)
    ensures IsSequence(e)
  {
    var k :| 2 <= k < |e| && ParametersEndAt(e, k);
    var t := e[1..][1..];
    forall i | 0 <= i < |t| - 1 ensures !IsFinal(t[i]) {
      assert t[i] == e[i + 2];
    }
    assert t[|t| - 1] == e[|e| - 1];
  }

  // Between introducer and final byte: only bytes of the standard, no parameter after an intermediate.
  predicate StandardBetween(e: seq<byte>) {
    && (forall i :: 2 <= i < |e| - 1 ==> IsParameter(e[i]) || IsIntermediate(e[i]))
    && (forall i, j :: 2 <= i < j < |e| - 1 && IsIntermediate(e[i]) ==> !IsParameter(e[j]))
  }

  lemma {:induction false} FirstIntermediate(e: seq<byte>, from: nat) returns (k: nat)
    requires 2 <= from < |e| && StandardBetween(e) && forall i :: 2 <= i < from ==> IsParameter(e[i])
    ensures 2 <= k < |e| && ParametersEndAt(e, k)
    decreases |e| - from
  {
    if from == |e| - 1 || IsIntermediate(e[from]) {
      k := from;
    } else {
      k := FirstIntermediate(e, from + 1);
    }
  }

  // Of the sequences stripped that begin like a control sequence, exactly those are in the standard.
  // The code lets any byte that is not final stand there.
  lemma StandardIff(e: seq<byte>)
    requires IsSequence(e) && |e| >= 2 && e[1] == OPEN_BRACKET
    ensures IsControlSequence(e) <==> StandardBetween(e)
  {
    var t := e[1..][1..];
    assert |e| >= 3 && t[|t| - 1] == e[|e| - 1];
    if StandardBetween(e) {
      var k := FirstIntermediate(e, 2);
    }
  }

  // A newline inside, for one: stripped, and not in the standard.
  lemma NotStandard()
    ensures var e := [ESC, OPEN_BRACKET, NEWLINE, 0x6D];
      IsSequence(e) && !IsControlSequence(e)
  {
    var e := [ESC, OPEN_BRACKET, NEWLINE, 0x6D];
    assert e[1..][1..] == [NEWLINE, 0x6D];
    assert e[2] == NEWLINE;
    StandardIff(e);
  }

  predicate Clean(s: seq<byte>) {
    forall i :: 0 <= i < |s| ==> IsText(s[i])
  }

  lemma {:induction false} OutputIsClean(state: State, s: seq<byte>)
    ensures Clean(Output(state, s)) && |Output(state, s)| <= |s|
    decreases |s|
  {
    if s != [] {
      OutputIsClean(Next(state, s[0]), s[1..]);
    }
  }

  // A string comes through unchanged if and only if it holds nothing but tabs, newlines, the printable
  // characters of ASCII and the bytes of multi-byte characters.
  lemma {:induction false} UnchangedIffClean(s: seq<byte>)
    ensures Sanitize(s) == s <==>
      forall i :: 0 <= i < |s| ==> s[i] == 9 || s[i] == 10 || 32 <= s[i] <= 126 || 128 <= s[i]
  {
    if s != [] {
      if IsText(s[0]) {
        UnchangedIffClean(s[1..]);
        assert s == [s[0]] + s[1..];
        if Sanitize(s) == s {
          assert Sanitize(s)[1..] == Sanitize(s[1..]);
        }
      } else {
        OutputIsClean(Normal, s);
      }
    }
  }

  // Three bytes from ESC on: a character set designation takes all three, what opens a longer sequence
  // leaves it open or ends it here, and after any other byte the third is text again.
  lemma ThreeBytes(c: byte, d: byte)
    ensures var out := Sanitize([0x1B, c, d]);
      if c == 0x28 || c == 0x29 || c == 0x2A || c == 0x2B || c == 0x5B || c == 0x5D then out == []
      else if d == 9 || d == 10 || 32 <= d <= 126 || 128 <= d then out == [d]
      else out == []
    ensures EndState(Normal, [0x1B, c, d]) == Normal <==>
      if c == 0x5B then 0x40 <= d <= 0x7E
      else if c == 0x5D then d == 7
      else d != 0x1B || c == 0x28 || c == 0x29 || c == 0x2A || c == 0x2B
  {
    var s: seq<byte> := [0x1B, c, d];
    var state := Next(Escape, c);
    assert s[1..] == [c, d] && [c, d][1..] == [d] && [d][1..] == [];
    assert Output(Normal, s) == [] + Output(Escape, [c, d]);
    assert Output(Escape, [c, d]) == [] + Output(state, [d]);
    assert Output(state, [d]) == (if state == Normal && IsText(d) then [d] else []) + [];
    assert EndState(Normal, s) == EndState(Escape, [c, d]) == EndState(state, [d]) == Next(state, d);
  }

  // What ends a title or another operating-system command: BEL, ESC and a backslash or any other byte that
  // opens nothing, or a sequence that begins inside.
  predicate EndsString(end: seq<byte>) {
    || end == [0x07]
    || (|end| == 2 && end[0] == 0x1B && end[1] != 0x5B && end[1] != 0x5D)
    || (|end| == 3 && end[0] == 0x1B && end[1] == 0x5B && 0x40 <= end[2] <= 0x7E)
    || (|end| == 3 && end[0] == 0x1B && end[1] == 0x5D && end[2] == 0x07)
  }

  lemma EndEscapes(end: seq<byte>)
    requires EndsString(end) && end[0] == ESC
    ensures OscEscapeTail(end[1..])
  {
    var t := end[1..];
    if t[0] == OPEN_BRACKET {
      assert t[1..] == [end[2]];
    } else if t[0] == CLOSE_BRACKET {
      assert t[1..] == [BEL];
      assert OscEndsAt(t[1..], 0);
    }
  }

  // Text before and after such a command comes through, nothing of the command does.
  lemma TitleVanishes(a: seq<byte>, title: seq<byte>, end: seq<byte>, b: seq<byte>)
    requires Closed(Parse(a)) && EndsString(end)
    requires forall i :: 0 <= i < |title| ==> title[i] != 0x07 && title[i] != 0x1B
    ensures Sanitize(a + ([0x1B, 0x5D] + title + end) + b) == Sanitize(a) + Sanitize(b)
  {
    var e: seq<byte> := [0x1B, 0x5D] + title + end;
    var t := title + end;
    assert e[1..] == [CLOSE_BRACKET] + t && e[1..][1..] == t;
    assert t[|title| + 1..] == end[1..];
    if end[0] == ESC {
      EndEscapes(end);
    }
    assert OscEndsAt(t, |title|);
    SequencesVanish(a, e, b);
  }

  lemma Idempotent(s: seq<byte>)
    ensures Sanitize(Sanitize(s)) == Sanitize(s)
  {
    OutputIsClean(Normal, s);
    UnchangedIffClean(Sanitize(s));
  }

  predicate Subsequence(a: seq<byte>, b: seq<byte>) {
    a == [] || (b != [] && if a[0] == b[0] then Subsequence(a[1..], b[1..]) else Subsequence(a, b[1..]))
  }

  lemma {:induction false} SubsequenceGrows(a: seq<byte>, b: seq<byte>, c: byte)
    requires Subsequence(a, b)
    ensures Subsequence(a, [c] + b)
    decreases |b|, 1
  {
    if a != [] {
      assert ([c] + b)[1..] == b;
      if a[0] == c {
        assert Subsequence(a[1..], b) by {
          if a[0] == b[0] {
            SubsequenceGrows(a[1..], b[1..], b[0]);
            assert [b[0]] + b[1..] == b;
          } else {
            TailSubsequence(a, b);
          }
        }
      }
    }
  }

  lemma {:induction false} TailSubsequence(a: seq<byte>, b: seq<byte>)
    requires a != [] && Subsequence(a, b)
    ensures Subsequence(a[1..], b)
    decreases |b|, 0
  {
    if a[0] == b[0] {
      SubsequenceGrows(a[1..], b[1..], b[0]);
      assert [b[0]] + b[1..] == b;
    } else {
      TailSubsequence(a, b[1..]);
      SubsequenceGrows(a[1..], b[1..], b[0]);
      assert [b[0]] + b[1..] == b;
    }
  }

  lemma {:induction false} OutputIsSubsequence(state: State, s: seq<byte>)
    ensures Subsequence(Output(state, s), s)
    decreases |s|
  {
    if s != [] {
      var rest := Output(Next(state, s[0]), s[1..]);
      OutputIsSubsequence(Next(state, s[0]), s[1..]);
      if state == Normal && IsText(s[0]) {
        assert ([s[0]] + rest)[1..] == rest;
      } else {
        SubsequenceGrows(rest, s[1..], s[0]);
        assert [s[0]] + s[1..] == s && [] + rest == rest;
      }
    }
  }

  // Nothing is added or reordered, and neither controls nor DEL survive.
  lemma OutputIsSafe(s: seq<byte>)
    ensures Subsequence(Sanitize(s), s)
    ensures forall i :: 0 <= i < |Sanitize(s)| ==>
      var c := Sanitize(s)[i];
      c != DEL && (c < 32 ==> c == NEWLINE || c == TAB)
  {
    OutputIsSubsequence(Normal, s);
    OutputIsClean(Normal, s);
  }
}
