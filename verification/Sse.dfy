/**
 The relay of a server-sent event stream (section 9.2 of the WHATWG HTML Living Standard): bytes in,
 events out, usage-only events dropped when the usage was asked for by the proxy itself.
 */
module Sse {
  newtype byte = b: int | 0 <= b < 256

  type Bytes = seq<byte>

  const LF: byte := 10
  const CR: byte := 13
  const SPACE: byte := 32
  const DATA: Bytes := [100, 97, 116, 97, 58]  // "data:"
  const DONE: Bytes := [91, 68, 79, 78, 69, 93]  // "[DONE]"

  // Lines.

  /** Where the first line ends: just after its line feed, or at the end of the input. */
  function LineEnd(s: Bytes): (n: nat)
    ensures n <= |s| && (s != [] ==> n > 0)
    ensures forall i :: 0 <= i < n - 1 ==> s[i] != LF
    ensures n < |s| ==> s[n - 1] == LF
  {
    if s == [] then 0 else if s[0] == LF then 1 else 1 + LineEnd(s[1..])
  }

  /** A slice without the carriage returns and line feeds at its end. */
  function TrimEol(s: Bytes): Bytes {
    if s != [] && (s[|s| - 1] == CR || s[|s| - 1] == LF) then TrimEol(s[..|s| - 1]) else s
  }

  /** How many bytes the next event takes: its lines up to and with a blank one, or all that is left. */
  function EventEnd(s: Bytes): (n: nat)
    ensures n <= |s| && (s != [] ==> n > 0)
    decreases |s|
  {
    var k := LineEnd(s);
    if k == |s| || TrimEol(s[..k]) == [] then k else k + EventEnd(s[k..])
  }

  function Events(s: Bytes): seq<Bytes>
    decreases |s|
  {
    if s == [] then [] else [s[..EventEnd(s)]] + Events(s[EventEnd(s)..])
  }

  function Concat(parts: seq<Bytes>): Bytes {
    if parts == [] then [] else parts[0] + Concat(parts[1..])
  }

  /** Framing loses and adds nothing. */
  lemma {:induction false} EventsPartition(s: Bytes)
    ensures Concat(Events(s)) == s
    decreases |s|
  {
    if s != [] {
      EventsPartition(s[EventEnd(s)..]);
    }
  }

  /** What the client gets for one event. */
  function Shown(event: Bytes, dropped: Bytes -> bool, rewrite: Bytes -> Bytes): Bytes {
    if dropped(event) then [] else rewrite(event)
  }

  function ShownAll(events: seq<Bytes>, dropped: Bytes -> bool, rewrite: Bytes -> Bytes): Bytes {
    if events == [] then [] else Shown(events[0], dropped, rewrite) + ShownAll(events[1..], dropped, rewrite)
  }

  /** What is still to come once `buffer` holds complete, non-blank lines of the current event. */
  function Remaining(buffer: Bytes, rest: Bytes, dropped: Bytes -> bool, rewrite: Bytes -> Bytes): Bytes {
    if rest == [] then (if buffer == [] then [] else Shown(buffer, dropped, rewrite))
    else
      ShownFrom(buffer + rest[..EventEnd(rest)], rest[EventEnd(rest)..], dropped, rewrite)
  }

  function ShownFrom(event: Bytes, later: Bytes, dropped: Bytes -> bool, rewrite: Bytes -> Bytes): Bytes {
    Shown(event, dropped, rewrite) + ShownAll(Events(later), dropped, rewrite)
  }

  lemma StartOfEvent(rest: Bytes, dropped: Bytes -> bool, rewrite: Bytes -> Bytes)
    ensures Remaining([], rest, dropped, rewrite) == ShownAll(Events(rest), dropped, rewrite)
  {
    if rest != [] {
      var n := EventEnd(rest);
      assert [] + rest[..n] == rest[..n];
      assert Events(rest)[1..] == Events(rest[n..]);
    }
  }

  /** A blank line ends its event. */
  lemma BlankLine(buffer: Bytes, rest: Bytes, dropped: Bytes -> bool, rewrite: Bytes -> Bytes)
    requires rest != [] && TrimEol(rest[..LineEnd(rest)]) == []
    ensures Remaining(buffer, rest, dropped, rewrite)
         == Shown(buffer + rest[..LineEnd(rest)], dropped, rewrite) + ShownAll(Events(rest[LineEnd(rest)..]), dropped, rewrite)
  {
    assert EventEnd(rest) == LineEnd(rest);
  }

  lemma EventEndCases(s: Bytes)
    requires s != []
    ensures EventEnd(s)
         == if LineEnd(s) < |s| && TrimEol(s[..LineEnd(s)]) != [] then LineEnd(s) + EventEnd(s[LineEnd(s)..]) else LineEnd(s)
  {
  }

  lemma Pieces(buffer: Bytes, line: Bytes, left: Bytes, m: nat)
    requires m <= |left|
    ensures (line + left)[|line| + m..] == left[m..]
    ensures buffer + (line + left)[..|line| + m] == buffer + line + left[..m]
  {
    assert (line + left)[..|line| + m] == line + left[..m];
    Regroup(buffer, line, left[..m]);
  }

  lemma LastLine(buffer: Bytes, rest: Bytes, dropped: Bytes -> bool, rewrite: Bytes -> Bytes)
    requires rest != [] && EventEnd(rest) == |rest|
    ensures Remaining(buffer, rest, dropped, rewrite) == Remaining(buffer + rest, [], dropped, rewrite)
  {
    hide LineEnd, EventEnd, TrimEol, Shown;
    assert rest[..|rest|] == rest && rest[|rest|..] == [];
    assert Events([]) == [] && ShownAll([], dropped, rewrite) == [];
    assert Shown(buffer + rest, dropped, rewrite) + [] == Shown(buffer + rest, dropped, rewrite);
  }

  lemma RemainingIs(buffer: Bytes, rest: Bytes, event: Bytes, later: Bytes, dropped: Bytes -> bool, rewrite: Bytes -> Bytes)
    requires rest != [] && event == buffer + rest[..EventEnd(rest)] && later == rest[EventEnd(rest)..]
    ensures Remaining(buffer, rest, dropped, rewrite) == ShownFrom(event, later, dropped, rewrite)
  {
    hide EventEnd, ShownFrom;
  }

  lemma MiddleLine(buffer: Bytes, line: Bytes, left: Bytes, dropped: Bytes -> bool, rewrite: Bytes -> Bytes)
    requires left != [] && EventEnd(line + left) == |line| + EventEnd(left)
    ensures Remaining(buffer, line + left, dropped, rewrite) == Remaining(buffer + line, left, dropped, rewrite)
  {
    hide LineEnd, EventEnd, TrimEol, ShownFrom, Remaining;
    var m := EventEnd(left);
    var event, later := buffer + line + left[..m], left[m..];
    Pieces(buffer, line, left, m);
    RemainingIs(buffer, line + left, event, later, dropped, rewrite);
    RemainingIs(buffer + line, left, event, later, dropped, rewrite);
  }

  /** Any other line leaves what is still to come as it is. */
  lemma InnerLine(buffer: Bytes, rest: Bytes, dropped: Bytes -> bool, rewrite: Bytes -> Bytes)
    requires rest != [] && TrimEol(rest[..LineEnd(rest)]) != []
    ensures Remaining(buffer, rest, dropped, rewrite)
         == Remaining(buffer + rest[..LineEnd(rest)], rest[LineEnd(rest)..], dropped, rewrite)
  {
    EventEndCases(rest);
    hide LineEnd, EventEnd, TrimEol, Remaining;
    var n := LineEnd(rest);
    if n == |rest| {
      LastLine(buffer, rest, dropped, rewrite);
      assert rest[..n] == rest && rest[n..] == [];
    } else {
      assert rest == rest[..n] + rest[n..];
      MiddleLine(buffer, rest[..n], rest[n..], dropped, rewrite);
    }
  }

  /** The read loop: line by line into a buffer, which a blank line or the end of the stream flushes. */
  method Relay(input: Bytes, dropped: Bytes -> bool, rewrite: Bytes -> Bytes) returns (output: Bytes)
    ensures output == ShownAll(Events(input), dropped, rewrite)
  {
    hide LineEnd, EventEnd, TrimEol, Events, ShownAll;
    output := [];
    var buffer: Bytes, rest := [], input;
    StartOfEvent(input, dropped, rewrite);
    while rest != []
      invariant output + Remaining(buffer, rest, dropped, rewrite) == ShownAll(Events(input), dropped, rewrite)
      decreases |rest|
    {
      var line := rest[..LineEnd(rest)];
      ghost var left := rest[LineEnd(rest)..];
      if TrimEol(line) == [] {
        BlankLine(buffer, rest, dropped, rewrite);
        StartOfEvent(left, dropped, rewrite);
        Regroup(output, Shown(buffer + line, dropped, rewrite), Remaining([], left, dropped, rewrite));
      } else {
        InnerLine(buffer, rest, dropped, rewrite);
      }
      rest := rest[LineEnd(rest)..];
      buffer := buffer + line;
      if TrimEol(line) == [] {
        if !dropped(buffer) {
          output := output + rewrite(buffer);
        }
        buffer := [];
      }
    }
    if buffer != [] && !dropped(buffer) {
      output := output + rewrite(buffer);
    }
  }

  lemma Regroup(a: Bytes, b: Bytes, c: Bytes)
    ensures a + (b + c) == a + b + c
    ensures a + [] == a
  {
  }

  function Keep(events: seq<Bytes>, dropped: Bytes -> bool): seq<Bytes> {
    if events == [] then []
    else if dropped(events[0]) then Keep(events[1..], dropped)
    else [events[0]] + Keep(events[1..], dropped)
  }

  lemma {:induction false} ShownIsKept(events: seq<Bytes>, dropped: Bytes -> bool, rewrite: Bytes -> Bytes)
    requires forall e :: e in events && !dropped(e) ==> rewrite(e) == e
    ensures ShownAll(events, dropped, rewrite) == Concat(Keep(events, dropped))
  {
    if events != [] {
      ShownIsKept(events[1..], dropped, rewrite);
    }
  }

  lemma {:induction false} KeepAll(events: seq<Bytes>, dropped: Bytes -> bool)
    requires forall e :: e in events ==> !dropped(e)
    ensures Keep(events, dropped) == events
  {
    if events != [] {
      KeepAll(events[1..], dropped);
    }
  }

  // Rewriting the data of one event.

  /** The lines of an event, as splitting at every line feed gives them: always at least one. */
  function Split(s: Bytes): (lines: seq<Bytes>)
    ensures lines != []
    ensures forall i :: 0 <= i < |lines| ==> LF !in lines[i]
    decreases |s|
  {
    var n := LineEnd(s);
    if n == 0 || s[n - 1] != LF then [s] else [s[..n - 1]] + Split(s[n..])
  }

  function Join(lines: seq<Bytes>, eol: Bytes): Bytes
    requires lines != []
  {
    if |lines| == 1 then lines[0] else lines[0] + eol + Join(lines[1..], eol)
  }

  function TrimCr(s: Bytes): (t: Bytes)
    ensures t == [] || t[|t| - 1] != CR
    ensures |t| <= |s| && t == s[..|t|]
  {
    if s != [] && s[|s| - 1] == CR then TrimCr(s[..|s| - 1]) else s
  }

  function TrimLines(lines: seq<Bytes>): (t: seq<Bytes>)
    ensures |t| == |lines| && forall i :: 0 <= i < |lines| ==> t[i] == TrimCr(lines[i])
  {
    if lines == [] then [] else [TrimCr(lines[0])] + TrimLines(lines[1..])
  }

  /** The lines of an event without their line ends. */
  function Lines(event: Bytes): (lines: seq<Bytes>)
    ensures lines != []
  {
    TrimLines(Split(event))
  }

  predicate IsData(line: Bytes) {
    |DATA| <= |line| && line[..|DATA|] == DATA
  }

  predicate IsSpace(b: byte) {
    b == SPACE || 9 <= b <= 13
  }

  /** The UTF-8 forms of the white space beyond ASCII: U+0085, U+00A0, U+1680, U+2000 to U+200A, U+2028,
      U+2029, U+202F, U+205F and U+3000. */
  predicate IsWideSpace(s: Bytes) {
    || s == [0xC2, 0x85] || s == [0xC2, 0xA0] || s == [0xE1, 0x9A, 0x80] || s == [0xE2, 0x81, 0x9F] || s == [0xE3, 0x80, 0x80]
    || (|s| == 3 && s[0] == 0xE2 && s[1] == 0x80 && (0x80 <= s[2] <= 0x8A || s[2] == 0xA8 || s[2] == 0xA9 || s[2] == 0xAF))
  }

  /** How many bytes the white space character at the start takes, 0 if there is none. */
  function SpaceAtStart(s: Bytes): (n: nat)
    ensures n <= |s|
  {
    if s != [] && IsSpace(s[0]) then 1
    else if |s| >= 2 && IsWideSpace(s[..2]) then 2
    else if |s| >= 3 && IsWideSpace(s[..3]) then 3
    else 0
  }

  function SpaceAtEnd(s: Bytes): (n: nat)
    ensures n <= |s|
    ensures n == 0 && s != [] ==> !IsSpace(s[|s| - 1])
  {
    if s != [] && IsSpace(s[|s| - 1]) then 1
    else if |s| >= 2 && IsWideSpace(s[|s| - 2..]) then 2
    else if |s| >= 3 && IsWideSpace(s[|s| - 3..]) then 3
    else 0
  }

  function TrimLeft(s: Bytes): Bytes {
    if SpaceAtStart(s) > 0 then TrimLeft(s[SpaceAtStart(s)..]) else s
  }

  function TrimRight(s: Bytes): Bytes {
    if SpaceAtEnd(s) > 0 then TrimRight(s[..|s| - SpaceAtEnd(s)]) else s
  }

  function TrimSpace(s: Bytes): Bytes {
    TrimRight(TrimLeft(s))
  }

  /** The value of a data line; one space after the colon belongs to the prefix. */
  function DataValue(line: Bytes): Bytes
    requires IsData(line)
  {
    if |line| > |DATA| && line[|DATA|] == SPACE then TrimSpace(line[|DATA| + 1..]) else TrimSpace(line[|DATA|..])
  }

  function DataValues(lines: seq<Bytes>): seq<Bytes> {
    if lines == [] then []
    else if IsData(lines[0]) then [DataValue(lines[0])] + DataValues(lines[1..])
    else DataValues(lines[1..])
  }

  /** The data payload of an event: the values of its data lines, one per line. */
  function Payload(event: Bytes): Bytes {
    var values := DataValues(Lines(event));
    if values == [] then [] else Join(values, [LF])
  }

  /** `inspect` stands for the decoder: a JSON object with no choices and a usage. */
  predicate UsageOnly(event: Bytes, inspect: Bytes -> bool) {
    DataValues(Lines(event)) != [] && Payload(event) != DONE && inspect(Payload(event))
  }

  method IsUsageOnlySSEEvent(event: Bytes, inspect: Bytes -> bool) returns (usageOnly: bool, payload: Bytes)
    ensures usageOnly == UsageOnly(event, inspect)
    ensures payload == Payload(event)
  {
    hide Split, TrimCr, TrimLines, IsData, DataValue, TrimSpace;
    var lines := Split(event);
    var dataLines: seq<Bytes> := [];
    for i := 0 to |lines|
      invariant DataValues(Lines(event)) == dataLines + DataValues(Lines(event)[i..])
    {
      var trimmed := TrimCr(lines[i]);
      assert Lines(event)[i..][0] == trimmed && Lines(event)[i..][1..] == Lines(event)[i + 1..];
      if IsData(trimmed) {
        dataLines := dataLines + [DataValue(trimmed)];
      }
    }
    assert Lines(event)[|lines|..] == [] && dataLines + [] == dataLines;
    if dataLines == [] {
      return false, [];
    }
    payload := Join(dataLines, [LF]);
    usageOnly := payload != DONE && inspect(payload);
  }

  /** Without tools on offer no event is rewritten: the client gets the upstream bytes, minus whole
      usage-only events, and those only if the proxy asked for the usage. */
  method RelayWithoutTools(input: Bytes, inspect: Bytes -> bool, injected: bool) returns (output: Bytes)
    ensures output == Concat(Keep(Events(input), e => injected && UsageOnly(e, inspect)))
    ensures !injected || (forall e :: e in Events(input) ==> !UsageOnly(e, inspect)) ==> output == input
  {
    var dropped := e => injected && UsageOnly(e, inspect);
    output := Relay(input, dropped, e => e);
    ShownIsKept(Events(input), dropped, e => e);
    EventsPartition(input);
    if !injected || (forall e :: e in Events(input) ==> !UsageOnly(e, inspect)) {
      KeepAll(Events(input), dropped);
    }
  }

  predicate HasCrLf(event: Bytes) {
    exists i :: 0 <= i < |event| - 1 && event[i] == CR && event[i + 1] == LF
  }

  function Eol(event: Bytes): Bytes {
    if HasCrLf(event) then [CR, LF] else [LF]
  }

  /** The first data line gets the new payload, the other data lines go, all else stays in order. */
  function ReplaceLines(lines: seq<Bytes>, payload: Bytes, replaced: bool): seq<Bytes> {
    if lines == [] then []
    else if !IsData(lines[0]) then [lines[0]] + ReplaceLines(lines[1..], payload, replaced)
    else if replaced then ReplaceLines(lines[1..], payload, true)
    else [DATA + [SPACE] + payload] + ReplaceLines(lines[1..], payload, true)
  }

  function ReplaceData(event: Bytes, payload: Bytes): Bytes {
    var lines := ReplaceLines(Lines(event), payload, false);
    if lines == [] then [] else Join(lines, Eol(event))
  }

  /** What the line after the ones already handled contributes. */
  lemma ReplaceStep(lines: seq<Bytes>, i: nat, payload: Bytes, replaced: bool)
    requires i < |lines|
    ensures ReplaceLines(lines[i..], payload, replaced)
         == (if !IsData(lines[i]) then [lines[i]] else if replaced then [] else [DATA + [SPACE] + payload])
            + ReplaceLines(lines[i + 1..], payload, replaced || IsData(lines[i]))
  {
    assert lines[i..][0] == lines[i] && lines[i..][1..] == lines[i + 1..];
  }

  lemma Append<T>(a: seq<T>, b: seq<T>, c: seq<T>)
    ensures a + (b + c) == (a + b) + c
  {
  }

  method ReplaceSSEData(event: Bytes, payload: Bytes) returns (r: Bytes)
    ensures r == ReplaceData(event, payload)
  {
    ghost var trimmedLines := Lines(event);
    assert trimmedLines[0..] == trimmedLines;
    hide Split, TrimCr, TrimLines, HasCrLf, IsData, ReplaceLines;
    var eol := Eol(event);
    var lines := Split(event);
    var newLines: seq<Bytes> := [];
    var dataReplaced := false;
    for i := 0 to |lines|
      invariant ReplaceLines(trimmedLines, payload, false) == newLines + ReplaceLines(trimmedLines[i..], payload, dataReplaced)
    {
      var trimmed := TrimCr(lines[i]);
      ReplaceStep(trimmedLines, i, payload, dataReplaced);
      ghost var later := ReplaceLines(trimmedLines[i + 1..], payload, dataReplaced || IsData(trimmed));
      if IsData(trimmed) {
        if !dataReplaced {
          Append(newLines, [DATA + [SPACE] + payload], later);
          newLines := newLines + [DATA + [SPACE] + payload];
          dataReplaced := true;
        } else {
          Append(newLines, [], later);
        }
      } else {
        Append(newLines, [trimmed], later);
        newLines := newLines + [trimmed];
      }
    }
    NoLinesLeft(trimmedLines[|lines|..], payload, dataReplaced);
    assert newLines + [] == newLines;
    return if newLines == [] then [] else Join(newLines, eol);
  }

  lemma NoLinesLeft(lines: seq<Bytes>, payload: Bytes, replaced: bool)
    requires lines == []
    ensures ReplaceLines(lines, payload, replaced) == []
  {
  }

  predicate IsEol(eol: Bytes) {
    eol == [LF] || eol == [CR, LF]
  }

  /** A line that splitting and trimming give back unchanged. */
  predicate Clean(line: Bytes) {
    LF !in line && (line == [] || line[|line| - 1] != CR)
  }

  lemma {:induction false} LineEndOf(line: Bytes, tail: Bytes)
    requires LF !in line && (tail == [] || tail[0] == LF)
    ensures LineEnd(line + tail) == |line| + if tail == [] then 0 else 1
    decreases |line|
  {
    if line == [] {
      assert line + tail == tail;
    } else {
      assert (line + tail)[1..] == line[1..] + tail;
      LineEndOf(line[1..], tail);
    }
  }

  lemma SplitFirst(line: Bytes, rest: Bytes)
    requires LF !in line
    ensures Split(line + [LF] + rest) == [line] + Split(rest)
  {
    var s := line + [LF] + rest;
    assert s == line + ([LF] + rest);
    LineEndOf(line, [LF] + rest);
    assert s[..|line|] == line && s[|line| + 1..] == rest;
  }

  lemma SplitLast(line: Bytes)
    requires LF !in line
    ensures Split(line) == [line]
  {
    assert line + [] == line;
    LineEndOf(line, []);
  }

  lemma TrimCrOnce(line: Bytes)
    requires Clean(line)
    ensures TrimCr(line) == line && TrimCr(line + [CR]) == line
  {
    assert (line + [CR])[..|line|] == line;
  }

  /** Joined lines split and trim back to themselves, with either line end. */
  lemma {:induction false} JoinThenLines(lines: seq<Bytes>, eol: Bytes)
    requires lines != [] && (forall i :: 0 <= i < |lines| ==> Clean(lines[i])) && IsEol(eol)
    ensures Lines(Join(lines, eol)) == lines
    decreases |lines|
  {
    var line := lines[0];
    TrimCrOnce(line);
    if |lines| == 1 {
      SplitLast(line);
    } else {
      var rest := Join(lines[1..], eol);
      JoinThenLines(lines[1..], eol);
      FirstOfJoined(line, eol, rest);
    }
  }

  lemma FirstOfJoined(line: Bytes, eol: Bytes, rest: Bytes)
    requires Clean(line) && IsEol(eol)
    ensures Lines(line + eol + rest) == [line] + Lines(rest)
  {
    var first := if eol == [LF] then line else line + [CR];
    assert line + eol + rest == first + [LF] + rest;
    SplitFirst(first, rest);
    TrimCrOnce(line);
    hide Split, TrimCr;
    TrimFirst(first, Split(rest));
  }

  lemma TrimFirst(first: Bytes, others: seq<Bytes>)
    ensures TrimLines([first] + others) == [TrimCr(first)] + TrimLines(others)
  {
    hide TrimCr;
    assert ([first] + others)[1..] == others;
  }

  lemma {:induction false} ReplacedAreClean(lines: seq<Bytes>, payload: Bytes, replaced: bool)
    requires (forall i :: 0 <= i < |lines| ==> Clean(lines[i])) && Clean(payload)
    ensures forall i :: 0 <= i < |ReplaceLines(lines, payload, replaced)| ==> Clean(ReplaceLines(lines, payload, replaced)[i])
  {
    if lines != [] {
      ReplacedAreClean(lines[1..], payload, replaced || IsData(lines[0]));
    }
  }

  function Others(lines: seq<Bytes>): seq<Bytes> {
    if lines == [] then []
    else if IsData(lines[0]) then Others(lines[1..])
    else [lines[0]] + Others(lines[1..])
  }

  predicate HasData(lines: seq<Bytes>) {
    exists i :: 0 <= i < |lines| && IsData(lines[i])
  }

  lemma {:induction false} ReplacedLines(lines: seq<Bytes>, payload: Bytes, replaced: bool)
    ensures var r := ReplaceLines(lines, payload, replaced);
            && Others(r) == Others(lines)
            && DataValues(r) == if !replaced && HasData(lines) then [TrimSpace(payload)] else []
  {
    if lines != [] {
      var first, rest := lines[0], lines[1..];
      ReplacedLines(rest, payload, replaced || IsData(first));
      var line := DATA + [SPACE] + payload;
      assert line[..|DATA|] == DATA && line[|DATA| + 1..] == payload;
      var r := ReplaceLines(rest, payload, replaced || IsData(first));
      if IsData(first) {
        assert HasData(lines);
        if !replaced {
          assert ([line] + r)[1..] == r;
        }
      } else {
        assert ([first] + r)[1..] == r;
        assert HasData(lines) <==> HasData(rest) by {
          if HasData(lines) {
            var i :| 0 <= i < |lines| && IsData(lines[i]);
            assert IsData(rest[i - 1]);
          }
          if HasData(rest) {
            var i :| 0 <= i < |rest| && IsData(rest[i]);
            assert IsData(lines[i + 1]);
          }
        }
      }
    }
  }

  lemma LinesAreClean(event: Bytes)
    ensures forall i :: 0 <= i < |Lines(event)| ==> Clean(Lines(event)[i])
  {
  }

  lemma {:induction false} TrimKeepsTrimmed(s: Bytes)
    requires TrimSpace(s) == s
    ensures s == [] || !IsSpace(s[|s| - 1])
  {
    TrimRightEnds(TrimLeft(s));
  }

  lemma {:induction false} TrimRightEnds(s: Bytes)
    ensures TrimRight(s) == [] || !IsSpace(TrimRight(s)[|TrimRight(s)| - 1])
  {
    if SpaceAtEnd(s) > 0 {
      TrimRightEnds(s[..|s| - SpaceAtEnd(s)]);
    }
  }

  /** A rewritten event carries the new payload, and its other lines are the old ones in their order,
      blank lines included. */
  lemma RewrittenEvent(event: Bytes, payload: Bytes)
    requires HasData(Lines(event)) && LF !in payload && TrimSpace(payload) == payload
    ensures Payload(ReplaceData(event, payload)) == payload
    ensures Others(Lines(ReplaceData(event, payload))) == Others(Lines(event))
    ensures Lines(ReplaceData(event, payload)) == ReplaceLines(Lines(event), payload, false)
  {
    var lines := Lines(event);
    var r := ReplaceLines(lines, payload, false);
    TrimKeepsTrimmed(payload);
    LinesAreClean(event);
    ReplacedAreClean(lines, payload, false);
    ReplacedLines(lines, payload, false);
    JoinThenLines(r, Eol(event));
  }

  // The bytes of a rewritten event.

  /** The lines with their line ends. */
  function RawLines(s: Bytes): seq<Bytes>
    decreases |s|
  {
    var n := LineEnd(s);
    if n == 0 || s[n - 1] != LF then [s] else [s[..n]] + RawLines(s[n..])
  }

  function Ended(lines: seq<Bytes>, eol: Bytes): seq<Bytes>
    requires lines != []
  {
    if |lines| == 1 then lines else [lines[0] + eol] + Ended(lines[1..], eol)
  }

  lemma {:induction false} RawJoined(lines: seq<Bytes>, eol: Bytes)
    requires lines != [] && (forall i :: 0 <= i < |lines| ==> Clean(lines[i])) && IsEol(eol)
    ensures RawLines(Join(lines, eol)) == Ended(lines, eol)
    decreases |lines|
  {
    var line := lines[0];
    if |lines| == 1 {
      assert line + [] == line;
      LineEndOf(line, []);
    } else {
      var rest := Join(lines[1..], eol);
      var first := if eol == [LF] then line else line + [CR];
      var s := Join(lines, eol);
      assert s == first + ([LF] + rest) && first + [LF] == line + eol;
      LineEndOf(first, [LF] + rest);
      assert s[..|first| + 1] == line + eol && s[|first| + 1..] == rest;
      RawJoined(lines[1..], eol);
    }
  }

  lemma DataEnded(line: Bytes, eol: Bytes)
    requires IsEol(eol)
    ensures IsData(line + eol) <==> IsData(line)
  {
    if |line| >= |DATA| {
      assert (line + eol)[..|DATA|] == line[..|DATA|];
    }
    assert (line + eol)[|line|] == eol[0];
  }

  lemma {:induction false} OthersEnded(lines: seq<Bytes>, payload: Bytes, replaced: bool, eol: Bytes)
    requires lines != [] && !IsData(lines[|lines| - 1]) && IsEol(eol)
    ensures var r := ReplaceLines(lines, payload, replaced);
            r != [] && Others(Ended(r, eol)) == Others(Ended(lines, eol))
    decreases |lines|
  {
    var first, rest := lines[0], lines[1..];
    if |lines| > 1 {
      var later := ReplaceLines(rest, payload, replaced || IsData(first));
      OthersEnded(rest, payload, replaced || IsData(first), eol);
      var line := DATA + [SPACE] + payload;
      assert line[..|DATA|] == DATA;
      DataEnded(first, eol);
      DataEnded(line, eol);
      assert forall head: Bytes :: ([head] + later)[1..] == later;
      hide IsData;
      assert forall head: Bytes, tail: seq<Bytes> :: ([head] + tail)[1..] == tail;
    }
  }

  /** Lines joined by line feeds hold no carriage return before one. */
  lemma {:induction false} NoCrLf(lines: seq<Bytes>)
    requires lines != [] && forall i :: 0 <= i < |lines| ==> Clean(lines[i])
    ensures !HasCrLf(Join(lines, [LF]))
    decreases |lines|
  {
    if |lines| > 1 {
      var line, rest, s := lines[0], Join(lines[1..], [LF]), Join(lines, [LF]);
      NoCrLf(lines[1..]);
      assert s == line + [LF] + rest;
      forall i | 0 <= i < |s| - 1 ensures !(s[i] == CR && s[i + 1] == LF) {
        if i > |line| {
          assert s[i] == rest[i - |line| - 1] && s[i + 1] == rest[i - |line|];
        } else if i + 1 < |line| {
          assert s[i + 1] == line[i + 1];
        }
      }
    }
  }

  lemma EolOfJoined(lines: seq<Bytes>, eol: Bytes)
    requires |lines| > 1 && (forall i :: 0 <= i < |lines| ==> Clean(lines[i])) && IsEol(eol)
    ensures Eol(Join(lines, eol)) == eol
  {
    if eol == [LF] {
      NoCrLf(lines);
    } else {
      var s := Join(lines, eol);
      assert s[|lines[0]|] == CR && s[|lines[0]| + 1] == LF;
    }
  }

  function DataLines(lines: seq<Bytes>): seq<Bytes> {
    if lines == [] then []
    else if IsData(lines[0]) then [lines[0]] + DataLines(lines[1..])
    else DataLines(lines[1..])
  }

  lemma {:induction false} DataLinesEnded(lines: seq<Bytes>, payload: Bytes, replaced: bool, eol: Bytes)
    requires lines != [] && !IsData(lines[|lines| - 1]) && IsEol(eol)
    ensures var r := ReplaceLines(lines, payload, replaced);
            && r != []
            && DataLines(Ended(r, eol)) == if !replaced && HasData(lines) then [DATA + [SPACE] + payload + eol] else []
    decreases |lines|
  {
    var first, rest := lines[0], lines[1..];
    if |lines| > 1 {
      var later := ReplaceLines(rest, payload, replaced || IsData(first));
      var line := DATA + [SPACE] + payload;
      DataLinesEnded(rest, payload, replaced || IsData(first), eol);
      HasDataStep(lines);
      assert line[..|DATA|] == DATA;
      DataEnded(first, eol);
      DataEnded(line, eol);
      hide IsData, HasData;
      assert forall head: Bytes :: ([head] + later)[1..] == later;
      assert forall head: Bytes, tail: seq<Bytes> :: ([head] + tail)[1..] == tail;
    } else {
      assert !HasData(lines);
    }
  }

  lemma HasDataStep(lines: seq<Bytes>)
    requires lines != []
    ensures HasData(lines) <==> IsData(lines[0]) || HasData(lines[1..])
  {
    if HasData(lines) {
      var i :| 0 <= i < |lines| && IsData(lines[i]);
      assert i > 0 ==> IsData(lines[1..][i - 1]);
    }
    if HasData(lines[1..]) {
      var i :| 0 <= i < |lines[1..]| && IsData(lines[1..][i]);
      assert IsData(lines[i + 1]);
    }
  }

  /** An event whose lines all end alike, in LF or in CR LF, keeps that when it is rewritten: its other lines
      keep their bytes, line ends included, and its data is one line with the payload and the same line end.
      The last line, which has no end, must be no data line: a complete event ends with an empty one. */
  lemma RewrittenBytes(lines: seq<Bytes>, eol: Bytes, payload: Bytes)
    requires |lines| > 1 && (forall i :: 0 <= i < |lines| ==> Clean(lines[i])) && !IsData(lines[|lines| - 1])
    requires eol == [LF] || eol == [CR, LF]
    requires LF !in payload && TrimSpace(payload) == payload
    ensures var before, after := RawLines(Join(lines, eol)), RawLines(ReplaceData(Join(lines, eol), payload));
            && Others(after) == Others(before)
            && DataLines(after) == if HasData(lines) then [DATA + [SPACE] + payload + eol] else []
  {
    JoinThenLines(lines, eol);
    EolOfJoined(lines, eol);
    TrimKeepsTrimmed(payload);
    hide Lines, ReplaceLines, TrimSpace, IsData, HasCrLf;
    ReplacedAreClean(lines, payload, false);
    OthersEnded(lines, payload, false, eol);
    DataLinesEnded(lines, payload, false, eol);
    RawJoined(lines, eol);
    RawJoined(ReplaceLines(lines, payload, false), eol);
  }

  // The fixed texts.

  function Ascii(s: string): Bytes
    requires forall i :: 0 <= i < |s| ==> s[i] < 128 as char
  {
    seq(|s|, i requires 0 <= i < |s| => s[i] as byte)
  }

  lemma Spelled()
    ensures DATA == Ascii("data:") && DONE == Ascii("[DONE]")
    ensures [LF] == Ascii("\n") && [CR, LF] == Ascii("\r\n") && [SPACE] == Ascii(" ")
  {
  }

  /** The end marker of a stream is never taken for a usage-only event, nor is an event without data. */
  lemma DoneIsKept(event: Bytes, inspect: Bytes -> bool)
    ensures Payload(event) == Ascii("[DONE]") ==> !UsageOnly(event, inspect)
    ensures !HasData(Lines(event)) ==> !UsageOnly(event, inspect)
  {
    Spelled();
    NoDataNoValues(Lines(event));
    hide Lines, Payload;
  }

  lemma {:induction false} NoDataNoValues(lines: seq<Bytes>)
    ensures DataValues(lines) != [] <==> HasData(lines)
  {
    if lines != [] {
      NoDataNoValues(lines[1..]);
      HasDataStep(lines);
    }
  }

  lemma {:induction false} SplitJoined(lines: seq<Bytes>)
    requires lines != [] && forall i :: 0 <= i < |lines| ==> LF !in lines[i]
    ensures Split(Join(lines, [LF])) == lines
  {
    if |lines| == 1 {
      SplitLast(lines[0]);
    } else {
      SplitJoined(lines[1..]);
      SplitFirst(lines[0], Join(lines[1..], [LF]));
    }
  }

  lemma {:induction false} ValuesHaveNoLf(lines: seq<Bytes>)
    requires forall i :: 0 <= i < |lines| ==> LF !in lines[i]
    ensures forall i :: 0 <= i < |DataValues(lines)| ==> LF !in DataValues(lines)[i]
  {
    if lines != [] {
      ValuesHaveNoLf(lines[1..]);
      if IsData(lines[0]) {
        TrimKeepsBytes(lines[0][|DATA|..]);
        if |lines[0]| > |DATA| {
          TrimKeepsBytes(lines[0][|DATA| + 1..]);
        }
      }
    }
  }

  lemma {:induction false} TrimLeftKeepsBytes(s: Bytes)
    ensures forall b :: b in TrimLeft(s) ==> b in s
  {
    if SpaceAtStart(s) > 0 {
      TrimLeftKeepsBytes(s[SpaceAtStart(s)..]);
    }
  }

  lemma {:induction false} TrimRightKeepsBytes(s: Bytes)
    ensures forall b :: b in TrimRight(s) ==> b in s
  {
    if SpaceAtEnd(s) > 0 {
      TrimRightKeepsBytes(s[..|s| - SpaceAtEnd(s)]);
    }
  }

  lemma TrimKeepsBytes(s: Bytes)
    ensures forall b :: b in TrimSpace(s) ==> b in s
  {
    TrimLeftKeepsBytes(s);
    TrimRightKeepsBytes(TrimLeft(s));
  }

  /** A payload holds the values of the data lines, one to a line. */
  lemma PayloadLines(event: Bytes)
    requires HasData(Lines(event))
    ensures Split(Payload(event)) == DataValues(Lines(event))
  {
    NoDataNoValues(Lines(event));
    LinesAreClean(event);
    hide Lines;
    ValuesHaveNoLf(Lines(event));
    SplitJoined(DataValues(Lines(event)));
  }
}
