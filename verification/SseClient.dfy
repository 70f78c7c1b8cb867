/**
 What the client makes of the relayed stream: framed again by the same rules, it holds the upstream's
 events in their order, each rewritten, without the dropped ones.
 */
module SseClient {
  import opened Wrappers
  import opened Sse

  /** Bytes that frame as at most one event; `complete` asks for the blank line at its end. */
  predicate Framed(s: Bytes, complete: bool)
    decreases |s|
  {
    var k := LineEnd(s);
    if k == 0 || s[k - 1] != LF then !complete
    else if TrimEol(s[..k]) == [] then k == |s|
    else Framed(s[k..], complete)
  }

  lemma LineEndIs(s: Bytes, k: nat)
    requires 0 < k <= |s| && (forall i :: 0 <= i < k - 1 ==> s[i] != LF) && (k == |s| || s[k - 1] == LF)
    ensures LineEnd(s) == k
  {
    var n := LineEnd(s);
    assert n > 0 && (n < |s| ==> s[n - 1] == LF) && (k < |s| ==> s[k - 1] == LF);
  }

  /** A complete event stays one whatever follows it. */
  lemma {:induction false} CompleteEnds(s: Bytes, rest: Bytes)
    requires Framed(s, true)
    ensures EventEnd(s + rest) == |s| > 0
    decreases |s|
  {
    var k := LineEnd(s);
    LineEndIs(s + rest, k);
    assert (s + rest)[..k] == s[..k];
    if TrimEol(s[..k]) != [] {
      CompleteEnds(s[k..], rest);
      assert (s + rest)[k..] == s[k..] + rest;
    }
  }

  lemma {:induction false} FramedEnds(s: Bytes, complete: bool)
    requires Framed(s, complete)
    ensures EventEnd(s) == |s|
    decreases |s|
  {
    if s != [] {
      var k := LineEnd(s);
      if s[k - 1] == LF && TrimEol(s[..k]) != [] {
        FramedEnds(s[k..], complete);
      }
    }
  }

  lemma FramedTail(s: Bytes, complete: bool, tail: Bytes)
    requires Framed(tail, complete) && LineEnd(s) + |tail| == |s| && tail == s[LineEnd(s)..]
    requires s != [] && s[LineEnd(s) - 1] == LF && TrimEol(s[..LineEnd(s)]) != []
    ensures Framed(s, complete)
  {
    hide LineEnd, TrimEol;
  }

  lemma OneLineFramed(s: Bytes)
    requires s != [] && LineEnd(s) == |s|
    ensures Framed(s, false)
    ensures s[|s| - 1] == LF && TrimEol(s) == [] ==> Framed(s, true)
  {
    hide LineEnd, TrimEol;
    assert s[..|s|] == s && s[|s|..] == [];
    assert Framed([], false);
  }

  lemma {:induction false} FirstIsFramed(s: Bytes)
    requires s != []
    ensures Framed(s[..EventEnd(s)], EventEnd(s) < |s|)
    decreases |s|
  {
    hide LineEnd, EventEnd, TrimEol, Framed;
    var k := LineEnd(s);
    var line, rest := s[..k], s[k..];
    EventEndCases(s);
    assert s == line + rest;
    if k < |s| && TrimEol(line) != [] {
      FirstIsFramed(rest);
      LongerIsFramed(line, rest, EventEnd(rest));
    } else {
      LineEndIs(line, k);
      OneLineFramed(line);
    }
  }

  lemma LongerIsFramed(line: Bytes, rest: Bytes, m: nat)
    requires m <= |rest| && line != [] && LF !in line[..|line| - 1] && line[|line| - 1] == LF && TrimEol(line) != []
    requires Framed(rest[..m], m < |rest|)
    ensures Framed((line + rest)[..|line| + m], |line| + m < |line + rest|)
  {
    hide LineEnd, TrimEol, Framed;
    var s := line + rest[..m];
    assert (line + rest)[..|line| + m] == s;
    LineEndIs(s, |line|);
    assert s[..|line|] == line && s[|line|..] == rest[..m];
    FramedTail(s, m < |rest|, rest[..m]);
  }

  /** Events out of a stream: every one but the last is complete. */
  ghost predicate Stream(events: seq<Bytes>) {
    forall i :: 0 <= i < |events| ==> events[i] != [] && Framed(events[i], i < |events| - 1)
  }

  lemma {:induction false} EventsAreStream(s: Bytes)
    ensures Stream(Events(s))
    decreases |s|
  {
    if s != [] {
      var m := EventEnd(s);
      FirstIsFramed(s);
      EventsAreStream(s[m..]);
      assert Events(s) == [s[..m]] + Events(s[m..]);
    }
  }

  /** Each event rewritten, without the dropped ones. */
  function Sent(events: seq<Bytes>, dropped: Bytes -> bool, rewrite: Bytes -> Bytes): seq<Bytes> {
    if events == [] then []
    else if dropped(events[0]) then Sent(events[1..], dropped, rewrite)
    else [rewrite(events[0])] + Sent(events[1..], dropped, rewrite)
  }

  /** A rewriting that never takes an event apart. */
  ghost predicate KeepsFrames(rewrite: Bytes -> Bytes) {
    forall e, complete :: e != [] && Framed(e, complete) ==> rewrite(e) != [] && Framed(rewrite(e), complete)
  }

  lemma SentFirst(first: Bytes, later: Bytes, complete: bool)
    requires first != [] && Framed(first, complete) && (complete || later == [])
    ensures Events(first + later) == [first] + Events(later)
  {
    hide LineEnd, TrimEol, Framed;
    if complete {
      CompleteEnds(first, later);
    } else {
      FramedEnds(first, false);
      assert first + later == first;
    }
    assert (first + later)[..|first|] == first && (first + later)[|first|..] == later;
  }

  lemma StreamParts(events: seq<Bytes>)
    requires Stream(events) && events != []
    ensures events[0] != [] && Framed(events[0], |events| > 1) && Stream(events[1..])
  {
    hide Framed;
    forall i | 0 <= i < |events| - 1
      ensures events[1..][i] != [] && Framed(events[1..][i], i < |events| - 2)
    {
      assert events[1..][i] == events[i + 1];
    }
  }

  lemma {:induction false} StreamSent(events: seq<Bytes>, dropped: Bytes -> bool, rewrite: Bytes -> Bytes)
    requires Stream(events) && KeepsFrames(rewrite)
    ensures Events(ShownAll(events, dropped, rewrite)) == Sent(events, dropped, rewrite)
  {
    if events != [] {
      var first, rest := events[0], events[1..];
      StreamParts(events);
      assert !dropped(first) ==> rewrite(first) != [] && Framed(rewrite(first), rest != []);
      hide Events, Framed, Stream, KeepsFrames;
      StreamSent(rest, dropped, rewrite);
      if dropped(first) {
        assert [] + ShownAll(rest, dropped, rewrite) == ShownAll(rest, dropped, rewrite);
      } else {
        SentFirst(rewrite(first), ShownAll(rest, dropped, rewrite), rest != []);
      }
    }
  }

  /** The client sees the upstream's events, in order, each rewritten, without the dropped ones. */
  lemma ClientSeesUpstreamEvents(input: Bytes, dropped: Bytes -> bool, rewrite: Bytes -> Bytes)
    requires KeepsFrames(rewrite)
    ensures Events(ShownAll(Events(input), dropped, rewrite)) == Sent(Events(input), dropped, rewrite)
  {
    EventsAreStream(input);
    StreamSent(Events(input), dropped, rewrite);
  }

  // Rewriting the data of an event keeps its frame.

  predicate FramedLines(lines: seq<Bytes>, complete: bool) {
    if |lines| <= 1 then !complete
    else if lines[0] == [] then |lines| == 2 && lines[1] == []
    else FramedLines(lines[1..], complete)
  }

  lemma {:induction false} TrimEolOfLine(s: Bytes)
    requires LF !in s
    ensures TrimEol(s) == TrimCr(s)
  {
    if s != [] && s[|s| - 1] == CR {
      TrimEolOfLine(s[..|s| - 1]);
    }
  }

  lemma LinesParts(s: Bytes)
    ensures var k := LineEnd(s);
            if k == 0 || s[k - 1] != LF then |Lines(s)| == 1
            else Lines(s) == [TrimCr(s[..k - 1])] + Lines(s[k..])
  {
    hide LineEnd, TrimCr;
  }

  lemma {:induction false} LinesAreFramed(s: Bytes, complete: bool)
    requires Framed(s, complete)
    ensures FramedLines(Lines(s), complete)
    decreases |s|
  {
    hide LineEnd, TrimEol, TrimCr, Lines;
    var k := LineEnd(s);
    LinesParts(s);
    if k != 0 && s[k - 1] == LF {
      var line, rest := s[..k - 1], s[k..];
      assert LF !in line && s[..k] == line + [LF];
      TrimEolOfLine(line);
      TrimOneMore(line, LF);
      if TrimCr(line) == [] {
        assert rest == [];
        assert Lines([]) == [[]] by {
          EmptyLines();
        }
      } else {
        LinesAreFramed(rest, complete);
      }
    }
  }

  lemma EmptyLines()
    ensures Lines([]) == [[]]
  {
  }

  lemma BlankIffEmpty(line: Bytes, eol: Bytes)
    requires Clean(line) && IsEol(eol)
    ensures TrimEol(line + eol) == [] <==> line == []
  {
    TrimEolOfLine(line);
    TrimOneMore(line, LF);
    if eol == [CR, LF] {
      TrimOneMore(line, CR);
      TrimOneMore(line + [CR], LF);
      assert line + eol == line + [CR] + [LF];
    }
  }

  lemma TrimOneMore(s: Bytes, b: byte)
    requires b == CR || b == LF
    ensures TrimEol(s + [b]) == TrimEol(s)
  {
    assert (s + [b])[..|s + [b]| - 1] == s;
  }

  lemma {:induction false} JoinIsFramed(lines: seq<Bytes>, eol: Bytes, complete: bool)
    requires lines != [] && (forall i :: 0 <= i < |lines| ==> Clean(lines[i])) && IsEol(eol)
    requires FramedLines(lines, complete)
    ensures Framed(Join(lines, eol), complete)
    decreases |lines|
  {
    var s, line := Join(lines, eol), lines[0];
    if |lines| > 1 {
      var k, rest := |line| + |eol|, Join(lines[1..], eol);
      LineEndIs(s, k);
      assert s[..k] == line + eol && s[k..] == rest;
      BlankIffEmpty(line, eol);
      if line != [] {
        JoinIsFramed(lines[1..], eol, complete);
      }
    }
  }

  lemma {:induction false} ReplaceKeepsFrame(lines: seq<Bytes>, payload: Bytes, replaced: bool, complete: bool)
    requires FramedLines(lines, complete)
    ensures FramedLines(ReplaceLines(lines, payload, replaced), complete)
  {
    if |lines| > 1 {
      var rest := ReplaceLines(lines[1..], payload, replaced || IsData(lines[0]));
      if lines[0] == [] {
        assert lines[1..] == [[]];
        assert ReplaceLines(lines[1..][1..], payload, replaced) == [];
      } else {
        ReplaceKeepsFrame(lines[1..], payload, replaced || IsData(lines[0]), complete);
        assert forall first :: ([first] + rest)[1..] == rest;
      }
    }
  }

  /** The rewriting of tool names: an event either stays as it is or gets a new payload, which the
      encoder gives without line feeds or outer spaces. */
  function Rewrite(newPayload: Bytes -> Option<Bytes>): Bytes -> Bytes {
    event => if HasData(Lines(event)) && newPayload(event).Some?
             then ReplaceData(event, newPayload(event).value) else event
  }

  lemma RewriteKeepsFrames(newPayload: Bytes -> Option<Bytes>)
    requires forall e :: newPayload(e).Some? ==> LF !in newPayload(e).value && TrimSpace(newPayload(e).value) == newPayload(e).value
    ensures KeepsFrames(Rewrite(newPayload))
  {
    forall e, complete | e != [] && Framed(e, complete)
      ensures Rewrite(newPayload)(e) != [] && Framed(Rewrite(newPayload)(e), complete)
    {
      if HasData(Lines(e)) && newPayload(e).Some? {
        ReplacedEventKeepsFrame(e, newPayload(e).value, complete);
      }
    }
  }

  lemma ReplacedEventKeepsFrame(event: Bytes, payload: Bytes, complete: bool)
    requires Framed(event, complete)
    requires HasData(Lines(event)) && LF !in payload && TrimSpace(payload) == payload
    ensures ReplaceData(event, payload) != [] && Framed(ReplaceData(event, payload), complete)
  {
    hide LineEnd, EventEnd, TrimEol, TrimCr, Framed, FramedLines, Split, ReplaceLines, TrimSpace, Others;
    var lines := ReplaceLines(Lines(event), payload, false);
    TrimKeepsTrimmed(payload);
    LinesAreClean(event);
    LinesAreFramed(event, complete);
    ReplacedAreClean(Lines(event), payload, false);
    ReplaceKeepsFrame(Lines(event), payload, false, complete);
    ReplacedLines(Lines(event), payload, false);
    JoinIsFramed(lines, Eol(event), complete);
    RewrittenEvent(event, payload);
  }

  /** Rewriting an event gives it its new payload, if it has data and there is one; otherwise it is left alone. */
  lemma RewriteSays(newPayload: Bytes -> Option<Bytes>, event: Bytes)
    requires newPayload(event).Some? ==> LF !in newPayload(event).value && TrimSpace(newPayload(event).value) == newPayload(event).value
    ensures if HasData(Lines(event)) && newPayload(event).Some?
            then Payload(Rewrite(newPayload)(event)) == newPayload(event).value
                 && Others(Lines(Rewrite(newPayload)(event))) == Others(Lines(event))
            else Rewrite(newPayload)(event) == event
  {
    if HasData(Lines(event)) && newPayload(event).Some? {
      RewrittenEvent(event, newPayload(event).value);
    }
  }

  /** With tools on offer: framed again, the relayed bytes are the upstream's events, in order, each with
      its new payload if it has one, without the usage-only ones that the proxy itself asked for. */
  method RelayWithTools(input: Bytes, inspect: Bytes -> bool, injected: bool, newPayload: Bytes -> Option<Bytes>)
      returns (output: Bytes)
    requires forall e :: newPayload(e).Some? ==> LF !in newPayload(e).value && TrimSpace(newPayload(e).value) == newPayload(e).value
    ensures Events(output) == Sent(Events(input), e => injected && UsageOnly(e, inspect), Rewrite(newPayload))
  {
    var dropped := e => injected && UsageOnly(e, inspect);
    output := Relay(input, dropped, Rewrite(newPayload));
    RewriteKeepsFrames(newPayload);
    ClientSeesUpstreamEvents(input, dropped, Rewrite(newPayload));
  }
}
