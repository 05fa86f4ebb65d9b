/**
 Which messages survive the wire: exactly those with a single-line identifier without NUL, a non-empty
 single-line type and single-line data.  Everything else is lost or altered, since a reader can dispatch
 no other identifiers and types, and data that is spread over lines comes out shorter.
 */
module EventStreamLimits {
  import opened EventStream

  // ---- what a reader can dispatch at all --------------------------------------------

  predicate CleanId(id: string)
  {
    OneLine(id) && NUL !in id
  }

  predicate CleanEvent(e: ClientEvent)
  {
    CleanId(e.id) && OneLine(e.kind) && e.kind != [] && CR !in e.data
  }

  ghost predicate Clean(r: Reader)
  {
    && OneLine(r.line) && CleanId(r.idBuffer) && OneLine(r.kind) && CR !in r.data
    && (r.data == [] || r.data[|r.data| - 1] == LF)
    && forall i :: 0 <= i < |r.dispatched| ==> CleanEvent(r.dispatched[i])
  }

  lemma FieldValueIsPart(line: string)
    requires OneLine(line)
    ensures OneLine(FieldValue(line))
    ensures |FieldName(line)| + |FieldValue(line)| <= |line|
    ensures FieldName(line) == line || |FieldName(line)| + |FieldValue(line)| < |line|
  {
  }

  lemma MessageIsOneLine()
    ensures OneLine("message")
  {
  }

  lemma DispatchKeepsClean(r: Reader)
    requires Clean(r)
    ensures Clean(Dispatch(r))
  {
    MessageIsOneLine();
    var s := Dispatch(r);
    forall i | 0 <= i < |s.dispatched|
      ensures CleanEvent(s.dispatched[i])
    {
      assert i < |r.dispatched| ==> s.dispatched[i] == r.dispatched[i];
    }
  }

  lemma FieldKeepsClean(r: Reader, name: string, value: string)
    requires Clean(r) && OneLine(value)
    ensures Clean(ProcessField(r, name, value))
  {
    hide CleanEvent;
  }

  lemma ProcessKeepsClean(r: Reader, line: string)
    requires Clean(r) && OneLine(line)
    ensures Clean(ProcessLine(r, line))
  {
    hide Clean, OneLine, Dispatch, ProcessField, FieldName, FieldValue;
    if line == [] {
      DispatchKeepsClean(r);
    } else if line[0] != ':' {
      FieldValueIsPart(line);
      FieldKeepsClean(r, FieldName(line), FieldValue(line));
    }
  }

  lemma {:induction false} FeedKeepsClean(r: Reader, text: string)
    requires Clean(r)
    ensures Clean(Feed(r, text))
    decreases |text|
  {
    if text != [] {
      var c := text[0];
      if c == LF || c == CR {
        ProcessKeepsClean(r.(line := [], afterCr := c == CR), r.line);
      }
      FeedKeepsClean(Take(r, c), text[1..]);
    }
  }

  // ---- data cannot grow -------------------------------------------------------------

  function EventVolume(events: seq<ClientEvent>): nat
  {
    if events == [] then 0 else EventVolume(events[..|events| - 1]) + |events[|events| - 1].data| + 1
  }

  /** The data a reader has dispatched, collected, or may still collect from the current line. */
  function Volume(r: Reader): nat
  {
    EventVolume(r.dispatched) + |r.data| + |r.line|
  }

  lemma ProcessVolume(r: Reader, line: string)
    requires Clean(r) && OneLine(line) && r.line == []
    ensures Volume(ProcessLine(r, line)) <= Volume(r) + |line|
  {
    hide Clean, FieldName, FieldValue, OneLine;
    if line == [] {
      DispatchVolume(r);
    } else if line[0] != ':' {
      FieldValueIsPart(line);
    }
  }

  lemma DispatchVolume(r: Reader)
    requires Clean(r)
    ensures Volume(Dispatch(r)) == Volume(r)
  {
    var s := Dispatch(r);
    if r.data != [] {
      assert s.dispatched[..|s.dispatched| - 1] == r.dispatched;
    }
  }

  /** A character adds at most one, and the end of a line nothing. */
  lemma TakeVolume(r: Reader, c: char)
    requires Clean(r)
    ensures Volume(Take(r, c)) <= Volume(r) + if c == LF then 0 else 1
  {
    if c == LF || c == CR {
      ProcessVolume(r.(line := [], afterCr := c == CR), r.line);
    }
  }

  lemma {:induction false} FeedVolume(r: Reader, text: string)
    requires Clean(r)
    ensures Volume(Feed(r, text)) <= Volume(r) + |text|
    decreases |text|
  {
    hide Volume, Take, Clean;
    if text != [] {
      TakeVolume(r, text[0]);
      assert Feed(r, [text[0]]) == Take(r, text[0]) by { assert [text[0]][1..] == []; }
      FeedKeepsClean(r, [text[0]]);
      FeedVolume(Take(r, text[0]), text[1..]);
    }
  }

  // ---- exactly the sendable messages ------------------------------------------------

  /** The first line feed of some data. */
  lemma FirstLine(data: string) returns (n: nat)
    requires LF in data
    ensures n < |data| && data[n] == LF && LF !in data[..n]
  {
    n := 0;
    while data[n] != LF
      invariant n < |data| && LF !in data[..n] && exists i :: n <= i < |data| && data[i] == LF
      decreases |data| - n
    {
      assert data[..n + 1] == data[..n] + [data[n]];
      n := n + 1;
    }
  }

  lemma SplitLine(data: string, n: nat)
    requires n < |data| && data[n] == LF
    ensures Line("data", data) + [LF] == (Line("data", data[..n]) + [LF]) + (data[n + 1..] + [LF])
  {
    assert data == data[..n] + [LF] + data[n + 1..];
  }

  lemma Regroup(a: string, b: string, c: string, d: string, e: string)
    ensures a + (b + ((c + d) + e)) == (a + (b + (c + []))) + (d + e)
  {
  }

  /** The text of a message whose data has a line feed at `n`. */
  lemma SplitEncoding(id: string, kind: string, data: string, n: nat)
    requires n < |data| && data[n] == LF
    ensures Encode(Message(id, kind, data)) == Head(Message(id, kind, data[..n])) + ((data[n + 1..] + [LF]) + [LF])
  {
    SplitLine(data, n);
    hide Line;
    var first, rest := Line("data", data[..n]) + [LF], data[n + 1..] + [LF];
    Regroup(Line("id", id) + [LF], Line("event", kind) + [LF], first, rest, [LF]);
  }

  /** Data spread over lines comes out shorter. */
  lemma SpreadDataShrinks(id: string, kind: string, data: string)
    requires CleanId(id) && OneLine(kind) && kind != [] && CR !in data && LF in data
    ensures EventVolume(Feed(Connect([]), Encode(Message(id, kind, data))).dispatched) <= |data|
  {
    var n := FirstLine(data);
    var first, rest := data[..n], data[n + 1..];
    var r := Connect([]);
    assert OneLine(first);
    SplitEncoding(id, kind, data, n);
    FeedMessageHead(r, id, kind, first);
    var r1 := r.(idBuffer := id, kind := kind, data := first + [LF]);
    FeedAppend(r, Head(Message(id, kind, first)), (rest + [LF]) + [LF]);
    assert Clean(r1);
    FeedVolume(r1, rest);
    LastLines(r1, rest);
  }

  lemma LastLines(r: Reader, rest: string)
    requires Clean(r)
    ensures Volume(Feed(r, (rest + [LF]) + [LF])) <= Volume(Feed(r, rest))
  {
    hide Volume, Clean, Take;
    var r1 := Feed(r, rest);
    FeedAppend(r, rest + [LF], [LF]);
    FeedAppend(r, rest, [LF]);
    FeedKeepsClean(r, rest);
    FeedKeepsClean(r1, [LF]);
    assert [LF][1..] == [];
    assert Feed(r1, [LF]) == Take(r1, LF);
    assert Feed(Take(r1, LF), [LF]) == Take(Take(r1, LF), LF);
    TakeVolume(r1, LF);
    TakeVolume(Take(r1, LF), LF);
  }

  /** A message is received as it was sent exactly when it is sendable. */
  lemma RoundTripExactly(m: Chunk)
    requires m.Message?
    ensures Receive([], Encode(m)).dispatched == [ClientEvent(m.id, m.kind, m.data)] <==> Sendable(m)
  {
    var text, event := Encode(m), ClientEvent(m.id, m.kind, m.data);
    assert text[0] == 'i';
    assert WithoutBom(text) == text;
    if Sendable(m) {
      FeedHead(Connect([]), m);
    }
    if Receive([], text).dispatched == [event] {
      FeedKeepsClean(Connect([]), text);
      assert CleanEvent(Feed(Connect([]), text).dispatched[0]);
      if LF in m.data {
        assert EventVolume([event]) == |m.data| + 1;
        SpreadDataShrinks(m.id, m.kind, m.data);
        assert false;
      }
    }
  }
}
