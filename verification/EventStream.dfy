/**
 Server-sent events: the encoder, and a reader written from sections 9.2.5 and 9.2.6 of the WHATWG
 HTML standard.  The reader takes one character at a time, so a stream may be cut anywhere.
 */
module EventStream {

  const LF: char := '\n'
  const CR: char := '\r'
  const NUL: char := 0 as char
  const BOM: char := 0xFEFF as char

  // ---- the encoder ------------------------------------------------------------------

  datatype Chunk = Message(id: string, kind: string, data: string) | Heartbeat

  function Line(name: string, value: string): string
  {
    name + ": " + value
  }

  function Encode(c: Chunk): string
  {
    match c
    case Message(id, kind, data) =>
      (Line("id", id) + [LF]) + ((Line("event", kind) + [LF]) + ((Line("data", data) + [LF]) + [LF]))
    case Heartbeat => (": heartbeat" + [LF]) + [LF]
  }

  function EncodeAll(chunks: seq<Chunk>): string
  {
    if chunks == [] then [] else Encode(chunks[0]) + EncodeAll(chunks[1..])
  }

  // ---- the reader -------------------------------------------------------------------

  datatype ClientEvent = ClientEvent(id: string, kind: string, data: string)

  datatype Reader = Reader(
    line: string,
    afterCr: bool,
    data: string,
    kind: string,
    idBuffer: string,
    lastEventId: string,
    dispatched: seq<ClientEvent>)

  /** A new connection; the last event ID survives reconnection. */
  function Connect(lastEventId: string): Reader
  {
    Reader([], false, [], [], lastEventId, lastEventId, [])
  }

  function ColonIn(line: string): (i: nat)
    ensures i <= |line|
  {
    if line == [] || line[0] == ':' then 0 else 1 + ColonIn(line[1..])
  }

  function FieldName(line: string): string
  {
    line[..ColonIn(line)]
  }

  /** What follows the colon, without one leading space. */
  function FieldValue(line: string): string
  {
    var i := ColonIn(line);
    if i == |line| then [] else if i + 1 < |line| && line[i + 1] == ' ' then line[i + 2..] else line[i + 1..]
  }

  function ProcessField(r: Reader, name: string, value: string): Reader
  {
    if name == "event" then r.(kind := value)
    else if name == "data" then r.(data := r.data + value + [LF])
    else if name == "id" then (if NUL in value then r else r.(idBuffer := value))
    else r
  }

  function Dispatch(r: Reader): Reader
  {
    var r := r.(lastEventId := r.idBuffer);
    if r.data == [] then r.(kind := [])
    else
      var data := if r.data[|r.data| - 1] == LF then r.data[..|r.data| - 1] else r.data;
      var event := ClientEvent(r.lastEventId, if r.kind == [] then "message" else r.kind, data);
      r.(data := [], kind := [], dispatched := r.dispatched + [event])
  }

  function ProcessLine(r: Reader, line: string): Reader
  {
    if line == [] then Dispatch(r)
    else if line[0] == ':' then r
    else ProcessField(r, FieldName(line), FieldValue(line))
  }

  /** Lines end at CR LF, LF or CR. */
  function Take(r: Reader, c: char): Reader
  {
    if c == LF && r.afterCr then r.(afterCr := false)
    else if c == LF || c == CR then ProcessLine(r.(line := [], afterCr := c == CR), r.line)
    else r.(line := r.line + [c], afterCr := false)
  }

  function Feed(r: Reader, text: string): Reader
    decreases |text|
  {
    if text == [] then r else Feed(Take(r, text[0]), text[1..])
  }

  function WithoutBom(text: string): string
  {
    if text != [] && text[0] == BOM then text[1..] else text
  }

  /** Everything a client makes of the text of one connection, so far as it has arrived. */
  function Receive(lastEventId: string, text: string): Reader
  {
    Feed(Connect(lastEventId), WithoutBom(text))
  }

  // ---- reading in pieces ------------------------------------------------------------

  lemma {:induction false} FeedAppend(r: Reader, a: string, b: string)
    ensures Feed(r, a + b) == Feed(Feed(r, a), b)
    decreases |a|
  {
    if a == [] {
      assert a + b == b;
    } else {
      assert (a + b)[1..] == a[1..] + b;
      FeedAppend(Take(r, a[0]), a[1..], b);
    }
  }

  predicate OneLine(s: string)
  {
    forall i :: 0 <= i < |s| ==> s[i] != LF && s[i] != CR
  }

  lemma {:induction false} FeedInLine(r: Reader, text: string)
    requires OneLine(text) && !r.afterCr
    ensures Feed(r, text) == r.(line := r.line + text)
    decreases |text|
  {
    if text == [] {
      assert r.line + text == r.line;
    } else {
      FeedInLine(Take(r, text[0]), text[1..]);
      assert r.line + text == r.line + [text[0]] + text[1..];
    }
  }

  lemma FeedLine(r: Reader, line: string)
    requires OneLine(line) && r.line == [] && !r.afterCr
    ensures Feed(r, line + [LF]) == ProcessLine(r, line)
  {
    FeedAppend(r, line, [LF]);
    FeedInLine(r, line);
    var s := r.(line := r.line + line);
    assert r.line + line == line && [LF][1..] == [];
    assert Feed(s, [LF]) == Take(s, LF);
    assert s.(line := []) == r;
  }

  lemma {:induction false} FieldSplits(name: string, value: string)
    requires ':' !in name
    ensures FieldName(Line(name, value)) == name && FieldValue(Line(name, value)) == value
  {
    var line := Line(name, value);
    ColonAt(name, ": " + value);
    assert name + (": " + value) == line;
    assert line[|name|] == ':' && line[|name| + 1] == ' ';
  }

  lemma {:induction false} ColonAt(name: string, rest: string)
    requires ':' !in name && rest != [] && rest[0] == ':'
    ensures ColonIn(name + rest) == |name|
  {
    if name == [] {
      assert name + rest == rest;
    } else {
      assert (name + rest)[1..] == name[1..] + rest;
      ColonAt(name[1..], rest);
    }
  }

  lemma FeedField(r: Reader, name: string, value: string)
    requires OneLine(name) && OneLine(value) && name != [] && ':' !in name
    requires r.line == [] && !r.afterCr
    ensures OneLine(Line(name, value)) && Line(name, value) != []
    ensures Feed(r, Line(name, value) + [LF]) == ProcessField(r, name, value)
  {
    var line := Line(name, value);
    assert line[0] == name[0];
    FieldSplits(name, value);
    FeedLine(r, line);
  }

  // ---- one chunk --------------------------------------------------------------------

  /** What the encoder is given: UUIDs, dotted type names, and JSON text on one line. */
  predicate Sendable(c: Chunk)
  {
    c.Message? ==> OneLine(c.id) && NUL !in c.id && OneLine(c.kind) && c.kind != [] && OneLine(c.data)
  }

  /** Between two chunks nothing is pending. */
  predicate Resting(r: Reader)
  {
    r.line == [] && !r.afterCr && r.data == [] && r.kind == [] && r.idBuffer == r.lastEventId
  }

  function Delivered(r: Reader, c: Chunk): Reader
  {
    match c
    case Message(id, kind, data) =>
      r.(idBuffer := id, lastEventId := id, dispatched := r.dispatched + [ClientEvent(id, kind, data)])
    case Heartbeat => r
  }

  /** No event is dispatched, and the last event ID stays, at any point of the text. */
  ghost predicate Quiet(r: Reader, text: string)
  {
    forall n :: 0 <= n <= |text| ==> Unmoved(r, Feed(r, text[..n]))
  }

  predicate Unmoved(r: Reader, s: Reader)
  {
    s.dispatched == r.dispatched && s.lastEventId == r.lastEventId
  }

  lemma QuietAppend(r: Reader, a: string, b: string)
    requires Quiet(r, a) && Quiet(Feed(r, a), b)
    ensures Quiet(r, a + b)
  {
    assert a[..|a|] == a;
    forall n | 0 <= n <= |a + b|
      ensures Unmoved(r, Feed(r, (a + b)[..n]))
    {
      if n <= |a| {
        assert (a + b)[..n] == a[..n];
      } else {
        assert (a + b)[..n] == a + b[..n - |a|];
        FeedAppend(r, a, b[..n - |a|]);
        assert Unmoved(Feed(r, a), Feed(Feed(r, a), b[..n - |a|]));
        assert Unmoved(r, Feed(r, a));
      }
    }
  }

  /** Only an empty line dispatches. */
  lemma QuietLine(r: Reader, line: string)
    requires OneLine(line) && line != [] && r.line == [] && !r.afterCr
    ensures Quiet(r, line + [LF])
  {
    forall n | 0 <= n <= |line + [LF]|
      ensures Unmoved(r, Feed(r, (line + [LF])[..n]))
    {
      if n <= |line| {
        assert (line + [LF])[..n] == line[..n];
        FeedInLine(r, line[..n]);
      } else {
        assert (line + [LF])[..n] == line + [LF];
        FeedLine(r, line);
      }
    }
  }

  /** A field line of a message: what it does, and that it dispatches nothing. */
  lemma FeedFieldQuietly(r: Reader, name: string, value: string, rest: string)
    requires name == "id" || name == "event" || name == "data"
    requires OneLine(value) && r.line == [] && !r.afterCr
    ensures Feed(r, (Line(name, value) + [LF]) + rest) == Feed(ProcessField(r, name, value), rest)
    ensures Quiet(ProcessField(r, name, value), rest) ==> Quiet(r, (Line(name, value) + [LF]) + rest)
  {
    hide Quiet, ProcessField, Feed, Line;
    assert ':' !in name && OneLine(name);
    FeedField(r, name, value);
    QuietLine(r, Line(name, value));
    FeedAppend(r, Line(name, value) + [LF], rest);
    if Quiet(ProcessField(r, name, value), rest) {
      QuietAppend(r, Line(name, value) + [LF], rest);
    }
  }

  lemma QuietNothing(r: Reader)
    ensures Quiet(r, [])
  {
    assert forall n :: 0 <= n <= |""| ==> ""[..n] == [];
  }

  lemma FeedBlankLine(r: Reader)
    requires r.line == [] && !r.afterCr
    ensures Feed(r, [LF]) == Dispatch(r)
  {
    assert [] + [LF] == [LF];
    FeedLine(r, []);
  }

  /** The text of a chunk but for its last character. */
  function Head(c: Chunk): string
  {
    match c
    case Message(id, kind, data) =>
      (Line("id", id) + [LF]) + ((Line("event", kind) + [LF]) + ((Line("data", data) + [LF]) + []))
    case Heartbeat => ": heartbeat" + [LF]
  }

  lemma EncodeIsHead(c: Chunk)
    ensures Encode(c) == Head(c) + [LF]
  {
    hide Line;
  }

  lemma FeedMessageHead(r: Reader, id: string, kind: string, data: string)
    requires Sendable(Message(id, kind, data)) && Resting(r)
    ensures Feed(r, Head(Message(id, kind, data))) == r.(idBuffer := id, kind := kind, data := data + [LF])
    ensures Quiet(r, Head(Message(id, kind, data)))
  {
    hide Quiet, Line, OneLine;
    var r1 := ProcessField(r, "id", id);
    var r2 := ProcessField(r1, "event", kind);
    var r3 := ProcessField(r2, "data", data);
    assert r1 == r.(idBuffer := id) && r2 == r1.(kind := kind);
    assert [] + data + [LF] == data + [LF];
    FeedFieldQuietly(r, "id", id, (Line("event", kind) + [LF]) + ((Line("data", data) + [LF]) + []));
    FeedFieldQuietly(r1, "event", kind, (Line("data", data) + [LF]) + []);
    FeedFieldQuietly(r2, "data", data, []);
    QuietNothing(r3);
  }

  lemma FeedHead(r: Reader, c: Chunk)
    requires Sendable(c) && Resting(r)
    ensures Quiet(r, Head(c))
    ensures Feed(r, Encode(c)) == Delivered(r, c) && Resting(Delivered(r, c))
  {
    hide Quiet, Feed, Line, OneLine;
    EncodeIsHead(c);
    FeedAppend(r, Head(c), [LF]);
    match c {
      case Message(id, kind, data) =>
        FeedMessageHead(r, id, kind, data);
        FeedBlankLine(Feed(r, Head(c)));
        assert (data + [LF])[..|data|] == data;
      case Heartbeat =>
        assert OneLine(": heartbeat") by { HeartbeatLine(); }
        QuietLine(r, ": heartbeat");
        FeedLine(r, ": heartbeat");
        FeedBlankLine(r);
    }
  }

  lemma HeartbeatLine()
    ensures OneLine(": heartbeat")
  {
  }

  // ---- the stream -------------------------------------------------------------------

  /** The events of the messages among the chunks. */
  function Events(chunks: seq<Chunk>): seq<ClientEvent>
  {
    if chunks == [] then []
    else
      var first := if chunks[0].Message? then [ClientEvent(chunks[0].id, chunks[0].kind, chunks[0].data)] else [];
      first + Events(chunks[1..])
  }

  ghost predicate AllSendable(chunks: seq<Chunk>)
  {
    forall i :: 0 <= i < |chunks| ==> Sendable(chunks[i])
  }

  function LastId(events: seq<ClientEvent>, initial: string): string
  {
    if events == [] then initial else events[|events| - 1].id
  }

  /** The reader has dispatched exactly `events` since `r`, and remembers the identifier of the last one. */
  predicate HasRead(r: Reader, s: Reader, events: seq<ClientEvent>)
  {
    s.dispatched == r.dispatched + events && s.lastEventId == LastId(events, r.lastEventId)
  }

  /** How many characters the first `k` chunks take. */
  function Ends(chunks: seq<Chunk>, k: nat): nat
    requires k <= |chunks|
  {
    if k == 0 then 0 else |Encode(chunks[0])| + Ends(chunks[1..], k - 1)
  }

  /**
   Cut the stream after any number of characters: the client has dispatched exactly the events of the
   chunks that arrived completely, and its last event ID is that of the last of them.
   */
  lemma {:induction false} CutStream(r: Reader, chunks: seq<Chunk>, n: nat) returns (k: nat)
    requires AllSendable(chunks) && Resting(r) && n <= |EncodeAll(chunks)|
    ensures k <= |chunks| && Ends(chunks, k) <= n && (k < |chunks| ==> n < Ends(chunks, k + 1))
    ensures HasRead(r, Feed(r, EncodeAll(chunks)[..n]), Events(chunks[..k]))
    ensures n == |EncodeAll(chunks)| ==> k == |chunks| && Resting(Feed(r, EncodeAll(chunks)))
    decreases |chunks|
  {
    hide Encode, Feed, Sendable, Resting;
    if chunks == [] {
      k := 0;
      assert Feed(r, []) == r by { FeedNothing(r); }
      assert EncodeAll(chunks)[..n] == [] && chunks[..0] == [];
    } else {
      var first, rest := Encode(chunks[0]), EncodeAll(chunks[1..]);
      var text := EncodeAll(chunks);
      assert Sendable(chunks[0]);
      assert chunks[..0] == [];
      FeedHead(r, chunks[0]);
      EncodeIsHead(chunks[0]);
      if n < |first| {
        k := 0;
        assert text[..n] == Head(chunks[0])[..n];
        assert Unmoved(r, Feed(r, text[..n]));
        assert Ends(chunks, 1) == |first| + Ends(chunks[1..], 0);
      } else {
        var r' := Delivered(r, chunks[0]);
        assert forall i :: 0 <= i < |chunks[1..]| ==> chunks[1..][i] == chunks[i + 1];
        k := CutStream(r', chunks[1..], n - |first|);
        assert text[..n] == first + rest[..n - |first|];
        FeedAppend(r, first, rest[..n - |first|]);
        k := k + 1;
        assert chunks[..k][0] == chunks[0] && chunks[..k][1..] == chunks[1..][..k - 1];
        HasReadAlso(r, chunks[0], Events(chunks[1..][..k - 1]), Feed(r, text[..n]));
        if n == |text| {
          assert text[..n] == text && rest[..n - |first|] == rest;
        }
      }
    }
  }

  lemma FeedNothing(r: Reader)
    ensures Feed(r, []) == r
  {
  }

  lemma HasReadAlso(r: Reader, c: Chunk, events: seq<ClientEvent>, s: Reader)
    requires HasRead(Delivered(r, c), s, events)
    ensures HasRead(r, s, (if c.Message? then [ClientEvent(c.id, c.kind, c.data)] else []) + events)
  {
    var own := if c.Message? then [ClientEvent(c.id, c.kind, c.data)] else [];
    assert r.dispatched + (own + events) == r.dispatched + own + events;
  }

  lemma NoBom(chunks: seq<Chunk>, n: nat)
    requires n <= |EncodeAll(chunks)|
    ensures WithoutBom(EncodeAll(chunks)[..n]) == EncodeAll(chunks)[..n]
  {
    if n > 0 {
      assert EncodeAll(chunks)[0] == Encode(chunks[0])[0];
      assert Encode(chunks[0])[0] == 'i' || Encode(chunks[0])[0] == ':';
    }
  }

  /**
   Round trip: for any messages with heartbeats anywhere between them, the client dispatches exactly the
   (id, event, data) triples, in order.
   */
  lemma RoundTrip(chunks: seq<Chunk>, lastEventId: string)
    requires AllSendable(chunks)
    ensures Receive(lastEventId, EncodeAll(chunks)).dispatched == Events(chunks)
    ensures Receive(lastEventId, EncodeAll(chunks)).lastEventId == LastId(Events(chunks), lastEventId)
  {
    var text := EncodeAll(chunks);
    var k := CutStream(Connect(lastEventId), chunks, |text|);
    NoBom(chunks, |text|);
    assert text[..|text|] == text && chunks[..k] == chunks;
    assert Connect(lastEventId).dispatched + Events(chunks) == Events(chunks);
  }

  lemma {:induction false} EventsPrefix(chunks: seq<Chunk>, k: nat)
    requires k <= |chunks|
    ensures Events(chunks[..k]) <= Events(chunks)
  {
    if k > 0 {
      assert chunks[..k][0] == chunks[0] && chunks[..k][1..] == chunks[1..][..k - 1];
      EventsPrefix(chunks[1..], k - 1);
    } else {
      assert chunks[..0] == [];
    }
  }

  /** A connection lost after any character has delivered a prefix of the events, ending at the last event ID. */
  lemma CutReceive(chunks: seq<Chunk>, lastEventId: string, n: nat)
    requires AllSendable(chunks) && n <= |EncodeAll(chunks)|
    ensures var s := Receive(lastEventId, EncodeAll(chunks)[..n]);
            s.dispatched <= Events(chunks) && s.lastEventId == LastId(s.dispatched, lastEventId)
  {
    var k := CutStream(Connect(lastEventId), chunks, n);
    NoBom(chunks, n);
    EventsPrefix(chunks, k);
    assert Connect(lastEventId).dispatched + Events(chunks[..k]) == Events(chunks[..k]);
  }
}
