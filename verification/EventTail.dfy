/**
 Tailing a growing ledger of events from a cursor, one page at a time, and resuming after any cut.
 Events become visible in the order of their sequence numbers.
 */
module EventTail {
  import opened Wrappers
  import opened EventStream

  const PAGE: nat := 100

  datatype LedgerEvent = LedgerEvent(sequence: int, id: string, kind: string, data: string, aggregate: int)

  type Ledger = seq<LedgerEvent>

  datatype StreamError = CursorNotFound | CursorsDiffer

  ghost predicate Ordered(ledger: Ledger)
  {
    && (forall i, j :: 0 <= i < j < |ledger| ==> ledger[i].sequence < ledger[j].sequence)
    && (forall i, j :: 0 <= i < j < |ledger| ==> ledger[i].id != ledger[j].id)
  }

  predicate Later(e: LedgerEvent, from: Option<int>)
  {
    from.None? || e.sequence > from.value
  }

  /** The events of interest after a position, in order. */
  function Matching(ledger: Ledger, of: LedgerEvent -> bool, from: Option<int>): Ledger
  {
    if ledger == [] then []
    else (if of(ledger[0]) && Later(ledger[0], from) then [ledger[0]] else []) + Matching(ledger[1..], of, from)
  }

  function Position(ledger: Ledger, id: string): Option<int>
  {
    if ledger == [] then None
    else if ledger[0].id == id then Some(ledger[0].sequence)
    else Position(ledger[1..], id)
  }

  /** Where a cursor points; it must name a stored event. */
  function Start(ledger: Ledger, cursor: Option<string>): Result<Option<int>, StreamError>
  {
    if cursor.None? then Ok(None)
    else if Position(ledger, cursor.value).None? then Err(CursorNotFound)
    else Ok(Position(ledger, cursor.value))
  }

  function FirstPage(events: Ledger): Ledger
  {
    if |events| <= PAGE then events else events[..PAGE]
  }

  /** `list_events` */
  function ListEvents(ledger: Ledger, of: LedgerEvent -> bool, cursor: Option<string>): Result<Ledger, StreamError>
  {
    match Start(ledger, cursor)
    case Err(x) => Err(x)
    case Ok(from) => Ok(FirstPage(Matching(ledger, of, from)))
  }

  // ---- the ledger -------------------------------------------------------------------

  lemma {:induction false} MatchingSplit(a: Ledger, b: Ledger, of: LedgerEvent -> bool, from: Option<int>)
    ensures Matching(a + b, of, from) == Matching(a, of, from) + Matching(b, of, from)
  {
    if a == [] {
      assert a + b == b;
    } else {
      assert (a + b)[1..] == a[1..] + b;
      MatchingSplit(a[1..], b, of, from);
    }
  }

  /** More events only extend the answer. */
  lemma MatchingGrows(ledger: Ledger, longer: Ledger, of: LedgerEvent -> bool, from: Option<int>)
    requires ledger <= longer
    ensures Matching(ledger, of, from) <= Matching(longer, of, from)
  {
    assert longer == ledger + longer[|ledger|..];
    MatchingSplit(ledger, longer[|ledger|..], of, from);
  }

  lemma {:induction false} MatchingMembers(ledger: Ledger, of: LedgerEvent -> bool, from: Option<int>)
    ensures forall e :: e in Matching(ledger, of, from) <==> e in ledger && of(e) && Later(e, from)
  {
    if ledger != [] {
      MatchingMembers(ledger[1..], of, from);
      assert ledger == [ledger[0]] + ledger[1..];
    }
  }

  lemma OrderedTail(ledger: Ledger)
    requires Ordered(ledger) && ledger != []
    ensures Ordered(ledger[1..])
    ensures forall e :: e in ledger[1..] ==> e.sequence > ledger[0].sequence && e.id != ledger[0].id
  {
    assert forall i :: 0 <= i < |ledger[1..]| ==> ledger[1..][i] == ledger[i + 1];
  }

  lemma {:induction false} MatchingSame(ledger: Ledger, of: LedgerEvent -> bool, from: Option<int>, since: Option<int>)
    requires forall e :: e in ledger ==> (Later(e, from) <==> Later(e, since))
    ensures Matching(ledger, of, from) == Matching(ledger, of, since)
  {
    if ledger != [] {
      assert ledger[0] in ledger;
      assert forall e :: e in ledger[1..] ==> e in ledger;
      MatchingSame(ledger[1..], of, from, since);
    }
  }

  /** Behind the head of an ordered ledger, everything is later. */
  lemma AfterHead(ledger: Ledger, of: LedgerEvent -> bool, from: Option<int>)
    requires Ordered(ledger) && ledger != [] && Later(ledger[0], from)
    ensures Matching(ledger, of, Some(ledger[0].sequence)) == Matching(ledger[1..], of, from)
  {
    OrderedTail(ledger);
    MatchingSame(ledger[1..], of, from, Some(ledger[0].sequence));
  }

  lemma TailMatchIsLater(ledger: Ledger, of: LedgerEvent -> bool, from: Option<int>, k: nat)
    requires Ordered(ledger) && ledger != [] && k < |Matching(ledger[1..], of, from)|
    ensures Matching(ledger[1..], of, from)[k].sequence > ledger[0].sequence
  {
    OrderedTail(ledger);
    MatchingMembers(ledger[1..], of, from);
    assert Matching(ledger[1..], of, from)[k] in Matching(ledger[1..], of, from);
  }

  lemma MatchingUnfolds(ledger: Ledger, of: LedgerEvent -> bool, from: Option<int>)
    requires ledger != []
    ensures Matching(ledger, of, from) ==
              (if of(ledger[0]) && Later(ledger[0], from) then [ledger[0]] else []) + Matching(ledger[1..], of, from)
  {
  }

  /** Continuing after the `k`-th event leaves exactly the events behind it. */
  lemma {:induction false} MatchingResumes(ledger: Ledger, of: LedgerEvent -> bool, from: Option<int>, k: nat)
    requires Ordered(ledger) && k < |Matching(ledger, of, from)|
    ensures Matching(ledger, of, Some(Matching(ledger, of, from)[k].sequence)) == Matching(ledger, of, from)[k + 1..]
  {
    assert ledger != [];
    hide Ordered, Matching;
    MatchingUnfolds(ledger, of, from);
    OrderedTail(ledger);
    var first := if of(ledger[0]) && Later(ledger[0], from) then [ledger[0]] else [];
    var all, rest := Matching(ledger, of, from), Matching(ledger[1..], of, from);
    if k < |first| {
      AfterHead(ledger, of, from);
    } else {
      var next := Some(rest[k - |first|].sequence);
      TailMatchIsLater(ledger, of, from, k - |first|);
      MatchingUnfolds(ledger, of, next);
      MatchingResumes(ledger[1..], of, from, k - |first|);
      assert all[k + 1..] == rest[k - |first| + 1..];
    }
  }

  lemma {:induction false} PositionExactly(ledger: Ledger, e: LedgerEvent)
    requires Ordered(ledger) && e in ledger
    ensures Position(ledger, e.id) == Some(e.sequence)
  {
    OrderedTail(ledger);
    if e != ledger[0] {
      assert ledger == [ledger[0]] + ledger[1..];
      PositionExactly(ledger[1..], e);
    }
  }

  lemma {:induction false} PositionKept(ledger: Ledger, longer: Ledger, id: string)
    requires ledger <= longer && Position(ledger, id).Some?
    ensures Position(longer, id) == Position(ledger, id)
  {
    if ledger != [] && ledger[0].id != id {
      PositionKept(ledger[1..], longer[1..], id);
    }
  }

  // ---- the loop ---------------------------------------------------------------------

  function ToChunk(e: LedgerEvent): Chunk
  {
    Message(e.id, e.kind, e.data)
  }

  /** The events of a stream's messages are `sent`. */
  ghost predicate Sends(chunks: seq<Chunk>, sent: Ledger)
  {
    Events(chunks) == ClientEvents(sent)
  }

  function ClientEvents(sent: Ledger): (r: seq<ClientEvent>)
    ensures |r| == |sent| && forall i :: 0 <= i < |sent| ==> r[i] == ClientEvent(sent[i].id, sent[i].kind, sent[i].data)
  {
    seq(|sent|, i requires 0 <= i < |sent| => ClientEvent(sent[i].id, sent[i].kind, sent[i].data))
  }

  lemma {:induction false} EventsAppend(chunks: seq<Chunk>, c: Chunk)
    ensures Events(chunks + [c]) == Events(chunks) + (if c.Message? then [ClientEvent(c.id, c.kind, c.data)] else [])
  {
    if chunks == [] {
      assert [] + [c] == [c] && [c][1..] == [];
    } else {
      var first := if chunks[0].Message? then [ClientEvent(chunks[0].id, chunks[0].kind, chunks[0].data)] else [];
      var last := if c.Message? then [ClientEvent(c.id, c.kind, c.data)] else [];
      assert (chunks + [c])[1..] == chunks[1..] + [c];
      EventsAppend(chunks[1..], c);
      assert Events(chunks + [c]) == first + Events(chunks[1..] + [c]);
      assert first + (Events(chunks[1..]) + last) == first + Events(chunks[1..]) + last;
    }
  }

  lemma SendsAppend(chunks: seq<Chunk>, sent: Ledger, e: LedgerEvent)
    requires Sends(chunks, sent)
    ensures Sends(chunks + [ToChunk(e)], sent + [e])
  {
    EventsAppend(chunks, ToChunk(e));
    assert ClientEvents(sent + [e]) == ClientEvents(sent) + ClientEvents([e]);
  }

  /** The ledgers seen by successive polls. */
  ghost predicate Growing(ledgers: seq<Ledger>)
  {
    && (forall i :: 0 <= i < |ledgers| ==> Ordered(ledgers[i]))
    && (forall i, j :: 0 <= i <= j < |ledgers| ==> ledgers[i] <= ledgers[j])
  }

  /** The cursor stands behind everything that was sent. */
  ghost predicate StandsAt(start: Option<string>, cursor: Option<string>, sent: Ledger)
  {
    if sent == [] then cursor == start else cursor == Some(sent[|sent| - 1].id)
  }

  /** From the cursor on, the ledger holds exactly what has not been sent. */
  lemma CursorResumes(
    first: Ledger, ledger: Ledger, of: LedgerEvent -> bool, start: Option<string>, cursor: Option<string>,
    sent: Ledger)
    requires Ordered(ledger) && first <= ledger && Start(first, start).Ok?
    requires sent <= Matching(ledger, of, Start(first, start).value) && StandsAt(start, cursor, sent)
    ensures Start(ledger, cursor).Ok?
    ensures Matching(ledger, of, Start(ledger, cursor).value) ==
              Matching(ledger, of, Start(first, start).value)[|sent|..]
  {
    var from := Start(first, start).value;
    if sent == [] {
      if start.Some? {
        PositionKept(first, ledger, start.value);
      }
    } else {
      var k := |sent| - 1;
      MatchingMembers(ledger, of, from);
      assert sent[k] == Matching(ledger, of, from)[k];
      PositionExactly(ledger, sent[k]);
      MatchingResumes(ledger, of, from, k);
    }
  }

  /** One page: the messages of its events, in order; the cursor moves with each. */
  method SendPage(
    events: Ledger, out0: seq<Chunk>, cursor0: Option<string>, ghost start: Option<string>, ghost sent0: Ledger)
    returns (out: seq<Chunk>, cursor: Option<string>)
    requires Sends(out0, sent0) && StandsAt(start, cursor0, sent0)
    ensures out0 <= out && |out| == |out0| + |events| && forall i :: |out0| <= i < |out| ==> out[i].Message?
    ensures Sends(out, sent0 + events) && StandsAt(start, cursor, sent0 + events)
  {
    out, cursor := out0, cursor0;
    ghost var sent := sent0;
    assert sent0 + events[..0] == sent0;
    for i := 0 to |events|
      invariant out0 <= out && |out| == |out0| + i && forall j :: |out0| <= j < |out| ==> out[j].Message?
      invariant sent == sent0 + events[..i]
      invariant Sends(out, sent) && StandsAt(start, cursor, sent)
    {
      cursor := Some(events[i].id);
      SendsAppend(out, sent, events[i]);
      out := out + [ToChunk(events[i])];
      sent := sent + [events[i]];
      assert sent0 + events[..i + 1] == sent0 + events[..i] + [events[i]];
    }
    assert events[..|events|] == events;
  }

  function Least(a: nat, b: nat): nat
  {
    if a <= b then a else b
  }

  /** `sent` is where the stream stands after `polls` polls. */
  ghost predicate CaughtUp(ledgers: seq<Ledger>, of: LedgerEvent -> bool, from: Option<int>, sent: Ledger, polls: nat)
    requires polls <= |ledgers|
  {
    && (forall i :: polls <= i < |ledgers| ==> sent <= Matching(ledgers[i], of, from))
    && (polls > 0 ==> sent <= Matching(ledgers[polls - 1], of, from))
    && (forall i :: 0 <= i < polls ==> |sent| >= Least(|Matching(ledgers[i], of, from)|, PAGE * (polls - i)))
  }

  lemma OnePage(ledgers: seq<Ledger>, of: LedgerEvent -> bool, from: Option<int>, sent: Ledger, p: nat)
    requires Growing(ledgers) && p < |ledgers| && CaughtUp(ledgers, of, from, sent, p)
    requires sent <= Matching(ledgers[p], of, from)
    ensures CaughtUp(ledgers, of, from, sent + FirstPage(Matching(ledgers[p], of, from)[|sent|..]), p + 1)
  {
    var all := Matching(ledgers[p], of, from);
    var now := sent + FirstPage(all[|sent|..]);
    assert now <= all;
    forall i | p <= i < |ledgers|
      ensures now <= Matching(ledgers[i], of, from)
    {
      MatchingGrows(ledgers[p], ledgers[i], of, from);
    }
    forall i | 0 <= i < p + 1
      ensures |now| >= Least(|Matching(ledgers[i], of, from)|, PAGE * (p + 1 - i))
    {
      MatchingGrows(ledgers[i], ledgers[p], of, from);
      assert |now| == Least(|all|, |sent| + PAGE);
    }
  }

  /** When something was last sent, if anything was. */
  function LastTime(times: seq<int>, begun: int): int
  {
    if times == [] then begun else times[|times| - 1]
  }

  /** Each chunk has a time, and a heartbeat is sent only after `interval` of silence. */
  ghost predicate Paced(out: seq<Chunk>, times: seq<int>, begun: int, interval: int)
  {
    && |times| == |out|
    && forall i :: 0 <= i < |out| && out[i].Heartbeat? ==> times[i] - LastTime(times[..i], begun) >= interval
  }

  /** After each of the first polls but the last, something had been sent less than `interval` ago. */
  ghost predicate NeverSilent(heard: seq<int>, times: seq<int>, clock: seq<int>, begun: int, interval: int)
  {
    && |heard| <= |clock|
    && forall p :: 0 <= p < |heard| ==> clock[p] - heard[p] < interval && (heard[p] == begun || heard[p] in times)
  }

  function Repeat(t: int, n: nat): (s: seq<int>)
    ensures |s| == n && forall i :: 0 <= i < n ==> s[i] == t
  {
    seq(n, _ => t)
  }

  lemma PacedAppend(
    out: seq<Chunk>, times: seq<int>, out': seq<Chunk>, times': seq<int>, begun: int, interval: int)
    requires Paced(out, times, begun, interval) && out <= out' && times <= times' && |times'| == |out'|
    requires forall i :: |out| <= i < |out'| && out'[i].Heartbeat? ==>
               times'[i] - LastTime(times'[..i], begun) >= interval
    ensures Paced(out', times', begun, interval)
  {
    forall i | 0 <= i < |out'| && out'[i].Heartbeat?
      ensures times'[i] - LastTime(times'[..i], begun) >= interval
    {
      if i < |out| {
        assert out[i].Heartbeat? && times'[..i] == times[..i] && times'[i] == times[i];
      }
    }
  }

  lemma HeardMore(
    heard: seq<int>, times: seq<int>, times': seq<int>, clock: seq<int>, begun: int, interval: int, next: int)
    requires NeverSilent(heard, times, clock, begun, interval) && times <= times' && |heard| < |clock|
    requires clock[|heard|] - next < interval && (next == begun || next in times')
    ensures NeverSilent(heard + [next], times', clock, begun, interval)
  {
    assert forall t :: t in times ==> t in times';
  }

  /**
   The event stream until the client disconnects after the last poll; `clock[i]` is the time of poll `i`.

   What was sent is exactly the first matching events after the cursor, without gap or repetition, and
   everything visible at a poll is sent within as many further polls as it has pages.  A heartbeat is sent
   only after `interval` of silence, and no poll but the last leaves a longer silence behind.
   */
  method TailEvents(
    ledgers: seq<Ledger>, of: LedgerEvent -> bool, start: Option<string>, clock: seq<int>, interval: int, begun: int)
    returns (r: Result<seq<Chunk>, StreamError>, ghost sent: Ledger, ghost times: seq<int>, ghost heard: seq<int>)
    requires Growing(ledgers) && |ledgers| >= 1 && |clock| == |ledgers| && interval > 0
    ensures r.Ok? <==> Start(ledgers[0], start).Ok?
    ensures r.Ok? ==> Sends(r.value, sent) && CaughtUp(ledgers, of, Start(ledgers[0], start).value, sent, |ledgers|)
    ensures r.Ok? ==> Paced(r.value, times, begun, interval)
    ensures r.Ok? ==> |heard| == |ledgers| - 1 && NeverSilent(heard, times, clock, begun, interval)
  {
    hide Matching, Ordered, Paced, NeverSilent, CaughtUp, Sends;
    sent, times, heard := [], [], [];
    var initial := ListEvents(ledgers[0], of, start);
    if initial.Err? {
      return Err(CursorNotFound), [], [], [];
    }
    ghost var from := Start(ledgers[0], start).value;
    var events, cursor, out, polls, lastMessageAt := initial.value, start, [], 0, begun;
    NothingSent(ledgers, of, from, clock, begun, interval);
    while true
      invariant 0 <= polls < |ledgers| && |heard| == polls
      invariant CaughtUp(ledgers, of, from, sent, polls) && sent <= Matching(ledgers[polls], of, from)
      invariant events == FirstPage(Matching(ledgers[polls], of, from)[|sent|..])
      invariant Sends(out, sent) && StandsAt(start, cursor, sent)
      invariant Paced(out, times, begun, interval) && lastMessageAt == LastTime(times, begun) && |times| == |out|
      invariant NeverSilent(heard, times, clock, begun, interval)
      decreases |ledgers| - polls
    {
      OnePage(ledgers, of, from, sent, polls);
      ghost var out0, times0 := out, times;
      if events != [] {
        out, cursor := SendPage(events, out, cursor, start, sent);
        sent, times := sent + events, times + Repeat(clock[polls], |events|);
        lastMessageAt := clock[polls];
        PacedAppend(out0, times0, out, times, begun, interval);
      } else {
        assert sent + events == sent;
        if polls + 1 < |ledgers| && clock[polls] - lastMessageAt >= interval {
          HeartbeatSends(out, sent);
          out, times := out + [Heartbeat], times + [clock[polls]];
          assert times[..|out0|] == times0;
          lastMessageAt := clock[polls];
          PacedAppend(out0, times0, out, times, begun, interval);
        }
      }
      polls := polls + 1;
      if polls == |ledgers| {
        MoreTimes(heard, times0, times, clock, begun, interval);
        return Ok(out), sent, times, heard;
      }
      assert lastMessageAt == LastTime(times, begun) && (times == [] || times[|times| - 1] in times);
      HeardMore(heard, times0, times, clock, begun, interval, lastMessageAt);
      heard := heard + [lastMessageAt];
      SentSoFar(ledgers, of, from, sent, polls);
      CursorResumes(ledgers[0], ledgers[polls], of, start, cursor, sent);
      events := ListEvents(ledgers[polls], of, cursor).value;
    }
  }

  lemma NothingSent(
    ledgers: seq<Ledger>, of: LedgerEvent -> bool, from: Option<int>, clock: seq<int>, begun: int, interval: int)
    ensures CaughtUp(ledgers, of, from, [], 0) && Sends([], [])
    ensures Paced([], [], begun, interval) && NeverSilent([], [], clock, begun, interval)
  {
  }

  lemma SentSoFar(ledgers: seq<Ledger>, of: LedgerEvent -> bool, from: Option<int>, sent: Ledger, polls: nat)
    requires polls < |ledgers| && CaughtUp(ledgers, of, from, sent, polls)
    ensures sent <= Matching(ledgers[polls], of, from)
  {
  }

  lemma HeartbeatSends(out: seq<Chunk>, sent: Ledger)
    requires Sends(out, sent)
    ensures Sends(out + [Heartbeat], sent)
  {
    EventsAppend(out, Heartbeat);
  }

  lemma MoreTimes(heard: seq<int>, times: seq<int>, times': seq<int>, clock: seq<int>, begun: int, interval: int)
    requires NeverSilent(heard, times, clock, begun, interval) && times <= times'
    ensures NeverSilent(heard, times', clock, begun, interval)
  {
    assert forall t :: t in times ==> t in times';
  }

  // ---- reconnecting -----------------------------------------------------------------

  ghost predicate SendableEvents(ledger: Ledger)
  {
    forall i :: 0 <= i < |ledger| ==> Sendable(ToChunk(ledger[i])) && ledger[i].id != []
  }

  /** What a client keeps of its cursor: the last event ID, when it has one. */
  function CursorOf(lastEventId: string, start: Option<string>): Option<string>
  {
    if lastEventId == [] then start else Some(lastEventId)
  }

  lemma {:induction false} PrefixOfClientEvents(events: seq<ClientEvent>, sent: Ledger)
    requires events <= ClientEvents(sent)
    ensures events == ClientEvents(sent[..|events|])
  {
  }

  lemma {:induction false} ChunksSendable(chunks: seq<Chunk>, sent: Ledger)
    requires Events(chunks) == ClientEvents(sent) && SendableEvents(sent)
    ensures AllSendable(chunks)
  {
    forall i | 0 <= i < |chunks|
      ensures Sendable(chunks[i])
    {
      if chunks[i].Message? {
        var j := EventOf(chunks, i);
        assert ClientEvents(sent)[j] == ClientEvent(sent[j].id, sent[j].kind, sent[j].data);
        assert chunks[i] == ToChunk(sent[j]);
      }
    }
  }

  lemma {:induction false} EventOf(chunks: seq<Chunk>, i: nat) returns (j: nat)
    requires i < |chunks| && chunks[i].Message?
    ensures j < |Events(chunks)| && Events(chunks)[j] == ClientEvent(chunks[i].id, chunks[i].kind, chunks[i].data)
  {
    if i == 0 {
      j := 0;
    } else {
      j := EventOf(chunks[1..], i - 1);
      j := if chunks[0].Message? then j + 1 else j;
    }
  }

  lemma SentIsSendable(ledger: Ledger, of: LedgerEvent -> bool, from: Option<int>, sent: Ledger)
    requires SendableEvents(ledger) && sent <= Matching(ledger, of, from)
    ensures SendableEvents(sent)
  {
    MatchingMembers(ledger, of, from);
    var all := Matching(ledger, of, from);
    forall i | 0 <= i < |sent|
      ensures Sendable(ToChunk(sent[i])) && sent[i].id != []
    {
      assert sent[i] == all[i] && all[i] in all;
      var j :| 0 <= j < |ledger| && ledger[j] == all[i];
    }
  }

  /** What a client has when its connection is lost after `n` characters. */
  lemma ClientCut(chunks: seq<Chunk>, sent: Ledger, start: Option<string>, n: nat) returns (got: Ledger)
    requires Sends(chunks, sent) && SendableEvents(sent) && n <= |EncodeAll(chunks)|
    ensures got <= sent
    ensures var client := Receive([], EncodeAll(chunks)[..n]);
            && client.dispatched == ClientEvents(got)
            && (client.lastEventId == [] <==> got == [])
            && StandsAt(start, CursorOf(client.lastEventId, start), got)
  {
    hide Receive, EncodeAll, Events, Sendable;
    ChunksSendable(chunks, sent);
    CutReceive(chunks, [], n);
    var client := Receive([], EncodeAll(chunks)[..n]);
    PrefixOfClientEvents(client.dispatched, sent);
    got := sent[..|client.dispatched|];
  }

  /**
   A connection from `start` is lost after any `n` characters.  The client has dispatched a prefix of the
   matching events, and a new stream from its last event ID, over any later ledger, holds exactly the
   matching events behind that prefix: no gap and no repetition.
   */
  lemma ReconnectContinues(
    first: Ledger, ledger: Ledger, of: LedgerEvent -> bool, start: Option<string>,
    chunks: seq<Chunk>, sent: Ledger, n: nat)
    requires Ordered(ledger) && SendableEvents(ledger) && first <= ledger && Start(first, start).Ok?
    requires Sends(chunks, sent) && sent <= Matching(ledger, of, Start(first, start).value)
    requires n <= |EncodeAll(chunks)|
    ensures var client := Receive([], EncodeAll(chunks)[..n]);
            var cursor := CursorOf(client.lastEventId, start);
            && Start(ledger, cursor).Ok?
            && client.dispatched + ClientEvents(Matching(ledger, of, Start(ledger, cursor).value))
               == ClientEvents(Matching(ledger, of, Start(first, start).value))
  {
    hide Receive, EncodeAll, Matching, Start, Sends, SendableEvents, CursorOf, Ordered;
    var all := Matching(ledger, of, Start(first, start).value);
    SentIsSendable(ledger, of, Start(first, start).value, sent);
    var got := ClientCut(chunks, sent, start, n);
    var cursor := CursorOf(Receive([], EncodeAll(chunks)[..n]).lastEventId, start);
    CursorResumes(first, ledger, of, start, cursor, got);
    assert all == got + all[|got|..];
    ClientEventsAppend(got, all[|got|..]);
  }

  /** The route's choice between the `after` parameter and the Last-Event-ID header. */
  function RouteCursor(after: Option<string>, lastEventId: Option<string>): Result<Option<string>, StreamError>
  {
    if after.Some? && lastEventId.Some? && after != lastEventId then Err(CursorsDiffer)
    else Ok(if lastEventId.Some? then lastEventId else after)
  }

  /**
   A client that repeats its first request and adds its last event ID is accepted exactly when that request
   had no `after` cursor or no event has been dispatched yet: with a cursor, the two differ ever after.
   */
  lemma SameRequestReconnects(
    first: Ledger, ledger: Ledger, of: LedgerEvent -> bool, start: Option<string>,
    chunks: seq<Chunk>, sent: Ledger, n: nat)
    requires Ordered(ledger) && SendableEvents(ledger) && first <= ledger && Start(first, start).Ok?
    requires Sends(chunks, sent) && sent <= Matching(ledger, of, Start(first, start).value)
    requires n <= |EncodeAll(chunks)|
    ensures var client := Receive([], EncodeAll(chunks)[..n]);
            RouteCursor(start, CursorOf(client.lastEventId, None)).Ok? <==> start.None? || client.dispatched == []
  {
    hide Receive, EncodeAll, Matching, Sends, SendableEvents, Ordered;
    SentIsSendable(ledger, of, Start(first, start).value, sent);
    var got := ClientCut(chunks, sent, start, n);
    if start.Some? && got != [] {
      NeverBackAtStart(first, ledger, of, start.value, got[|got| - 1]);
    }
  }

  /** The failing family: a client that asked for the events after `a` and received `b` may not repeat its request. */
  lemma RepeatedRequestIsRefused(a: LedgerEvent, b: LedgerEvent)
    requires a.sequence < b.sequence && a.id != b.id && SendableEvents([a, b])
    ensures var ledger, text := [a, b], EncodeAll([ToChunk(b)]);
            && Ordered(ledger) && Start(ledger, Some(a.id)).Ok?
            && Matching(ledger, _ => true, Start(ledger, Some(a.id)).value) == [b]
            && Receive([], text).dispatched == ClientEvents([b])
            && RouteCursor(Some(a.id), CursorOf(Receive([], text).lastEventId, None)) == Err(CursorsDiffer)
  {
    var ledger, chunks, of := [a, b], [ToChunk(b)], (e: LedgerEvent) => true;
    assert ledger[1..] == [b] && [b][1..] == [];
    assert Matching([b], of, Some(a.sequence)) == [b];
    assert Sendable(ToChunk(ledger[1]));
    assert chunks[1..] == [] && Events(chunks) == ClientEvents([b]);
    RoundTrip(chunks, []);
  }

  /** The event the cursor names is not among those after it. */
  lemma NeverBackAtStart(first: Ledger, ledger: Ledger, of: LedgerEvent -> bool, start: string, e: LedgerEvent)
    requires Ordered(ledger) && first <= ledger && Position(first, start).Some?
    requires e in Matching(ledger, of, Position(first, start))
    ensures e.id != start
  {
    MatchingMembers(ledger, of, Position(first, start));
    PositionKept(first, ledger, start);
    PositionExactly(ledger, e);
  }

  lemma ClientEventsAppend(a: Ledger, b: Ledger)
    ensures ClientEvents(a + b) == ClientEvents(a) + ClientEvents(b)
  {
  }
}
