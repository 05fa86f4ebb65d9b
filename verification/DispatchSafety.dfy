/**
 Exactly-once dispatch: over every serial order of dispatches and of anything else that happens to
 the store, one key owns at most one request, run and execution, and re-sending it returns them.
 */
module DispatchSafety {
  import opened Wrappers
  import opened Text
  import opened Addons
  import opened RequestDispatch

  // ---- the invariant ----------------------------------------------------------------

  /** The identifiers point at a request of the project, a run of it, and an execution of that. */
  ghost predicate Owns(s: Store, k: Key, ids: Ids)
  {
    && ids.request in s.requests && s.requests[ids.request].project == k.project
    && ids.run in s.runs && s.runs[ids.run].request == ids.request
    && ids.execution in s.executions && s.executions[ids.execution].run == ids.run
  }

  ghost predicate Sound(s: Store)
  {
    && (forall k :: k in s.receipts ==> s.receipts[k].result.Some? && Owns(s, k, s.receipts[k].result.value))
    && (forall k, l :: k in s.receipts && l in s.receipts && k != l ==>
          s.receipts[k].result.Some? && s.receipts[l].result.Some? ==>
            Apart(s.receipts[k].result.value, s.receipts[l].result.value))
  }

  predicate Apart(a: Ids, b: Ids)
  {
    a.request != b.request && a.run != b.run && a.execution != b.execution
  }

  predicate IdsFresh(s: Store, ids: Ids)
  {
    ids.request !in s.requests && ids.run !in s.runs && ids.execution !in s.executions
  }

  /**
   Anything else that may happen to the store: rebinding, archiving, registrations, lifecycle changes
   and rows created by other commands.  Receipts are left alone, rows stay and keep what they belong to.
   */
  ghost predicate Elsewhere(s: Store, t: Store)
  {
    && t.receipts == s.receipts
    && s.active.Keys <= t.active.Keys
    && (forall i :: i in s.requests ==> i in t.requests && t.requests[i].project == s.requests[i].project)
    && (forall i :: i in s.runs ==> i in t.runs && t.runs[i].request == s.runs[i].request)
    && (forall i :: i in s.executions ==> i in t.executions && t.executions[i].run == s.executions[i].run)
  }

  datatype Event = Dispatching(command: Command, context: Fresh) | Other(next: Store)

  ghost predicate Possible(s: Store, e: Event)
  {
    match e
    case Dispatching(_, f) => IdsFresh(s, f.ids)
    case Other(t) => Elsewhere(s, t)
  }

  ghost function Step(s: Store, e: Event): Store
  {
    match e
    case Dispatching(c, f) => Dispatch(s, c, f).store
    case Other(t) => t
  }

  ghost predicate PossibleRun(s: Store, events: seq<Event>)
    decreases |events|
  {
    events == [] || (Possible(s, events[0]) && PossibleRun(Step(s, events[0]), events[1..]))
  }

  ghost function Final(s: Store, events: seq<Event>): Store
    decreases |events|
  {
    if events == [] then s else Final(Step(s, events[0]), events[1..])
  }

  // ---- one step ---------------------------------------------------------------------

  /** A dispatch either leaves the store as it is, or adds one receipt with three new rows. */
  lemma DispatchShape(s: Store, c: Command, f: Fresh)
    ensures var o := Dispatch(s, c, f);
            && (o.result.Err? ==> o.store == s)
            && (o.result.Ok? && o.result.value.replayed ==>
                  && o.store == s && KeyOf(c) in s.receipts
                  && s.receipts[KeyOf(c)].result == Some(o.result.value.ids))
            && (o.result.Ok? && !o.result.value.replayed ==>
                  && o.result.value.ids == f.ids && KeyOf(c) !in s.receipts && f.starts.Some? && PayloadOf(c).Ok?
                  && exists nodes :: o.store == Commit(s, KeyOf(c), PayloadOf(c).value, f, nodes))
  {
  }

  lemma CommitKeepsSound(s: Store, k: Key, p: Payload, f: Fresh, nodes: seq<Node>)
    requires Sound(s) && IdsFresh(s, f.ids) && k !in s.receipts && f.starts.Some?
    ensures Sound(Commit(s, k, p, f, nodes)) && Kept(s, Commit(s, k, p, f, nodes))
  {
    var t := Commit(s, k, p, f, nodes);
    forall l | l in t.receipts
      ensures t.receipts[l].result.Some? && Owns(t, l, t.receipts[l].result.value)
      ensures l != k ==> Apart(t.receipts[l].result.value, f.ids) && Apart(f.ids, t.receipts[l].result.value)
    {
      if l != k {
        assert Owns(s, l, s.receipts[l].result.value);
      }
    }
  }

  /** What no step undoes: receipts stay as they are, and so does what their rows belong to. */
  ghost predicate Kept(s: Store, t: Store)
  {
    && s.active.Keys <= t.active.Keys
    && forall k :: k in s.receipts ==> k in t.receipts && t.receipts[k] == s.receipts[k]
  }

  lemma StepKeepsSound(s: Store, e: Event)
    requires Sound(s) && Possible(s, e)
    ensures Sound(Step(s, e)) && Kept(s, Step(s, e))
  {
    hide PayloadOf, Commit, Dispatch;
    match e {
      case Dispatching(c, f) =>
        DispatchShape(s, c, f);
        var o := Dispatch(s, c, f);
        if o.result.Ok? && !o.result.value.replayed {
          var nodes :| o.store == Commit(s, KeyOf(c), PayloadOf(c).value, f, nodes);
          CommitKeepsSound(s, KeyOf(c), PayloadOf(c).value, f, nodes);
        }
      case Other(t) =>
        forall k | k in t.receipts
          ensures Owns(t, k, t.receipts[k].result.value)
        {
          assert Owns(s, k, s.receipts[k].result.value);
        }
    }
  }

  lemma {:induction false} RunKeepsSound(s: Store, events: seq<Event>)
    requires Sound(s) && PossibleRun(s, events)
    ensures Sound(Final(s, events)) && Kept(s, Final(s, events))
    decreases |events|
  {
    hide Sound, Step, Possible;
    if events != [] {
      StepKeepsSound(s, events[0]);
      RunKeepsSound(Step(s, events[0]), events[1..]);
    }
  }

  // ---- replay -----------------------------------------------------------------------

  /** The command passes the checks made before the receipt is looked up. */
  ghost predicate WellFormed(c: Command)
  {
    PayloadOf(c).Ok? && ValidIngress(Strip(c.origin.ingressKey)) && 1 <= |Strip(c.idempotencyKey)| <= 128
  }

  /** The two errors that stand for half-finished receipts never happen. */
  lemma NeverInProgress(s: Store, c: Command, f: Fresh)
    requires Sound(s)
    ensures Dispatch(s, c, f).result.Err? ==>
              !Dispatch(s, c, f).result.error.StillInProgress? && !Dispatch(s, c, f).result.error.ResultUnavailable?
  {
    hide PayloadOf, ApplyAddons, Commit, Select;
    if KeyOf(c) in s.receipts {
      assert Owns(s, KeyOf(c), s.receipts[KeyOf(c)].result.value);
    }
    if PayloadOf(c).Ok? && c.project in s.active {
      CreateErrors(s, c, PayloadOf(c).value, f);
    }
    PayloadErrors(c);
  }

  lemma PayloadErrors(c: Command)
    ensures PayloadOf(c).Err? ==> PayloadOf(c).error.IncompleteOverride? || PayloadOf(c).error.BadAddons?
  {
  }

  lemma CreateErrors(s: Store, c: Command, p: Payload, f: Fresh)
    requires c.project in s.active
    ensures Create(s, c, p, f).Err? ==>
              !Create(s, c, p, f).error.StillInProgress? && !Create(s, c, p, f).error.ResultUnavailable?
  {
  }

  /** An accepted dispatch leaves a receipt with its payload and identifiers. */
  lemma AcceptedLeavesReceipt(s: Store, c: Command, f: Fresh)
    requires Dispatch(s, c, f).result.Ok?
    ensures WellFormed(c) && c.project in s.active
    ensures var o := Dispatch(s, c, f);
            && KeyOf(c) in o.store.receipts
            && o.store.receipts[KeyOf(c)] == Receipt(PayloadOf(c).value, Some(o.result.value.ids))
            && o.store.active == s.active
  {
    hide PayloadOf, ApplyAddons, Select;
  }

  /** A well-formed command whose key has a receipt is answered from it, whatever else has changed. */
  lemma AnsweredFromReceipt(s: Store, c: Command, f: Fresh)
    requires Sound(s) && WellFormed(c) && c.project in s.active && KeyOf(c) in s.receipts
    ensures Dispatch(s, c, f) == Outcome(s, if s.receipts[KeyOf(c)].payload == PayloadOf(c).value
                                              then Ok(Dispatched(s.receipts[KeyOf(c)].result.value, true))
                                              else Err(DifferentPayload))
  {
    hide PayloadOf, Create;
    assert Owns(s, KeyOf(c), s.receipts[KeyOf(c)].result.value);
  }

  /**
   Once a dispatch has been accepted, then after any events at all: sending a command with the same key
   and payload returns the same three identifiers and changes nothing, and one with the same key and
   another payload is refused and changes nothing.
   */
  lemma ReplayForever(s: Store, c: Command, f: Fresh, events: seq<Event>, d: Command, g: Fresh)
    requires Sound(s) && IdsFresh(s, f.ids) && Dispatch(s, c, f).result.Ok?
    requires PossibleRun(Dispatch(s, c, f).store, events)
    requires WellFormed(d) && KeyOf(d) == KeyOf(c)
    ensures var t := Final(Dispatch(s, c, f).store, events);
            Dispatch(t, d, g) == Outcome(t, if PayloadOf(d) == PayloadOf(c)
                                              then Ok(Dispatched(Dispatch(s, c, f).result.value.ids, true))
                                              else Err(DifferentPayload))
  {
    hide Sound, Dispatch, PayloadOf;
    assert Possible(s, Dispatching(c, f));
    StepKeepsSound(s, Dispatching(c, f));
    AcceptedLeavesReceipt(s, c, f);
    var t0 := Step(s, Dispatching(c, f));
    assert t0 == Dispatch(s, c, f).store;
    RunKeepsSound(t0, events);
    assert d.project == KeyOf(d).project == c.project;
    AnsweredFromReceipt(Final(t0, events), d, g);
  }

  /** When two commands carry the same payload: add-ons are compared by what they ask for. */
  lemma SamePayloadExactly(c: Command, d: Command)
    requires PayloadOf(c).Ok? && PayloadOf(d).Ok?
    ensures PayloadOf(c) == PayloadOf(d) <==>
              && Strip(c.prompt) == Strip(d.prompt) && StripOptional(c.title) == StripOptional(d.title)
              && c.origin == d.origin && c.recommendation == d.recommendation
              && StripOptional(c.definitionKey) == StripOptional(d.definitionKey)
              && c.definitionVersion == d.definitionVersion
              && Meaning(c.addons) == Meaning(d.addons)
  {
    hide Normalize, Meaning, Strip;
    CanonicalForm(c.addons, d.addons);
  }

  // ---- exactly once -----------------------------------------------------------------

  /** How often the events create rows for the key. */
  ghost function Creations(s: Store, events: seq<Event>, k: Key): nat
    decreases |events|
  {
    if events == [] then 0
    else CreatesFor(s, events[0], k) + Creations(Step(s, events[0]), events[1..], k)
  }

  ghost function CreatesFor(s: Store, e: Event, k: Key): nat
  {
    if e.Dispatching? && KeyOf(e.command) == k && Dispatch(s, e.command, e.context).result.Ok?
       && !Dispatch(s, e.command, e.context).result.value.replayed
    then 1 else 0
  }

  ghost function Present(s: Store, k: Key): nat
  {
    if k in s.receipts then 1 else 0
  }

  /** A key gets its receipt by the one dispatch that creates its rows, and never again. */
  lemma {:induction false} ExactlyOnce(s: Store, events: seq<Event>, k: Key)
    requires Sound(s) && PossibleRun(s, events)
    ensures Present(s, k) + Creations(s, events, k) == Present(Final(s, events), k)
    ensures Creations(s, events, k) <= 1
    decreases |events|
  {
    hide Sound, Step;
    if events != [] {
      StepKeepsSound(s, events[0]);
      OneCreation(s, events[0], k);
      ExactlyOnce(Step(s, events[0]), events[1..], k);
    }
  }

  lemma OneCreation(s: Store, e: Event, k: Key)
    requires Possible(s, e)
    ensures Present(s, k) + CreatesFor(s, e, k) == Present(Step(s, e), k)
  {
    if e.Dispatching? {
      hide Dispatch, PayloadOf;
      DispatchShape(s, e.command, e.context);
    }
  }

  /** Two keys never share a request, a run or an execution. */
  lemma KeysStayApart(s: Store, events: seq<Event>, k: Key, l: Key)
    requires Sound(s) && PossibleRun(s, events)
    requires k in Final(s, events).receipts && l in Final(s, events).receipts && k != l
    ensures var t := Final(s, events);
            && t.receipts[k].result.Some? && t.receipts[l].result.Some?
            && Apart(t.receipts[k].result.value, t.receipts[l].result.value)
  {
    hide Final, Owns;
    RunKeepsSound(s, events);
  }

  /** What a creating dispatch adds: one request with the stripped texts, its run, its execution and the receipt. */
  lemma CreatedRows(s: Store, c: Command, f: Fresh)
    requires Dispatch(s, c, f).result.Ok? && !Dispatch(s, c, f).result.value.replayed
    ensures f.starts.Some? && c.project in s.active && s.active[c.project] && !Blank(c.prompt)
    ensures var t := Dispatch(s, c, f).store;
            && t.requests == s.requests[f.ids.request :=
                 RequestRow(c.project, Strip(c.prompt), StripOptional(c.title), f.starts.value)]
            && t.runs == s.runs[f.ids.run := RunRow(f.ids.request, f.starts.value)]
            && t.executions.Keys == s.executions.Keys + {f.ids.execution}
            && PayloadOf(c).Ok?
            && t.receipts == s.receipts[Key(c.project, Strip(c.origin.ingressKey), Strip(c.idempotencyKey)) :=
                 Receipt(PayloadOf(c).value, Some(f.ids))]
            && t == s.(requests := t.requests, runs := t.runs, executions := t.executions, receipts := t.receipts)
  {
    hide ApplyAddons, Normalize, Strip, Blank, Select;
    StripFacts(c.prompt);
  }

  /**
   A recommendation is only followed for its project and prompt, to one of its candidates, and when it needs no
   confirmation or was confirmed.
   */
  lemma RecommendationIsFollowed(s: Store, p: Payload, project: int)
    requires p.recommendation.Some? && Select(s, p, project).Ok?
    ensures p.recommendation.value in s.recommendations
    ensures var event := s.recommendations[p.recommendation.value];
            && event.project == project && event.prompt == p.prompt
            && (p.workflow.None? ==> !event.requiresConfirmation)
            && exists v ::
                 && v in event.candidates && v in s.definitions && Select(s, p, project).value == s.definitions[v]
                 && (p.workflow.Some? ==> v == p.workflow.value)
  {
    var version := Recommended(s, p, project).value.value;
    assert version in s.recommendations[p.recommendation.value].candidates;
  }
}
