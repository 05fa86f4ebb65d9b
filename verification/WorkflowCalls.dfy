/**
 What the engine calls ask for and what they do to a node, read off the node itself: when each call is accepted, how
 long a lease lasts, that a lost lease is worth nothing, and what becomes of failed and completed attempts.
 */
module WorkflowCalls {
  import opened Wrappers
  import opened Text
  import opened Workflows
  import opened WorkflowSafety
  import opened WorkflowStarvation

  // ---- when a call is accepted ------------------------------------------------------

  predicate IsRunning(e: Execution, k: string)
  {
    k in e.nodes && e.nodes[k].status.Running?
  }

  /** A leased node is held by its own token before its expiry; one without a lease by no token. */
  predicate Held(n: NodeExecution, lease: Option<int>, at: int)
  {
    n.leaseToken == lease && (lease.Some? ==> n.leaseExpiresAt.Some? && at < n.leaseExpiresAt.value)
  }

  predicate CanBegin(e: Execution, k: string)
  {
    k in e.nodes && k in e.snapshot.nodes && e.snapshot.nodes[k].kind.Task? && e.nodes[k].status.Ready?
  }

  /** What each call asks of the state before it. */
  predicate Accepts(e: Execution, op: Operation, at: int)
  {
    match op
    case Start => e.status.WorkflowPending?
    case Begin(k) => CanBegin(e, k)
    case Claim(k, worker, seconds, _) => CanBegin(e, k) && !Blank(worker) && seconds >= 1
    case Renew(k, token, seconds) => IsRunning(e, k) && Held(e.nodes[k], Some(token), at) && seconds >= 1
    case Complete(k, outcome, _, lease) =>
      IsRunning(e, k) && Held(e.nodes[k], lease, at) && (outcome.Success? || outcome.Failure?)
    case FailTask(k, _, lease) => IsRunning(e, k) && Held(e.nodes[k], lease, at)
    case Expire(k) => IsRunning(e, k) && e.nodes[k].leaseExpiresAt.Some? && e.nodes[k].leaseExpiresAt.value <= at
    case Resolve(k, _) => k in e.nodes && e.nodes[k].status.AwaitingApproval?
    case Cancel => !IsTerminal(e)
  }

  lemma AcceptedExactly(e: Execution, op: Operation, at: int)
    requires Settled(e)
    ensures Shaped(e) && (Apply(e, op, at).Ok? <==> Accepts(e, op, at))
  {
    hide Potential, Route, Activate, HandleTaskFailure, HasActive, HasStarvedJoin, NothingAborted, AwaitingIsBacked;
    SettledShaped(e);
    if !op.Start? && !op.Cancel? && op.key in e.nodes {
      assert NodeOk(e.snapshot.nodes[op.key], e.nodes[op.key]);
    }
  }

  // ---- what a call leaves of the other nodes ----------------------------------------

  /** A node stayed as it was, was cancelled while active, or was entered afresh. */
  predicate Moved(n: NodeExecution, m: NodeExecution)
  {
    || m == n
    || (m.visits == n.visits && Active(n) && m.status.Cancelled? && m.leaseToken.None? && m.attempts == n.attempts
        && m.output == n.output && m.startedAt == n.startedAt)
    || (m.visits > n.visits && m.attempts == 0 && m.output.None? && m.leaseToken.None? && m.startedAt.None?)
  }

  ghost predicate AllMoved(e: Execution, f: Execution)
  {
    f.nodes.Keys == e.nodes.Keys && forall k :: k in e.nodes ==> Moved(e.nodes[k], f.nodes[k])
  }

  lemma MovedOn(e: Execution, f: Execution, g: Execution)
    requires AllMoved(e, f) && AllMoved(f, g)
    ensures AllMoved(e, g)
  {
    forall k | k in e.nodes
      ensures Moved(e.nodes[k], g.nodes[k])
    {
      assert Moved(e.nodes[k], f.nodes[k]) && Moved(f.nodes[k], g.nodes[k]);
    }
  }

  lemma EnteredMoves(e: Execution, key: string, at: int)
    requires Shaped(e) && key in e.nodes
    ensures AllMoved(e, Entered(e, key, at))
    ensures AllMoved(e, SetNode(e, key, Enter(e.snapshot.nodes[key], e.nodes[key], at)))
  {
    hide NodeOk, WellFormed;
  }

  lemma FailureMoves(e: Execution, reason: string, at: int)
    ensures AllMoved(e, FailExecution(e, reason, at))
  {
  }

  lemma ConcludeMoves(e: Execution, status: WorkflowStatus, key: string, at: int)
    ensures AllMoved(e, Conclude(e, status, key, at))
  {
  }

  lemma {:induction false} ActivateMoves(e: Execution, key: string, at: int)
    requires Shaped(e) && key in e.nodes
    ensures AllMoved(e, Activate(e, key, at))
    decreases Potential(e), 0, 0
  {
    hide FailExecution, Conclude, Potential, NodeOk, Moved, AllMoved, Entered, Enter, Route;
    var d, n := e.snapshot.nodes[key], e.nodes[key];
    Unmoved(e);
    if d.kind.Join? && !JoinReady(e, key) {
    } else if n.visits >= d.maxVisits {
      FailureMoves(e, "node visit limit exceeded: " + key, at);
    } else if d.kind.Terminal? {
      var e0 := SetNode(e, key, Enter(d, n, at));
      EnteredMoves(e, key, at);
      TerminalNodeConcludes(e, key, at);
      ConcludeMoves(e0, TerminalStatusOf(d), key, at);
      MovedOn(e, e0, Activate(e, key, at));
    } else {
      EnteredMoves(e, key, at);
      EnteredLowers(e, key, at);
      EnteredKeys(e, key, at);
      if d.kind.Task? || d.kind.Approval? {
        SameNodesMoved(e, Entered(e, key, at), Activate(e, key, at));
      } else {
        RouteMoves(Entered(e, key, at), key, Success, at, map[]);
        MovedOn(e, Entered(e, key, at), Activate(e, key, at));
      }
    }
  }

  lemma Unmoved(e: Execution)
    ensures AllMoved(e, e)
  {
  }

  lemma SameNodesMoved(e: Execution, f: Execution, g: Execution)
    requires AllMoved(e, f) && g.nodes == f.nodes
    ensures AllMoved(e, g)
  {
  }

  lemma EnteredKeys(e: Execution, key: string, at: int)
    requires Shaped(e) && key in e.nodes
    ensures Entered(e, key, at).nodes.Keys == e.nodes.Keys && Entered(e, key, at).snapshot == e.snapshot
  {
  }

  lemma {:induction false} RouteMoves(e: Execution, source: string, outcome: Outcome, at: int, output: Artifact)
    requires Shaped(e)
    ensures AllMoved(e, Route(e, source, outcome, at, output))
    decreases Potential(e), 2, 0
  {
    hide FailExecution, Potential, NodeOk, Moved, AllMoved, ActivateAll;
    var edges := RouteEdges(e.snapshot.edges, source, outcome);
    var targets := SelectTargets(edges, output);
    if targets == [] {
      FailureMoves(e, NoEdgeReason(edges, source, outcome), at);
    } else {
      RouteTargetsKnown(e.snapshot, source, outcome, output);
      ActivateAllMoves(e, targets, at);
    }
  }

  lemma {:induction false} ActivateAllMoves(e: Execution, targets: seq<string>, at: int)
    requires Shaped(e) && forall t :: t in targets ==> t in e.nodes
    ensures AllMoved(e, ActivateAll(e, targets, at))
    decreases Potential(e), 1, |targets|
  {
    hide Activate, Potential, NodeOk, Moved, AllMoved;
    Unmoved(e);
    if targets != [] {
      ActivateMoves(e, targets[0], at);
      var e1 := Activate(e, targets[0], at);
      if !IsTerminal(e1) {
        ActivateAllMoves(e1, targets[1..], at);
        MovedOn(e, e1, ActivateAll(e1, targets[1..], at));
      }
    }
  }

  // ---- leases -----------------------------------------------------------------------

  /** The lease of `k` is gone or as it was. */
  predicate LeaseKept(e: Execution, f: Execution, k: string)
    requires k in e.nodes && k in f.nodes
  {
    || f.nodes[k].leaseToken.None?
    || (f.nodes[k].leaseToken == e.nodes[k].leaseToken && f.nodes[k].leaseExpiresAt == e.nodes[k].leaseExpiresAt)
  }

  lemma MovedLease(e: Execution, f: Execution, k: string)
    requires AllMoved(e, f) && k in e.nodes
    ensures k in f.nodes && LeaseKept(e, f, k)
  {
    assert Moved(e.nodes[k], f.nodes[k]);
  }

  /** Only a claim hands out a lease and only a renewal moves its end; finishing an attempt takes it away. */
  lemma CallLeases(e: Execution, op: Operation, at: int, k: string)
    requires Settled(e) && Shaped(e) && Apply(e, op, at).Ok? && k in e.nodes
    ensures var f := Apply(e, op, at).value;
            && k in f.nodes
            && match op
               case Claim(key, _, seconds, token) =>
                 if key == k then
                   f.nodes[k].leaseToken == Some(token) && f.nodes[k].leaseExpiresAt == Some(at + seconds)
                 else LeaseKept(e, f, k)
               case Renew(key, _, seconds) =>
                 if key == k then
                   f.nodes[k].leaseToken == e.nodes[k].leaseToken && f.nodes[k].leaseExpiresAt == Some(at + seconds)
                 else LeaseKept(e, f, k)
               case _ => LeaseKept(e, f, k)
    ensures (op.Complete? || op.FailTask? || op.Expire?) && op.key == k ==>
              Apply(e, op, at).value.nodes[k].leaseToken.None?
  {
    hide Potential, Route, Activate, NodeOk, HandleTaskFailure, CancelActiveNodes;
    hide HasActive, HasStarvedJoin, NothingAborted, AwaitingIsBacked;
    match op {
      case Start =>
        var e1 := Touch(e.(status := WorkflowRunning, startedAt := Some(at)), at);
        PotentialFrame(e, e1);
        ActivateMoves(e1, e.snapshot.entry, at);
        MovedLease(e1, Activate(e1, e.snapshot.entry, at), k);
      case Complete(key, outcome, output, _) => CompleteLeases(e, key, outcome, output, at, k);
      case Resolve(key, approved) => ResolveLeases(e, key, approved, at, k);
      case FailTask(key, reason, _) => FailureLeases(e, key, reason, at, k);
      case Expire(key) => FailureLeases(e, key, "task lease expired", at, k);
      case Cancel => CancelLeases(e, at, k);
      case _ =>
    }
  }

  lemma CancelLeases(e: Execution, at: int, k: string)
    requires k in e.nodes
    ensures k in CancelActiveNodes(e, at).nodes && LeaseKept(e, CancelActiveNodes(e, at), k)
  {
  }

  lemma CompleteLeases(e: Execution, key: string, outcome: Outcome, output: Option<Artifact>, at: int, k: string)
    requires Settled(e) && Shaped(e) && IsRunning(e, key) && k in e.nodes
    ensures var e1 := Touch(SetNode(e, key, CompleteNode(e.nodes[key], outcome, output, at)), at);
            && Shaped(e1)
            && var f := Route(e1, key, outcome, at, ArtifactOf(output));
               k in f.nodes && LeaseKept(e, f, k) && (k == key ==> f.nodes[k].leaseToken.None?)
  {
    hide Potential, Route, NodeOk, HasActive, HasStarvedJoin, NothingAborted, AwaitingIsBacked;
    var e1 := Touch(SetNode(e, key, CompleteNode(e.nodes[key], outcome, output, at)), at);
    CompletedFlows(e, key, outcome, output, at, e1);
    RouteMoves(e1, key, outcome, at, ArtifactOf(output));
    MovedLease(e1, Route(e1, key, outcome, at, ArtifactOf(output)), k);
  }

  lemma ResolveLeases(e: Execution, key: string, approved: bool, at: int, k: string)
    requires Settled(e) && Shaped(e) && ResolveApproval(e, key, approved, at).Ok? && k in e.nodes
    ensures var f := ResolveApproval(e, key, approved, at).value; k in f.nodes && LeaseKept(e, f, k)
  {
    hide Potential, Route, NodeOk, HasActive, HasStarvedJoin, NothingAborted, AwaitingIsBacked;
    var outcome := if approved then Approved else Rejected;
    var e1 := Touch(SetNode(e, key, ResolveNode(e.nodes[key], outcome, at)).(status := WorkflowRunning), at);
    ResolvedFlows(e, key, outcome, at, e1);
    RouteMoves(e1, key, outcome, at, map[]);
    MovedLease(e1, Route(e1, key, outcome, at, map[]), k);
  }

  lemma FailureLeases(e: Execution, key: string, reason: string, at: int, k: string)
    requires Shaped(e) && IsRunning(e, key) && k in e.nodes
    ensures var f := HandleTaskFailure(e, key, reason, at);
            k in f.nodes && LeaseKept(e, f, k) && (k == key ==> f.nodes[k].leaseToken.None?)
  {
    hide NodeOk, WellFormed, FailExecution;
    if e.nodes[key].attempts >= e.snapshot.nodes[key].maxAttempts {
      var n := ClearLease(e.nodes[key]).(status := Failed, completedAt := Some(at), updatedAt := at);
      FailureMoves(SetNode(e, key, n), FailureReason(reason), at);
      MovedLease(SetNode(e, key, n), FailExecution(SetNode(e, key, n), FailureReason(reason), at), k);
    }
  }

  /** The token does not hold `k` at `now` or later. */
  predicate Lost(e: Execution, k: string, token: int, now: int)
  {
    k in e.nodes && e.nodes[k].leaseToken == Some(token) ==>
      e.nodes[k].leaseExpiresAt.None? || e.nodes[k].leaseExpiresAt.value <= now
  }

  predicate HandsOut(op: Operation, k: string, token: int)
  {
    op.Claim? && op.key == k && op.token == token
  }

  lemma LostStays(e: Execution, op: Operation, at: int, k: string, token: int, now: int)
    requires Settled(e) && Shaped(e) && Lost(e, k, token, now) && now <= at && !HandsOut(op, k, token)
    requires Apply(e, op, at).Ok?
    ensures Lost(Apply(e, op, at).value, k, token, at)
  {
    hide Apply, NodeOk, Flowing, Finished, HasActive, HasStarvedJoin;
    var f := Apply(e, op, at).value;
    ApplySettles(e, op, at);
    if k in e.nodes {
      CallLeases(e, op, at, k);
      AcceptedExactly(e, op, at);
    }
  }

  /** The instants of the calls do not run backwards, from `now` to `end`, and no claim hands the token out again. */
  predicate Onward(history: seq<(Operation, int)>, k: string, token: int, now: int, end: int)
    decreases |history|
  {
    if history == [] then now <= end
    else
      && now <= history[0].1 && !HandsOut(history[0].0, k, token)
      && Onward(history[1..], k, token, history[0].1, end)
  }

  lemma {:induction false} ReplayKeepsLost(
    e: Execution, history: seq<(Operation, int)>, k: string, token: int, now: int, end: int)
    requires Settled(e) && Lost(e, k, token, now) && Onward(history, k, token, now, end)
    ensures Lost(Replay(e, history), k, token, end)
    decreases |history|
  {
    hide Apply, Settled;
    if history != [] {
      var op, at := history[0].0, history[0].1;
      assert Shaped(e) by { SettledShaped(e); }
      ApplySettles(e, op, at);
      match Apply(e, op, at) {
        case Ok(f) =>
          LostStays(e, op, at, k, token, now);
          ReplayKeepsLost(f, history[1..], k, token, at, end);
        case Err(_) => ReplayKeepsLost(e, history[1..], k, token, at, end);
      }
    }
  }

  /** A call that shows the token for `k`. */
  predicate Presents(op: Operation, k: string, token: int)
  {
    || (op.Complete? && op.key == k && op.lease == Some(token))
    || (op.FailTask? && op.key == k && op.lease == Some(token))
    || (op.Renew? && op.key == k && op.heldToken == token)
  }

  /**
   A lost lease is worth nothing: after any further calls that do not hand its token out again, completing,
   failing or renewing with it is refused and changes nothing.
   */
  lemma LostLeaseIsDead(
    e: Execution, history: seq<(Operation, int)>, k: string, token: int, now: int, op: Operation, at: int)
    requires Settled(e) && Lost(e, k, token, now) && Onward(history, k, token, now, at) && Presents(op, k, token)
    ensures var f := Replay(e, history); Shaped(f) && Apply(f, op, at).Err? && Replay(f, [(op, at)]) == f
  {
    hide Apply, Settled;
    ReplayKeepsLost(e, history, k, token, now, at);
    var f := Replay(e, history);
    AcceptedExactly(f, op, at);
    assert [(op, at)][1..] == [];
  }

  /** How a lease is lost: it runs out, the attempt is finished, or another claim replaces it. */
  lemma LeasesAreLost(e: Execution, op: Operation, at: int, k: string, token: int)
    requires Settled(e) && Shaped(e) && Apply(e, op, at).Ok? && k in e.nodes
    requires ((op.Complete? || op.FailTask? || op.Expire?) && op.key == k)
             || (op.Claim? && op.key == k && op.token != token)
    ensures Lost(Apply(e, op, at).value, k, token, at)
  {
    hide Apply, NodeOk, Flowing, Finished, HasActive, HasStarvedJoin;
    CallLeases(e, op, at, k);
  }

  /** Who holds a lease, and until when, right after it was handed out or renewed. */
  ghost predicate HeldUntil(e: Execution, k: string, token: int, end: int)
    requires Shaped(e)
  {
    && IsRunning(e, k)
    && (forall lease, at, out ::
          Apply(e, Complete(k, Success, out, lease), at).Ok? <==> lease == Some(token) && at < end)
    && (forall lease, at, reason ::
          Apply(e, FailTask(k, reason, lease), at).Ok? <==> lease == Some(token) && at < end)
    && (forall t, at :: Apply(e, Renew(k, t, 1), at).Ok? <==> t == token && at < end)
    && (forall at :: Apply(e, Expire(k), at).Ok? <==> end <= at)
  }

  /** A claim or a renewal gives the token of the lease, and no other, the node for the whole lease. */
  lemma LeaseLasts(e: Execution, op: Operation, at: int)
    requires Settled(e) && (op.Claim? || op.Renew?) && Apply(e, op, at).Ok?
    ensures var f := Apply(e, op, at).value;
            && Settled(f) && Shaped(f)
            && HeldUntil(f, op.key, if op.Claim? then op.token else op.heldToken, at + op.leaseSeconds)
  {
    hide Apply, NodeOk, Flowing, Finished, HasActive, HasStarvedJoin, HeldUntil;
    SettledShaped(e);
    var f := Apply(e, op, at).value;
    var token := if op.Claim? then op.token else op.heldToken;
    ApplySettles(e, op, at);
    SettledShaped(f);
    AcceptedExactly(e, op, at);
    CallLeases(e, op, at, op.key);
    StillRunning(e, op, at);
    LeaseDecides(f, op.key, token, at + op.leaseSeconds);
  }

  lemma StillRunning(e: Execution, op: Operation, at: int)
    requires Settled(e) && Shaped(e) && (op.Begin? || op.Claim? || op.Renew?) && Apply(e, op, at).Ok?
    ensures IsRunning(Apply(e, op, at).value, op.key)
  {
    hide Potential, NodeOk, HasActive, HasStarvedJoin, NothingAborted, AwaitingIsBacked;
  }

  lemma LeaseDecides(f: Execution, k: string, token: int, end: int)
    requires Settled(f) && Shaped(f) && IsRunning(f, k)
    requires f.nodes[k].leaseToken == Some(token) && f.nodes[k].leaseExpiresAt == Some(end)
    ensures HeldUntil(f, k, token, end)
  {
    hide Apply, Settled, Shaped;
    forall lease, at, out
      ensures Apply(f, Complete(k, Success, out, lease), at).Ok? <==> lease == Some(token) && at < end
    {
      AcceptedExactly(f, Complete(k, Success, out, lease), at);
    }
    forall lease, at, reason
      ensures Apply(f, FailTask(k, reason, lease), at).Ok? <==> lease == Some(token) && at < end
    {
      AcceptedExactly(f, FailTask(k, reason, lease), at);
    }
    forall t, at
      ensures Apply(f, Renew(k, t, 1), at).Ok? <==> t == token && at < end
    {
      AcceptedExactly(f, Renew(k, t, 1), at);
    }
    forall at
      ensures Apply(f, Expire(k), at).Ok? <==> end <= at
    {
      AcceptedExactly(f, Expire(k), at);
    }
  }

  // ---- attempts ---------------------------------------------------------------------

  /** Beginning or claiming a task uses up one attempt, of that task alone. */
  lemma AttemptBegins(e: Execution, op: Operation, at: int)
    requires Settled(e) && Shaped(e) && (op.Begin? || op.Claim?) && Apply(e, op, at).Ok?
    ensures var f := Apply(e, op, at).value;
            && op.key in e.nodes && op.key in f.nodes && f.nodes == e.nodes[op.key := f.nodes[op.key]]
            && f.nodes[op.key].status.Running? && f.nodes[op.key].attempts == e.nodes[op.key].attempts + 1
            && f.nodes[op.key].visits == e.nodes[op.key].visits && f.nodes[op.key].startedAt == Some(at)
            && (op.Begin? ==> f.nodes[op.key].leaseToken.None?)
            && (op.Claim? ==> f.nodes[op.key].worker == Some(op.worker))
  {
    hide Potential, HasActive, HasStarvedJoin, NothingAborted, AwaitingIsBacked;
    assert NodeOk(e.snapshot.nodes[op.key], e.nodes[op.key]);
  }

  /** How often the task may still be begun in this visit. */
  function AttemptsLeft(e: Execution, k: string): int
    requires k in e.nodes && k in e.snapshot.nodes
  {
    e.snapshot.nodes[k].maxAttempts - e.nodes[k].attempts
  }

  /**
   A failed or expired attempt: while attempts are left the task can be begun again and nothing else has changed;
   otherwise the execution fails with the reason that was given, or a standard one for a blank reason.
   */
  lemma AttemptFails(e: Execution, op: Operation, at: int)
    requires Settled(e) && Shaped(e) && (op.FailTask? || op.Expire?) && Apply(e, op, at).Ok?
    ensures op.key in e.nodes && op.key in e.snapshot.nodes
    ensures var f := Apply(e, op, at).value;
            && Settled(f) && Shaped(f) && op.key in f.nodes && f.nodes[op.key].attempts == e.nodes[op.key].attempts
            && (AttemptsLeft(e, op.key) > 0 ==>
                  && f.nodes == e.nodes[op.key := f.nodes[op.key]] && f.status == e.status
                  && forall later :: Apply(f, Begin(op.key), later).Ok?)
            && (AttemptsLeft(e, op.key) == 0 ==>
                  && f.status.WorkflowFailed? && f.nodes[op.key].status.Failed?
                  && f.failureReason ==
                       Some(if op.Expire? then "task lease expired"
                            else if Blank(op.reason) then "task execution failed" else Strip(op.reason)))
  {
    hide Apply, NodeOk, Flowing, Finished, HasActive, HasStarvedJoin, HandleTaskFailure, Strip, Blank;
    AcceptedExactly(e, op, at);
    ApplySettles(e, op, at);
    var reason := if op.FailTask? then op.reason else "task lease expired";
    assert Apply(e, op, at).value == HandleTaskFailure(e, op.key, reason, at) by { AttemptIsHandled(e, op, at); }
    var f := Apply(e, op, at).value;
    SettledShaped(f);
    FailureLeaves(e, op.key, reason, at);
    ExpiryReason();
    if AttemptsLeft(e, op.key) > 0 {
      forall later
        ensures Apply(f, Begin(op.key), later).Ok?
      {
        AcceptedExactly(f, Begin(op.key), later);
      }
    }
  }

  lemma AttemptIsHandled(e: Execution, op: Operation, at: int)
    requires Shaped(e) && (op.FailTask? || op.Expire?) && Apply(e, op, at).Ok?
    ensures var reason := if op.FailTask? then op.reason else "task lease expired";
            op.key in e.nodes && Apply(e, op, at).value == HandleTaskFailure(e, op.key, reason, at)
  {
    hide HandleTaskFailure, NodeOk, WellFormed;
  }

  lemma ExpiryReason()
    ensures Strip("task lease expired") == "task lease expired" && !Blank("task lease expired")
  {
    var s := "task lease expired";
    assert !IsSpace(s[0]) && !IsSpace(s[|s| - 1]);
    assert StripLeft(s) == s && StripRight(s) == s;
  }

  lemma FailureLeaves(e: Execution, key: string, reason: string, at: int)
    requires Shaped(e) && IsRunning(e, key)
    ensures key in e.snapshot.nodes && e.snapshot.nodes[key].kind.Task?
    ensures var f := HandleTaskFailure(e, key, reason, at);
            && f.snapshot == e.snapshot && key in f.nodes && f.nodes[key].attempts == e.nodes[key].attempts
            && (AttemptsLeft(e, key) > 0 ==>
                  f.nodes == e.nodes[key := f.nodes[key]] && f.status == e.status && f.nodes[key].status.Ready?)
            && (AttemptsLeft(e, key) == 0 ==>
                  && f.status.WorkflowFailed? && f.nodes[key].status.Failed?
                  && f.failureReason == Some(if Blank(reason) then "task execution failed" else Strip(reason)))
  {
    hide WellFormed, Strip, Blank;
    assert NodeOk(e.snapshot.nodes[key], e.nodes[key]);
    StripFacts(reason);
  }

  /** A completed task keeps its outcome and its output, unless it was entered again within the same call. */
  lemma CompletionIsRecorded(e: Execution, op: Operation, at: int)
    requires Settled(e) && Shaped(e) && op.Complete? && Apply(e, op, at).Ok?
    ensures var f := Apply(e, op, at).value;
            && op.key in e.nodes && op.key in f.nodes
            && (f.nodes[op.key].visits == e.nodes[op.key].visits ==>
                  && f.nodes[op.key].status.Succeeded? && f.nodes[op.key].outcome == Some(op.outcome)
                  && f.nodes[op.key].output == op.output && f.nodes[op.key].completedAt == Some(at))
  {
    hide Potential, Route, NodeOk, HasActive, HasStarvedJoin, NothingAborted, AwaitingIsBacked;
    var e1 := Touch(SetNode(e, op.key, CompleteNode(e.nodes[op.key], op.outcome, op.output, at)), at);
    CompletedFlows(e, op.key, op.outcome, op.output, at, e1);
    RouteMoves(e1, op.key, op.outcome, at, ArtifactOf(op.output));
    var f := Route(e1, op.key, op.outcome, at, ArtifactOf(op.output));
    assert Moved(e1.nodes[op.key], f.nodes[op.key]);
  }

  /** A resolved approval keeps the decision, unless it was entered again within the same call. */
  lemma DecisionIsRecorded(e: Execution, op: Operation, at: int)
    requires Settled(e) && Shaped(e) && op.Resolve? && Apply(e, op, at).Ok?
    ensures var f := Apply(e, op, at).value;
            && op.key in e.nodes && op.key in f.nodes
            && (f.nodes[op.key].visits == e.nodes[op.key].visits ==>
                  && f.nodes[op.key].status.Succeeded? && f.nodes[op.key].completedAt == Some(at)
                  && f.nodes[op.key].outcome == Some(if op.approved then Approved else Rejected))
  {
    hide Potential, Route, NodeOk, HasActive, HasStarvedJoin, NothingAborted, AwaitingIsBacked;
    var outcome := if op.approved then Approved else Rejected;
    var e1 := Touch(SetNode(e, op.key, ResolveNode(e.nodes[op.key], outcome, at)).(status := WorkflowRunning), at);
    ResolvedFlows(e, op.key, outcome, at, e1);
    RouteMoves(e1, op.key, outcome, at, map[]);
    assert Moved(e1.nodes[op.key], Route(e1, op.key, outcome, at, map[]).nodes[op.key]);
  }

  // ---- versions ---------------------------------------------------------------------

  /** The version only grows, a grown version has the time of the call, and so has the end; the start is kept. */
  predicate Stamped(e: Execution, f: Execution, at: int)
  {
    && e.version <= f.version && f.startedAt == e.startedAt
    && (f.completedAt == e.completedAt || f.completedAt == Some(at))
    && f.updatedAt == if e.version == f.version then e.updatedAt else at
  }

  lemma {:induction false} ActivateStamps(e: Execution, key: string, at: int)
    requires Shaped(e) && key in e.nodes
    ensures Stamped(e, Activate(e, key, at), at)
    decreases Potential(e), 0, 0
  {
    hide Potential, NodeOk, Route, CancelNode, Enter;
    var d := e.snapshot.nodes[key];
    if (d.kind.Fork? || (d.kind.Join? && JoinReady(e, key))) && e.nodes[key].visits < d.maxVisits {
      EnteredLowers(e, key, at);
      RouteStamps(Entered(e, key, at), key, Success, at, map[]);
    }
  }

  lemma {:induction false} RouteStamps(e: Execution, source: string, outcome: Outcome, at: int, output: Artifact)
    requires Shaped(e)
    ensures Stamped(e, Route(e, source, outcome, at, output), at)
    decreases Potential(e), 2, 0
  {
    hide Potential, NodeOk, ActivateAll, CancelNode;
    var targets := SelectTargets(RouteEdges(e.snapshot.edges, source, outcome), output);
    if targets != [] {
      RouteTargetsKnown(e.snapshot, source, outcome, output);
      ActivateAllStamps(e, targets, at);
    }
  }

  lemma {:induction false} ActivateAllStamps(e: Execution, targets: seq<string>, at: int)
    requires Shaped(e) && forall t :: t in targets ==> t in e.nodes
    ensures Stamped(e, ActivateAll(e, targets, at), at)
    decreases Potential(e), 1, |targets|
  {
    hide Activate, Potential, NodeOk;
    if targets != [] {
      ActivateStamps(e, targets[0], at);
      var e1 := Activate(e, targets[0], at);
      if !IsTerminal(e1) {
        ActivateAllStamps(e1, targets[1..], at);
      }
    }
  }

  lemma EndedAfter(e: Execution, op: Operation, at: int)
    requires Settled(e) && Shaped(e) && Apply(e, op, at).Ok?
    ensures e.completedAt.None? && (IsTerminal(Apply(e, op, at).value) ==> Apply(e, op, at).value.completedAt.Some?)
  {
    hide Apply, Shaped, HasActive, HasStarvedJoin, NothingAborted, AwaitingIsBacked;
    ApplySettles(e, op, at);
  }

  /**
   Every accepted call raises the version and leaves its time, also as that of the start or the end; the definition
   never changes.
   */
  lemma CallStamps(e: Execution, op: Operation, at: int)
    requires Settled(e) && Shaped(e) && Apply(e, op, at).Ok?
    ensures var f := Apply(e, op, at).value;
            && f.version > e.version && f.updatedAt == at && f.snapshot == e.snapshot
            && f.startedAt == (if op.Start? then Some(at) else e.startedAt)
            && (IsTerminal(f) ==> f.completedAt == Some(at))
  {
    hide Potential, NodeOk, Route, Activate, CancelNode;
    EndedAfter(e, op, at);
    hide HasActive, HasStarvedJoin, NothingAborted, AwaitingIsBacked;
    match op {
      case Start =>
        var e1 := Touch(e.(status := WorkflowRunning, startedAt := Some(at)), at);
        PotentialFrame(e, e1);
        ActivateStamps(e1, e.snapshot.entry, at);
      case Complete(key, outcome, output, _) =>
        var e1 := Touch(SetNode(e, key, CompleteNode(e.nodes[key], outcome, output, at)), at);
        CompletedFlows(e, key, outcome, output, at, e1);
        RouteStamps(e1, key, outcome, at, ArtifactOf(output));
      case Resolve(key, approved) =>
        var outcome := if approved then Approved else Rejected;
        var e1 := Touch(SetNode(e, key, ResolveNode(e.nodes[key], outcome, at)).(status := WorkflowRunning), at);
        ResolvedFlows(e, key, outcome, at, e1);
        RouteStamps(e1, key, outcome, at, map[]);
      case _ =>
    }
  }
}
