/**
 The per-visit idempotency key `execution:node:visit` of a task claim, and what it is for: a
 visit is charged at most once.
 */
module TaskKeys {
  import opened Budget
  import opened BudgetSafety
  import opened BudgetRuns
  import opened DecimalText

  function TaskKey(executionId: string, nodeKey: string, visit: nat): string
  {
    executionId + ":" + nodeKey + ":" + Decimal(visit)
  }

  /** When the cuts differ, the longer head and the longer tail both contain a colon. */
  lemma ColonInside(a: string, b: string, c: string, d: string)
    requires a + ":" + b == c + ":" + d && |a| < |c|
    ensures ':' in c && ':' in b
  {
    var s, t := a + ":" + b, c + ":" + d;
    assert s[|a|] == ':' && t[|a|] == c[|a|];
    assert t[|c|] == ':' && s[|c|] == b[|c| - |a| - 1];
  }

  /** Cutting is unambiguous at the first colon, when the head has none, and at the last, when the tail has none. */
  lemma OneCut(a: string, b: string, c: string, d: string)
    requires a + ":" + b == c + ":" + d
    requires (':' !in a && ':' !in c) || (':' !in b && ':' !in d)
    ensures a == c && b == d
  {
    if |a| < |c| {
      ColonInside(a, b, c, d);
      assert false;
    } else if |c| < |a| {
      ColonInside(c, d, a, b);
      assert false;
    } else {
      var s := a + ":" + b;
      assert a == s[..|a|] == c;
      assert b == s[|a| + 1..] == d;
    }
  }

  /** Different visits have different keys, even when node keys contain colons. */
  lemma TaskKeyInjective(e: string, n: string, v: nat, e': string, n': string, v': nat)
    requires ':' !in e && ':' !in e'
    requires TaskKey(e, n, v) == TaskKey(e', n', v')
    ensures e == e' && n == n' && v == v'
  {
    DecimalDigits(v);
    DecimalDigits(v');
    DigitsOnly(Decimal(v), ':');
    DigitsOnly(Decimal(v'), ':');
    OneCut(e + ":" + n, Decimal(v), e' + ":" + n', Decimal(v'));
    OneCut(e, n, e', n');
    DecimalInjective(v, v');
  }

  // ---- charges of a visit -----------------------------------------------------------

  /** How the identifiers of executions are written in keys: UUIDs, so different and without colons. */
  ghost predicate Names(name: int -> string)
  {
    (forall e :: ':' !in name(e)) && (forall e, e' :: name(e) == name(e') ==> e == e')
  }

  /** Claims carry the key of the visit they are for. */
  ghost predicate KeyedStep(s: Step, name: int -> string)
  {
    s.DoReserve? ==> exists v: nat :: s.claim.idempotencyKey == TaskKey(name(s.claim.executionId), s.claim.nodeKey, v)
  }

  ghost predicate KeyedSteps(steps: seq<Step>, name: int -> string)
  {
    forall i :: 0 <= i < |steps| ==> KeyedStep(steps[i], name)
  }

  /** Every reservation is filed under the key of a visit of its own execution and node. */
  ghost predicate Keyed(l: Ledger, name: int -> string)
  {
    forall k :: k in l.reservations ==>
      exists v: nat :: k == TaskKey(name(l.reservations[k].executionId), l.reservations[k].nodeKey, v)
  }

  /** New rows come from reserving, for the execution and node of the claim. */
  lemma NewRows(l: Ledger, s: Step, k: string)
    requires Consistent(l) && Legal(l, s) && k in Next(l, s).reservations && k !in l.reservations
    ensures s.DoReserve? && k == s.claim.idempotencyKey
    ensures var r := Next(l, s).reservations[k];
            r.executionId == s.claim.executionId && r.nodeKey == s.claim.nodeKey
  {
    hide RowOk, Balanced, IdsDistinct, UsageOwned;
    if s.DoRelease? {
      hide ReleaseRun, Consistent;
      ReleaseRunKeeps(l, s.run, s.keys);
    }
  }

  lemma NextKeyed(l: Ledger, s: Step, name: int -> string)
    requires Consistent(l) && Legal(l, s) && Keyed(l, name) && KeyedStep(s, name)
    ensures Keyed(Next(l, s), name)
  {
    hide Consistent, Next, TaskKey;
    NextHistory(l, s);
    var m := Next(l, s);
    forall k | k in m.reservations
      ensures exists v: nat :: k == TaskKey(name(m.reservations[k].executionId), m.reservations[k].nodeKey, v)
    {
      if k !in l.reservations {
        NewRows(l, s, k);
      }
    }
  }

  lemma {:induction false} RunKeyed(l: Ledger, steps: seq<Step>, name: int -> string)
    requires Consistent(l) && LegalRun(l, steps) && Keyed(l, name) && KeyedSteps(steps, name)
    ensures Keyed(After(l, steps), name)
    decreases |steps|
  {
    hide Consistent, Next, Keyed, KeyedStep;
    if steps != [] {
      assert KeyedStep(steps[0], name);
      NextKeeps(l, steps[0]);
      NextKeyed(l, steps[0], name);
      assert forall i :: 0 <= i < |steps[1..]| ==> steps[1..][i] == steps[i + 1];
      RunKeyed(Next(l, steps[0]), steps[1..], name);
    }
  }

  /** The usage record `id` charges a visit. */
  ghost predicate Charges(l: Ledger, name: int -> string, id: int, v: nat)
    requires id in l.usage
  {
    var key := TaskKey(name(l.usage[id].executionId), l.usage[id].nodeKey, v);
    key in l.reservations && l.reservations[key].id == id
  }

  /** In a consistent, keyed ledger every usage record charges exactly one visit of its execution and node. */
  lemma RecordChargesOneVisit(l: Ledger, name: int -> string, id: int) returns (v: nat)
    requires Names(name) && Consistent(l) && Keyed(l, name) && id in l.usage
    ensures forall w: nat :: Charges(l, name, id, w) <==> w == v
  {
    hide Balanced, TaskKey;
    var k :| k in l.reservations && l.reservations[k].id == id;
    assert RowOk(l, l.reservations[k]);
    v :| k == TaskKey(name(l.reservations[k].executionId), l.reservations[k].nodeKey, v);
    forall w: nat | Charges(l, name, id, w)
      ensures w == v
    {
      var e, n := name(l.usage[id].executionId), l.usage[id].nodeKey;
      assert TaskKey(e, n, w) == k;
      TaskKeyInjective(e, n, w, e, n, v);
    }
  }

  predicate SameNode(u: Usage, u': Usage)
  {
    u.executionId == u'.executionId && u.nodeKey == u'.nodeKey
  }

  /** Two records that charge the same visit are the same. */
  lemma VisitHasOneRecord(l: Ledger, name: int -> string, id: int, id': int, v: nat)
    requires id in l.usage && id' in l.usage && Charges(l, name, id, v) && Charges(l, name, id', v)
    requires SameNode(l.usage[id], l.usage[id'])
    ensures id == id'
  {
  }

  /**
   Over every run whose claims carry the keys of their visits: each usage record charges exactly one visit of
   its execution and node, no visit has two records, and once a visit is charged the charge stays the same
   whatever is settled, forfeited or retried later.
   */
  lemma VisitChargedOnce(steps: seq<Step>, more: seq<Step>, name: int -> string, id: int) returns (v: nat)
    requires Names(name) && LegalRun(EMPTY_LEDGER, steps) && LegalRun(After(EMPTY_LEDGER, steps), more)
    requires KeyedSteps(steps, name) && KeyedSteps(more, name)
    requires id in After(EMPTY_LEDGER, steps).usage
    ensures var l, m := After(EMPTY_LEDGER, steps), After(After(EMPTY_LEDGER, steps), more);
            && id in m.usage && m.usage[id] == l.usage[id]
            && (forall w: nat :: Charges(m, name, id, w) <==> w == v)
            && (forall id' :: id' in m.usage && SameNode(m.usage[id'], l.usage[id]) && Charges(m, name, id', v) ==>
                  id' == id)
  {
    hide Consistent, Keyed, Next;
    RunKeeps(EMPTY_LEDGER, steps);
    NothingKeyed(name);
    RunKeyed(EMPTY_LEDGER, steps, name);
    var l := After(EMPTY_LEDGER, steps);
    RunKeeps(l, more);
    RunKeyed(l, more, name);
    RunHistory(l, more);
    var m := After(l, more);
    v := RecordChargesOneVisit(m, name, id);
    assert Charges(m, name, id, v);
    forall id' | id' in m.usage && SameNode(m.usage[id'], l.usage[id]) && Charges(m, name, id', v)
      ensures id' == id
    {
      VisitHasOneRecord(m, name, id, id', v);
    }
  }

  lemma NothingKeyed(name: int -> string)
    ensures Consistent(EMPTY_LEDGER) && Keyed(EMPTY_LEDGER, name)
  {
  }
}
