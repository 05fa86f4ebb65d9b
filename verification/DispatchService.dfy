/** Dispatch as it runs: a receipt object completed in place, inside a transaction over the tables. */
module DispatchService {
  import opened Wrappers
  import opened Text
  import opened Addons
  import opened RequestDispatch

  class RequestDispatchReceipt {
    const key: Key
    const payload: Payload
    var requestId: Option<int>
    var runId: Option<int>
    var executionId: Option<int>
    var completedAt: Option<int>

    predicate IsComplete()
      reads this
    {
      requestId.Some? && runId.Some? && executionId.Some?
    }

    /** Result identifiers are all there or all missing, and only complete receipts have a completion time. */
    ghost predicate Valid()
      reads this
    {
      && (requestId.Some? <==> runId.Some?) && (runId.Some? <==> executionId.Some?)
      && (completedAt.Some? ==> IsComplete())
    }

    /** The row that is stored for the receipt. */
    function Row(): Receipt
      reads this
    {
      Receipt(payload, if IsComplete() then Some(Ids(requestId.value, runId.value, executionId.value)) else None)
    }

    constructor (key: Key, payload: Payload)
      ensures Valid() && !IsComplete() && this.key == key && this.payload == payload
    {
      this.key, this.payload := key, payload;
      requestId, runId, executionId, completedAt := None, None, None, None;
    }

    /** A receipt is completed once; a second attempt is refused and changes nothing. */
    method Complete(ids: Ids, at: int) returns (ok: bool)
      requires Valid()
      modifies this
      ensures Valid() && IsComplete()
      ensures ok == !old(IsComplete())
      ensures ok ==> Row() == Receipt(payload, Some(ids)) && completedAt == Some(at)
      ensures !ok ==> Row() == old(Row()) && completedAt == old(completedAt)
    {
      if IsComplete() {
        return false;
      }
      requestId, runId, executionId, completedAt := Some(ids.request), Some(ids.run), Some(ids.execution), Some(at);
      return true;
    }
  }

  /** Building a receipt checks its ingress key and its idempotency key. */
  method OpenReceipt(project: int, ingress: string, idempotency: string, payload: Payload)
    returns (r: Result<RequestDispatchReceipt, DispatchError>)
    ensures match r
            case Ok(receipt) =>
              && fresh(receipt) && receipt.Valid() && !receipt.IsComplete()
              && receipt.key == Key(project, Strip(ingress), Strip(idempotency)) && receipt.payload == payload
              && ValidIngress(Strip(ingress)) && 1 <= |Strip(idempotency)| <= 128
            case Err(x) => x == if !ValidIngress(Strip(ingress)) then InvalidIngress else InvalidIdempotencyKey
    ensures r.Err? ==> !ValidIngress(Strip(ingress)) || !(1 <= |Strip(idempotency)| <= 128)
  {
    hide Strip;
    if !ValidIngress(Strip(ingress)) {
      return Err(InvalidIngress);
    }
    if Strip(idempotency) == [] || |Strip(idempotency)| > 128 {
      return Err(InvalidIdempotencyKey);
    }
    var receipt := new RequestDispatchReceipt(Key(project, Strip(ingress), Strip(idempotency)), payload);
    return Ok(receipt);
  }

  class DispatchTables {
    var active: map<int, bool>
    var receipts: map<Key, Receipt>
    var requests: map<int, RequestRow>
    var runs: map<int, RunRow>
    var executions: map<int, ExecutionRow>
    var definitions: map<Version, Definition>
    var skills: set<SkillReference>
    var bindings: map<int, Binding>
    var recommendations: map<int, Recommendation>

    function State(): Store
      reads this
    {
      Store(active, receipts, requests, runs, executions, definitions, skills, bindings, recommendations)
    }

    /** Every registered definition has distinct node keys. */
    ghost predicate Valid()
      reads this
    {
      forall v :: v in definitions ==> UniqueNodes(definitions[v].nodes)
    }

    /** Insert unless the key is taken. */
    method TryClaim(receipt: RequestDispatchReceipt) returns (claimed: bool)
      modifies this`receipts
      ensures claimed == (receipt.key !in old(receipts))
      ensures receipts == if claimed then old(receipts)[receipt.key := receipt.Row()] else old(receipts)
    {
      claimed := receipt.key !in receipts;
      if claimed {
        receipts := receipts[receipt.key := receipt.Row()];
      }
    }

    /** The part of the transaction that follows a successful claim; the caller rolls back on an error. */
    method CreateRows(c: Command, p: Payload, f: Fresh, receipt: RequestDispatchReceipt)
      returns (r: Result<Dispatched, DispatchError>)
      requires Valid() && c.project in active && PayloadOf(c) == Ok(p)
      requires receipt.Valid() && !receipt.IsComplete() && receipt.key == KeyOf(c) && receipt.payload == p
      modifies this`receipts, this`requests, this`runs, this`executions, receipt
      ensures Valid()
      ensures r.Ok? ==> r.value == Dispatched(f.ids, false) && Create(old(State()), c, p, f) == Ok(State())
      ensures r.Err? ==> Create(old(State()), c, p, f) == Err(r.error)
      ensures r.Err? ==> State() == old(State())
    {
      hide Select, UniqueNodes, ApplyAddons, Acceptable, Normalize, Strip;
      if !active[c.project] {
        return Err(ProjectNotActive);
      }
      var selected := Select(State(), p, c.project);
      if selected.Err? {
        return Err(selected.error);
      }
      SelectedIsRegistered(State(), p, c.project);
      NormalizedForApply(c.addons);
      var nodes := ApplySkillAddons(selected.value.nodes, skills, p.addons);
      if nodes.Err? {
        return Err(BadAddons(nodes.error));
      }
      if !selected.value.compatible {
        return Err(Incompatible);
      }
      if p.prompt == [] {
        return Err(EmptyPrompt);
      }
      if f.starts.None? {
        return Err(ExecutionNotCreated);
      }
      requests := requests[f.ids.request := RequestRow(c.project, p.prompt, p.title, f.starts.value)];
      runs := runs[f.ids.run := RunRow(f.ids.request, f.starts.value)];
      executions := executions[f.ids.execution := ExecutionRow(f.ids.run, nodes.value, f.starts.value)];
      var done := receipt.Complete(f.ids, f.starts.value);
      receipts := receipts[receipt.key := receipt.Row()];
      return Ok(Dispatched(f.ids, false));
    }

    /** `dispatch`: exactly the transaction the specification describes. */
    method DispatchRequest(c: Command, f: Fresh) returns (r: Result<Dispatched, DispatchError>)
      requires Valid()
      modifies this`receipts, this`requests, this`runs, this`executions
      ensures Valid()
      ensures Outcome(State(), r) == Dispatch(old(State()), c, f)
    {
      hide Valid, Create, Normalize, Strip, ValidIngress;
      var key := StripOptional(c.definitionKey);
      if key.None? != c.definitionVersion.None? {
        return Err(IncompleteOverride);
      }
      var addons := NormalizeSkillAddons(c.addons);
      if addons.Err? {
        return Err(BadAddons(addons.error));
      }
      if c.project !in active {
        return Err(ProjectNotFound);
      }
      var prompt, title := Strip(c.prompt), StripOptional(c.title);
      var p := Payload(prompt, title, c.origin, OverrideOf(c), addons.value, c.recommendation);
      assert PayloadOf(c) == Ok(p);
      var receipt := OpenReceipt(c.project, c.origin.ingressKey, c.idempotencyKey, p);
      if receipt.Err? {
        return Err(receipt.error);
      }
      r := ClaimOrReplay(c, p, f, receipt.value);
    }

    method ClaimOrReplay(c: Command, p: Payload, f: Fresh, receipt: RequestDispatchReceipt)
      returns (r: Result<Dispatched, DispatchError>)
      requires Valid() && c.project in active && PayloadOf(c) == Ok(p)
      requires receipt.Valid() && !receipt.IsComplete() && receipt.key == KeyOf(c) && receipt.payload == p
      modifies this`receipts, this`requests, this`runs, this`executions, receipt
      ensures Valid()
      ensures KeyOf(c) in old(receipts) ==>
                && State() == old(State())
                && var stored := old(receipts)[KeyOf(c)];
                   r == if stored.payload != p then Err(DifferentPayload) else Replay(old(State()), stored)
      ensures KeyOf(c) !in old(receipts) ==>
                match Create(old(State()), c, p, f)
                case Ok(t) => State() == t && r == Ok(Dispatched(f.ids, false))
                case Err(x) => State() == old(State()) && r == Err(x)
    {
      hide PayloadOf, UniqueNodes, KeyOf, Create;
      var before := receipts;
      var claimed := TryClaim(receipt);
      if !claimed {
        var existing := receipts[receipt.key];
        if existing.payload != p {
          return Err(DifferentPayload);
        }
        return Replay(State(), existing);
      }
      r := CreateOrUndo(c, p, f, receipt, before);
    }

    /** When anything fails after the claim, the claim is rolled back with the rest. */
    method CreateOrUndo(c: Command, p: Payload, f: Fresh, receipt: RequestDispatchReceipt, before: map<Key, Receipt>)
      returns (r: Result<Dispatched, DispatchError>)
      requires Valid() && c.project in active && PayloadOf(c) == Ok(p)
      requires receipt.Valid() && !receipt.IsComplete() && receipt.key == KeyOf(c) && receipt.payload == p
      requires receipts == before[KeyOf(c) := receipt.Row()]
      modifies this`receipts, this`requests, this`runs, this`executions, receipt
      ensures Valid()
      ensures match Create(old(State()).(receipts := before), c, p, f)
              case Ok(t) => State() == t && r == Ok(Dispatched(f.ids, false))
              case Err(x) => State() == old(State()).(receipts := before) && r == Err(x)
    {
      hide PayloadOf, UniqueNodes, KeyOf, Create;
      ClaimIsInvisible(State().(receipts := before), receipt.Row(), c, p, f);
      assert State() == State().(receipts := before).(receipts := before[KeyOf(c) := receipt.Row()]);
      r := CreateRows(c, p, f, receipt);
      if r.Err? {
        receipts := before;
      }
    }
  }

  lemma SelectedIsRegistered(s: Store, p: Payload, project: int)
    requires Select(s, p, project).Ok?
    ensures exists v :: v in s.definitions && s.definitions[v] == Select(s, p, project).value
  {
  }

  /** The uncommitted claim of the own key plays no part in what is created. */
  lemma ClaimIsInvisible(s: Store, claim: Receipt, c: Command, p: Payload, f: Fresh)
    requires c.project in s.active
    ensures Create(s.(receipts := s.receipts[KeyOf(c) := claim]), c, p, f) == Create(s, c, p, f)
  {
    var t := s.(receipts := s.receipts[KeyOf(c) := claim]);
    assert Select(t, p, c.project) == Select(s, p, c.project);
    if f.starts.Some? {
      forall nodes
        ensures Commit(t, KeyOf(c), p, f, nodes) == Commit(s, KeyOf(c), p, f, nodes)
      {
      }
    }
  }
}
