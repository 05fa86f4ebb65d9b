/** Fan-out of a project event to delivery intents, at most one for each subscription and event. */
module NotificationFanout {
  import opened Wrappers
  import opened TaskKeys

  datatype Subscription = Subscription(
    id: string,
    project: int,
    enabled: bool,
    eventTypes: set<string>,
    provider: string,
    destination: string)

  datatype SourceEvent = SourceEvent(id: string, project: int, eventType: string, alert: Option<int>)

  datatype Intent = Intent(
    subscription: string,
    project: int,
    event: string,
    alert: int,
    provider: string,
    destination: string)

  datatype FanoutError = AlertRequired

  /** Identifiers are UUIDs; what matters is that they contain no colon. */
  predicate IsIdentifier(id: string)
  {
    ':' !in id
  }

  predicate Accepts(s: Subscription, eventType: string)
  {
    s.enabled && eventType in s.eventTypes
  }

  function IntentKey(subscription: string, event: string): string
  {
    "notification" + ":" + (subscription + ":" + event)
  }

  /** No two pairs of a subscription and an event share a key. */
  lemma IntentKeyInjective(s: string, e: string, s': string, e': string)
    requires IsIdentifier(s) && IsIdentifier(s') && IntentKey(s, e) == IntentKey(s', e')
    ensures s == s' && e == e'
  {
    var prefix := "notification" + ":";
    assert IntentKey(s, e)[|prefix|..] == s + ":" + e && IntentKey(s', e')[|prefix|..] == s' + ":" + e';
    OneCut(s, e, s', e');
  }

  function IntentFor(s: Subscription, e: SourceEvent): Intent
    requires e.alert.Some?
  {
    Intent(s.id, e.project, e.id, e.alert.value, s.provider, s.destination)
  }

  /** Among the first `n` subscriptions there is one for the key that accepts the event. */
  ghost predicate Called(subscriptions: seq<Subscription>, n: nat, e: SourceEvent, key: string)
    requires n <= |subscriptions|
  {
    exists i :: 0 <= i < n && Accepts(subscriptions[i], e.eventType) && IntentKey(subscriptions[i].id, e.id) == key
  }

  predicate Missing(rows: map<string, Intent>, s: Subscription, e: SourceEvent)
  {
    Accepts(s, e.eventType) && IntentKey(s.id, e.id) !in rows
  }

  /** `after` is `before` with exactly the missing intents of the first `n` subscriptions. */
  ghost predicate FannedOut(
    before: map<string, Intent>, after: map<string, Intent>, subscriptions: seq<Subscription>, n: nat, e: SourceEvent)
    requires n <= |subscriptions| && e.alert.Some?
  {
    && (forall k :: k in after <==> k in before || Called(subscriptions, n, e, k))
    && (forall k :: k in before ==> after[k] == before[k])
    && (forall i :: 0 <= i < n && Missing(before, subscriptions[i], e) ==>
          after[IntentKey(subscriptions[i].id, e.id)] == IntentFor(subscriptions[i], e))
  }

  ghost predicate UniqueSubscriptions(subscriptions: seq<Subscription>)
  {
    && (forall i :: 0 <= i < |subscriptions| ==> IsIdentifier(subscriptions[i].id))
    && (forall i, j :: 0 <= i < j < |subscriptions| ==> subscriptions[i].id != subscriptions[j].id)
  }

  /** Fanning the same event out again changes nothing, also when subscriptions were disabled in between. */
  lemma FanOutOnce(before: map<string, Intent>, after: map<string, Intent>, again: map<string, Intent>,
                   subscriptions: seq<Subscription>, fewer: seq<Subscription>, e: SourceEvent)
    requires e.alert.Some? && FannedOut(before, after, subscriptions, |subscriptions|, e)
    requires forall i :: 0 <= i < |fewer| ==> fewer[i] in subscriptions
    requires FannedOut(after, again, fewer, |fewer|, e)
    ensures again == after
  {
    forall k | Called(fewer, |fewer|, e, k)
      ensures k in after
    {
      var i :| 0 <= i < |fewer| && Accepts(fewer[i], e.eventType) && IntentKey(fewer[i].id, e.id) == k;
      var j :| 0 <= j < |subscriptions| && subscriptions[j] == fewer[i];
      assert Called(subscriptions, |subscriptions|, e, k);
    }
  }

  /** What a fan-out leaves: for every subscription that is enabled for the event type one row, with its destination. */
  lemma FannedOutExactly(
    before: map<string, Intent>, after: map<string, Intent>, subscriptions: seq<Subscription>, e: SourceEvent, i: nat)
    requires UniqueSubscriptions(subscriptions) && e.alert.Some? && i < |subscriptions|
    requires FannedOut(before, after, subscriptions, |subscriptions|, e)
    ensures var s, key := subscriptions[i], "notification:" + subscriptions[i].id + ":" + e.id;
            && (key in after <==> key in before || (s.enabled && e.eventType in s.eventTypes))
            && (key in before ==> after[key] == before[key])
            && (key in after && key !in before ==>
                  after[key] == Intent(s.id, e.project, e.id, e.alert.value, s.provider, s.destination))
  {
    var s, key := subscriptions[i], IntentKey(subscriptions[i].id, e.id);
    assert "notification" + ":" == "notification:";
    assert key == "notification:" + s.id + ":" + e.id;
    assert Called(subscriptions, |subscriptions|, e, key) <==> Accepts(s, e.eventType) by {
      if Called(subscriptions, |subscriptions|, e, key) {
        var j :| 0 <= j < |subscriptions| && Accepts(subscriptions[j], e.eventType)
                 && IntentKey(subscriptions[j].id, e.id) == key;
        IntentKeyInjective(subscriptions[j].id, e.id, s.id, e.id);
      }
    }
  }

  lemma CalledNext(subscriptions: seq<Subscription>, n: nat, e: SourceEvent, key: string)
    requires n < |subscriptions|
    ensures Called(subscriptions, n + 1, e, key) <==>
              || Called(subscriptions, n, e, key)
              || (Accepts(subscriptions[n], e.eventType) && IntentKey(subscriptions[n].id, e.id) == key)
  {
    hide IntentKey, Accepts;
    if Called(subscriptions, n, e, key) {
      var i :| 0 <= i < n && Accepts(subscriptions[i], e.eventType) && IntentKey(subscriptions[i].id, e.id) == key;
      assert 0 <= i < n + 1;
    }
  }

  lemma OtherKeys(subscriptions: seq<Subscription>, n: nat, e: SourceEvent)
    requires UniqueSubscriptions(subscriptions) && n < |subscriptions|
    ensures forall i :: 0 <= i < n ==> IntentKey(subscriptions[i].id, e.id) != IntentKey(subscriptions[n].id, e.id)
  {
    hide IntentKey, IsIdentifier;
    forall i | 0 <= i < n
      ensures IntentKey(subscriptions[i].id, e.id) != IntentKey(subscriptions[n].id, e.id)
    {
      if IntentKey(subscriptions[i].id, e.id) == IntentKey(subscriptions[n].id, e.id) {
        IntentKeyInjective(subscriptions[i].id, e.id, subscriptions[n].id, e.id);
      }
    }
  }

  function AddIntent(rows: map<string, Intent>, s: Subscription, e: SourceEvent): map<string, Intent>
    requires e.alert.Some?
  {
    if Missing(rows, s, e) then rows[IntentKey(s.id, e.id) := IntentFor(s, e)] else rows
  }

  lemma FanOutNone(before: map<string, Intent>, subscriptions: seq<Subscription>, e: SourceEvent)
    requires e.alert.Some?
    ensures FannedOut(before, before, subscriptions, 0, e)
  {
  }

  lemma FanOutNext(
    before: map<string, Intent>, now: map<string, Intent>, subscriptions: seq<Subscription>, n: nat, e: SourceEvent)
    requires UniqueSubscriptions(subscriptions) && n < |subscriptions| && e.alert.Some?
    requires FannedOut(before, now, subscriptions, n, e)
    ensures FannedOut(before, AddIntent(now, subscriptions[n], e), subscriptions, n + 1, e)
  {
    hide IntentKey, Accepts, UniqueSubscriptions;
    OtherKeys(subscriptions, n, e);
    var next := AddIntent(now, subscriptions[n], e);
    forall k
      ensures k in next <==> k in before || Called(subscriptions, n + 1, e, k)
    {
      CalledNext(subscriptions, n, e, k);
    }
    assert !Called(subscriptions, n, e, IntentKey(subscriptions[n].id, e.id));
    forall i | 0 <= i < n + 1 && Missing(before, subscriptions[i], e)
      ensures next[IntentKey(subscriptions[i].id, e.id)] == IntentFor(subscriptions[i], e)
    {
      if i < n {
        assert Called(subscriptions, n, e, IntentKey(subscriptions[i].id, e.id));
      }
    }
  }

  class DeliveryIntents {
    var rows: map<string, Intent>

    /** Insert unless the key is taken. */
    method TryAdd(key: string, intent: Intent) returns (added: bool)
      modifies this
      ensures added == (key !in old(rows))
      ensures rows == if added then old(rows)[key := intent] else old(rows)
    {
      added := key !in rows;
      if added {
        rows := rows[key := intent];
      }
    }

    /** `enqueue_notification_deliveries`; `created` counts exactly the rows that are new. */
    method Enqueue(subscriptions: seq<Subscription>, supported: set<string>, e: SourceEvent)
      returns (r: Result<nat, FanoutError>)
      requires UniqueSubscriptions(subscriptions)
      modifies this
      ensures e.eventType !in supported ==> r == Ok(0) && rows == old(rows)
      ensures e.eventType in supported ==> (r.Err? <==> e.alert.None?)
      ensures r.Err? ==> rows == old(rows)
      ensures e.eventType in supported && r.Ok? ==>
                && FannedOut(old(rows), rows, subscriptions, |subscriptions|, e)
                && r.value == |rows| - |old(rows)|
    {
      hide IntentKey, UniqueSubscriptions, FannedOut;
      if e.eventType !in supported {
        return Ok(0);
      }
      if e.alert.None? {
        return Err(AlertRequired);
      }
      var created := 0;
      FanOutNone(rows, subscriptions, e);
      for n := 0 to |subscriptions|
        invariant FannedOut(old(rows), rows, subscriptions, n, e)
        invariant created == |rows| - |old(rows)|
      {
        FanOutNext(old(rows), rows, subscriptions, n, e);
        if !Accepts(subscriptions[n], e.eventType) {
          continue;
        }
        var added := TryAdd(IntentKey(subscriptions[n].id, e.id), IntentFor(subscriptions[n], e));
        if added {
          created := created + 1;
        }
      }
      return Ok(created);
    }
  }
}
