/** Inbound webhooks: an event store keyed by tenant, provider and source id, the
    HubSpot batch loop, and the Svix endpoint. */
module Webhooks {
  import opened Jobs

  datatype Status = Received | Processed | Retry | Failed

  /** `payload` names the stored body; bodies are not inspected. */
  datatype Record = Record(
    tenant: string, provider: string, source: string, eventType: string, payload: Id,
    status: Status, attempts: nat)

  datatype Key = Key(tenant: string, provider: string, source: string)

  type Store = seq<Record>

  function KeyOf(r: Record): Key {
    Key(r.tenant, r.provider, r.source)
  }

  predicate Has(store: Store, k: Key) {
    exists i :: 0 <= i < |store| && KeyOf(store[i]) == k
  }

  /** `get_by_source` finds at most one row. */
  ghost predicate UniqueKeys(store: Store) {
    forall i, j :: 0 <= i < j < |store| ==> KeyOf(store[i]) != KeyOf(store[j])
  }

  // ---------- HubSpot batches ----------

  const HUBSPOT := "hubspot"
  const SVIX := "svix"
  const GLOBAL := "global"
  const UNKNOWN := "unknown"

  /** One entry of the posted list. */
  datatype Item =
    | NotAnObject
    | Event(tenantId: Option<string>, eventId: Option<string>, id: Option<string>,
            subscription: Option<string>, body: Id)

  function OrElse(s: Option<string>, default: string): string {
    if s.Some? then s.value else default
  }

  function ItemKey(item: Item): Key
    requires item.Event?
  {
    Key(OrElse(item.tenantId, GLOBAL), HUBSPOT, OrElse(item.eventId, OrElse(item.id, UNKNOWN)))
  }

  /** The record an item leaves when its key is new. */
  function RecordOf(item: Item): Record
    requires item.Event?
  {
    var k := ItemKey(item);
    Record(k.tenant, k.provider, k.source, OrElse(item.subscription, UNKNOWN), item.body, Processed, 1)
  }

  function Process(store: Store, item: Item): Store {
    if item.NotAnObject? || Has(store, ItemKey(item)) then store else store + [RecordOf(item)]
  }

  function Batch(store: Store, items: seq<Item>): Store {
    if items == [] then store else Process(Batch(store, items[..|items| - 1]), items[|items| - 1])
  }

  /** Item `i` is the first of the batch with a key the store does not have. */
  ghost predicate IsNew(store: Store, items: seq<Item>, i: nat)
    requires i < |items|
  {
    && items[i].Event?
    && !Has(store, ItemKey(items[i]))
    && forall j :: 0 <= j < i && items[j].Event? ==> ItemKey(items[j]) != ItemKey(items[i])
  }

  /** The keys after a batch are those before it and those of its items. */
  lemma {:induction false} BatchKeys(store: Store, items: seq<Item>, k: Key)
    ensures Has(Batch(store, items), k) <==>
      Has(store, k) || exists i :: 0 <= i < |items| && items[i].Event? && ItemKey(items[i]) == k
  {
    if items != [] {
      var n := |items| - 1;
      var before := Batch(store, items[..n]);
      BatchKeys(store, items[..n], k);
      ProcessKeys(before, items[n], k);
      if exists i :: 0 <= i < n && items[..n][i].Event? && ItemKey(items[..n][i]) == k {
        var i :| 0 <= i < n && items[..n][i].Event? && ItemKey(items[..n][i]) == k;
        assert items[i] == items[..n][i];
      }
      if exists i :: 0 <= i < |items| && items[i].Event? && ItemKey(items[i]) == k {
        var i :| 0 <= i < |items| && items[i].Event? && ItemKey(items[i]) == k;
        if i < n { assert items[..n][i] == items[i]; }
      }
    }
  }

  lemma ProcessKeys(store: Store, item: Item, k: Key)
    ensures Has(Process(store, item), k) <==> Has(store, k) || (item.Event? && ItemKey(item) == k)
  {
    var after := Process(store, item);
    if Has(store, k) {
      var i :| 0 <= i < |store| && KeyOf(store[i]) == k;
      assert KeyOf(after[i]) == k;
    }
    if item.Event? && !Has(store, ItemKey(item)) { assert KeyOf(after[|store|]) == ItemKey(item); }
  }

  /** What a batch does: old records keep their place and content, and behind them
      comes one processed record, with one attempt, for the first item of each new
      key, in order. */
  lemma {:induction false} BatchAddsFirstOccurrences(store: Store, items: seq<Item>) returns (added: seq<nat>)
    ensures |Batch(store, items)| == |store| + |added|
    ensures Batch(store, items)[..|store|] == store
    ensures forall n :: 0 <= n < |added| ==>
      added[n] < |items| && IsNew(store, items, added[n]) && Batch(store, items)[|store| + n] == RecordOf(items[added[n]])
    ensures forall m, n :: 0 <= m < n < |added| ==> added[m] < added[n]
    ensures forall i :: 0 <= i < |items| && IsNew(store, items, i) ==> i in added
  {
    if items == [] {
      added := [];
    } else {
      var last := |items| - 1;
      var before := Batch(store, items[..last]);
      added := BatchAddsFirstOccurrences(store, items[..last]);
      forall i | 0 <= i < last ensures IsNew(store, items[..last], i) == IsNew(store, items, i) {
        NewInPrefix(store, items, last, i);
      }
      LastIsNew(store, items);
      assert before[..|store|] == store;
      if IsNew(store, items, last) {
        added := added + [last];
      }
    }
  }

  lemma NewInPrefix(store: Store, items: seq<Item>, n: nat, i: nat)
    requires i < n <= |items|
    ensures IsNew(store, items[..n], i) == IsNew(store, items, i)
  {
    assert forall j :: 0 <= j <= i ==> items[..n][j] == items[j];
  }

  lemma LastIsNew(store: Store, items: seq<Item>)
    requires items != []
    ensures var last := |items| - 1;
      IsNew(store, items, last) <==>
        items[last].Event? && !Has(Batch(store, items[..last]), ItemKey(items[last]))
  {
    var last := |items| - 1;
    if items[last].Event? {
      BatchKeys(store, items[..last], ItemKey(items[last]));
      assert forall j :: 0 <= j < last ==> items[..last][j] == items[j];
    }
  }

  lemma {:induction false} BatchKeepsUniqueKeys(store: Store, items: seq<Item>)
    requires UniqueKeys(store)
    ensures UniqueKeys(Batch(store, items))
  {
    if items != [] { BatchKeepsUniqueKeys(store, items[..|items| - 1]); }
  }

  /** Processing one batch after another is processing their concatenation. */
  lemma {:induction false} BatchesCompose(store: Store, first: seq<Item>, second: seq<Item>)
    ensures Batch(store, first + second) == Batch(Batch(store, first), second)
  {
    if second == [] {
      assert first + second == first;
    } else {
      var n := |second| - 1;
      BatchesCompose(store, first, second[..n]);
      assert (first + second)[..|first| + n] == first + second[..n];
    }
  }

  /** Items whose keys are all known leave the store as it is. */
  lemma {:induction false} KnownItemsChangeNothing(store: Store, items: seq<Item>)
    requires forall i :: 0 <= i < |items| && items[i].Event? ==> Has(store, ItemKey(items[i]))
    ensures Batch(store, items) == store
  {
    if items != [] {
      var n := |items| - 1;
      assert forall i :: 0 <= i < n ==> items[..n][i] == items[i];
      KnownItemsChangeNothing(store, items[..n]);
    }
  }

  /** A batch, or any part of it in any order, delivered again changes nothing. */
  lemma RedeliveryChangesNothing(store: Store, items: seq<Item>, again: seq<Item>)
    requires forall x :: x in again ==> x in items
    ensures Batch(Batch(store, items), again) == Batch(store, items)
  {
    forall i | 0 <= i < |again| && again[i].Event? ensures Has(Batch(store, items), ItemKey(again[i])) {
      assert again[i] in items;
      BatchKeys(store, items, ItemKey(again[i]));
    }
    KnownItemsChangeNothing(Batch(store, items), again);
  }

  /** The record is the one an event goes by: of provider `hubspot`, of the event's tenant or
      `global`, and with the event's `eventId`, else its `id`, else `unknown` as source. */
  ghost predicate StoredFor(r: Record, item: Item) {
    && item.Event? && r.provider == "hubspot"
    && (item.tenantId == None ==> r.tenant == "global") && (item.tenantId.Some? ==> r.tenant == item.tenantId.value)
    && (item.eventId.Some? ==> r.source == item.eventId.value)
    && (item.eventId.None? && item.id.Some? ==> r.source == item.id.value)
    && (item.eventId.None? && item.id.None? ==> r.source == "unknown")
  }

  lemma StoredForItsKey(r: Record, item: Item)
    requires item.Event?
    ensures StoredFor(r, item) <==> KeyOf(r) == ItemKey(item)
  {
  }

  /** The record was made from the event: its subscription type or `unknown`, its body,
      processed at the first attempt. */
  ghost predicate MadeFrom(r: Record, item: Item) {
    && StoredFor(r, item) && r.payload == item.body && r.status == Processed && r.attempts == 1
    && (item.subscription == None ==> r.eventType == "unknown")
    && (item.subscription.Some? ==> r.eventType == item.subscription.value)
  }

  /** No event of the batch before the i-th goes by the record. */
  ghost predicate FirstOfItsRecord(r: Record, items: seq<Item>, i: nat)
    requires i <= |items|
  {
    forall j :: 0 <= j < i ==> !StoredFor(r, items[j])
  }

  /** The record was made from the first event of the batch that goes by it. */
  ghost predicate MadeFromFirst(r: Record, items: seq<Item>) {
    exists i :: 0 <= i < |items| && MadeFrom(r, items[i]) && FirstOfItsRecord(r, items, i)
  }

  lemma NewRecordsAreMade(store: Store, items: seq<Item>)
    ensures var after := Batch(store, items);
      |store| <= |after| && after[..|store|] == store
      && forall n :: |store| <= n < |after| ==> MadeFromFirst(after[n], items)
  {
    var after := Batch(store, items);
    var added := BatchAddsFirstOccurrences(store, items);
    forall n | |store| <= n < |after| ensures MadeFromFirst(after[n], items) {
      var i := added[n - |store|];
      assert after[|store| + (n - |store|)] == RecordOf(items[i]);
      assert MadeFrom(after[n], items[i]) && FirstOfItsRecord(after[n], items, i);
    }
  }

  /** After a batch every event has exactly one record in a store of unique keys. Records
      stay, and the others are made from an event that had none. */
  lemma EveryEventIsStored(store: Store, items: seq<Item>)
    requires UniqueKeys(store)
    ensures var after := Batch(store, items);
      && (forall x :: x in items && x.Event? ==> exists n :: 0 <= n < |after| && StoredFor(after[n], x))
      && (forall x, m, n :: x in items && 0 <= m < n < |after| && StoredFor(after[m], x) ==> !StoredFor(after[n], x))
      && |store| <= |after| && after[..|store|] == store
      && (forall n :: |store| <= n < |after| ==> MadeFromFirst(after[n], items))
  {
    var after := Batch(store, items);
    BatchKeepsUniqueKeys(store, items);
    NewRecordsAreMade(store, items);
    forall x | x in items && x.Event? ensures exists n :: 0 <= n < |after| && StoredFor(after[n], x) {
      BatchKeys(store, items, ItemKey(x));
      var n :| 0 <= n < |after| && KeyOf(after[n]) == ItemKey(x);
      StoredForItsKey(after[n], x);
    }
    forall x, m, n | x in items && 0 <= m < n < |after| && StoredFor(after[m], x) ensures !StoredFor(after[n], x) {
      assert KeyOf(after[m]) != KeyOf(after[n]);
    }
  }

  /** Events that differ in their tenant or in their event id have records of their own. */
  lemma DifferentEventsKeepApart(store: Store, items: seq<Item>, x: Item, y: Item)
    requires UniqueKeys(store) && x in items && y in items && x.Event? && y.Event?
    requires (x.tenantId.Some? && y.tenantId.Some? && x.tenantId != y.tenantId)
      || (x.eventId.Some? && y.eventId.Some? && x.eventId != y.eventId)
    ensures var after := Batch(store, items);
      exists m, n :: 0 <= m < |after| && 0 <= n < |after| && m != n
                     && StoredFor(after[m], x) && StoredFor(after[n], y)
  {
    EveryEventIsStored(store, items);
    var after := Batch(store, items);
    var m :| 0 <= m < |after| && StoredFor(after[m], x);
    var n :| 0 <= n < |after| && StoredFor(after[n], y);
    assert m != n;
  }

  /** Events that carry no id of their own share one key: after the first of a tenant,
      every other one is dropped, whatever its content. */
  lemma AnonymousEventsCollide(store: Store, first: Item, later: Item)
    requires first.Event? && first.eventId.None? && first.id.None?
    requires later.Event? && later.eventId.None? && later.id.None? && later.tenantId == first.tenantId
    ensures Batch(Batch(store, [first]), [later]) == Batch(store, [first])
  {
    BatchKeys(store, [first], ItemKey(later));
    assert [first][0] == first && ItemKey(first) == ItemKey(later);
    assert [later][0] == later;
    KnownItemsChangeNothing(Batch(store, [first]), [later]);
  }

  // ---------- Svix ----------

  /** How one delivery of a Svix event fares. Marking it processed, or the commit, may
      raise. Then the session may still be usable, and the event is stored as failed; or
      the transaction is gone with everything in it, and nothing is stored. */
  datatype Outcome = Marked | MarkedFailed | RolledBack

  function StatusOf(outcome: Outcome, maxRetries: int): Status {
    if outcome.Marked? then Processed else if 1 < maxRetries then Retry else Failed
  }

  function Svix(store: Store, tenant: string, source: string, eventType: string, body: Id,
                outcome: Outcome, maxRetries: int): Store {
    if Has(store, Key(tenant, SVIX, source)) || outcome.RolledBack? then store
    else store + [Record(tenant, SVIX, source, eventType, body, StatusOf(outcome, maxRetries), 1)]
  }

  /** A delivery stores its event, unless the tenant has one of that source already or the
      transaction is gone: processed when it could be marked so, else to be retried, or
      failed when one attempt is all there is. */
  lemma SvixStores(store: Store, tenant: string, source: string, eventType: string, body: Id,
                   outcome: Outcome, maxRetries: int)
    ensures var after := Svix(store, tenant, source, eventType, body, outcome, maxRetries);
      var known := exists r :: r in store && r.tenant == tenant && r.provider == "svix" && r.source == source;
      if known || outcome.RolledBack? then after == store
      else
        && |after| == |store| + 1 && after[..|store|] == store
        && var r := after[|store|];
        && r.tenant == tenant && r.provider == "svix" && r.source == source
        && r.eventType == eventType && r.payload == body && r.attempts == 1
        && (r.status == Processed <==> outcome.Marked?)
        && (r.status == Failed <==> outcome.MarkedFailed? && maxRetries <= 1)
        && (r.status == Retry <==> outcome.MarkedFailed? && maxRetries > 1)
  {
    if r :| r in store && r.tenant == tenant && r.provider == "svix" && r.source == source {
      var i :| 0 <= i < |store| && store[i] == r;
      assert KeyOf(store[i]) == Key(tenant, SVIX, source);
    }
  }

  function Deliveries(store: Store, tenant: string, source: string, eventType: string, body: Id,
                      outcomes: seq<Outcome>, maxRetries: int): Store {
    if outcomes == [] then store
    else
      var n := |outcomes| - 1;
      Svix(Deliveries(store, tenant, source, eventType, body, outcomes[..n], maxRetries),
           tenant, source, eventType, body, outcomes[n], maxRetries)
  }

  /** The first outcome that stores anything; rolled back when none does. */
  function FirstStored(outcomes: seq<Outcome>): Outcome {
    if outcomes == [] then RolledBack
    else if !outcomes[0].RolledBack? then outcomes[0]
    else FirstStored(outcomes[1..])
  }

  lemma {:induction false} FirstStoredAppend(outcomes: seq<Outcome>, last: Outcome)
    ensures FirstStored(outcomes + [last]) ==
      if FirstStored(outcomes).RolledBack? then last else FirstStored(outcomes)
  {
    if outcomes == [] {
      assert outcomes + [last] == [last] && [last][1..] == [];
    } else if outcomes[0].RolledBack? {
      FirstStoredAppend(outcomes[1..], last);
      assert (outcomes + [last])[1..] == outcomes[1..] + [last];
    }
  }

  /** Only the first delivery that is stored counts: an event stored as `retry` (or
      `failed`) stays so however often it is delivered again. */
  lemma {:induction false} FirstDeliveryDecides(
    store: Store, tenant: string, source: string, eventType: string, body: Id, outcomes: seq<Outcome>, maxRetries: int)
    ensures Deliveries(store, tenant, source, eventType, body, outcomes, maxRetries)
         == Svix(store, tenant, source, eventType, body, FirstStored(outcomes), maxRetries)
  {
    if outcomes != [] {
      var n := |outcomes| - 1;
      FirstDeliveryDecides(store, tenant, source, eventType, body, outcomes[..n], maxRetries);
      FirstStoredAppend(outcomes[..n], outcomes[n]);
      assert outcomes[..n] + [outcomes[n]] == outcomes;
      var after := Svix(store, tenant, source, eventType, body, FirstStored(outcomes[..n]), maxRetries);
      if !Has(store, Key(tenant, SVIX, source)) && after != store {
        assert KeyOf(after[|store|]) == Key(tenant, SVIX, source);
        assert Has(after, Key(tenant, SVIX, source));
      }
    }
  }

  // ---------- the service ----------

  class WebhookService {
    const maxRetries: int
    var events: seq<Record>

    constructor (maxRetries: int)
      ensures events == [] && this.maxRetries == maxRetries
    {
      this.maxRetries := maxRetries;
      events := [];
    }

    method GetBySource(k: Key) returns (at: Option<nat>)
      requires UniqueKeys(events)
      ensures at.None? <==>
        !exists r :: r in events && r.tenant == k.tenant && r.provider == k.provider && r.source == k.source
      ensures at.Some? == Has(events, k)
      ensures at.Some? ==>
        && at.value < |events| && events[at.value].tenant == k.tenant
        && events[at.value].provider == k.provider && events[at.value].source == k.source
    {
      for i := 0 to |events|
        invariant forall j :: 0 <= j < i ==> KeyOf(events[j]) != k
      {
        if KeyOf(events[i]) == k {
          return Some(i);
        }
      }
      return None;
    }

    /** Stores the event as received unless its key is known. */
    method EnsureIdempotent(k: Key, eventType: string, payload: Id) returns (isNew: bool, status: Status)
      requires UniqueKeys(events)
      modifies this
      ensures UniqueKeys(events) && isNew == !Has(old(events), k)
      ensures isNew ==>
        && status == Received
        && events == old(events) + [Record(k.tenant, k.provider, k.source, eventType, payload, Received, 0)]
      ensures !isNew ==>
        && events == old(events)
        && exists i :: 0 <= i < |events| && KeyOf(events[i]) == k && events[i].status == status
    {
      var existing := GetBySource(k);
      if existing.Some? {
        return false, events[existing.value].status;
      }
      events := events + [Record(k.tenant, k.provider, k.source, eventType, payload, Received, 0)];
      return true, Received;
    }

    /** Sets the status of the event's record and counts one attempt. */
    method Mark(k: Key, failed: bool)
      requires UniqueKeys(events)
      modifies this
      ensures |events| == |old(events)| && UniqueKeys(events)
      ensures forall i :: 0 <= i < |events| ==>
        var r := old(events)[i];
        events[i] ==
          if KeyOf(r) != k then r
          else r.(attempts := r.attempts + 1,
                  status := if !failed then Processed else if r.attempts + 1 < maxRetries then Retry else Failed)
    {
      var at := GetBySource(k);
      if at.Some? {
        var r := events[at.value];
        var status := Processed;
        if failed {
          status := if r.attempts + 1 < maxRetries then Retry else Failed;
        }
        events := events[at.value := r.(status := status, attempts := r.attempts + 1)];
      }
    }

    /** The loop over the posted items. */
    method ReceiveHubspotWebhook(items: seq<Item>)
      requires UniqueKeys(events)
      modifies this
      ensures UniqueKeys(events) && events == Batch(old(events), items)
    {
      for i := 0 to |items|
        invariant UniqueKeys(events) && events == Batch(old(events), items[..i])
      {
        assert items[..i + 1][..i] == items[..i];
        if items[i].Event? {
          var item := items[i];
          var k := ItemKey(item);
          ghost var before := events;
          var isNew, _ := EnsureIdempotent(k, OrElse(item.subscription, UNKNOWN), item.body);
          if isNew {
            Mark(k, false);
            assert events == before + [RecordOf(item)];
          }
        }
      }
      assert items[..|items|] == items;
    }

    /** The Svix endpoint. Answers with the stored status, or with an error (None) when
        a new event could not be marked processed. */
    method ReceiveSvixWebhook(tenant: string, source: string, eventType: string, payload: Id, outcome: Outcome)
      returns (answer: Option<Status>)
      requires UniqueKeys(events)
      modifies this
      ensures UniqueKeys(events)
      ensures events == Svix(old(events), tenant, source, eventType, payload, outcome, maxRetries)
      ensures answer.Some? <==> Has(old(events), Key(tenant, SVIX, source)) || outcome.Marked?
      ensures answer.Some? ==>
        exists i :: 0 <= i < |events| && KeyOf(events[i]) == Key(tenant, SVIX, source) && events[i].status == answer.value
    {
      var k := Key(tenant, SVIX, source);
      var before := events;
      var isNew, status := EnsureIdempotent(k, eventType, payload);
      if !isNew {
        return Some(status);
      }
      if outcome.RolledBack? {
        events := before;
        return None;
      }
      Mark(k, outcome.MarkedFailed?);
      assert events == before + [Record(tenant, SVIX, source, eventType, payload, StatusOf(outcome, maxRetries), 1)];
      assert KeyOf(events[|before|]) == k;
      return if outcome.Marked? then Some(Processed) else None;
    }
  }
}
