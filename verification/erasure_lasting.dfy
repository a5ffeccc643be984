/** An erased customer stays out of the conversation store: history that comes later, and a rebuild from the
    raw payloads, which still name the customer, are checked against the recorded names
    (apps/gateway/src/gateway.ts `applySyncItem`, `storeHistoryMessage`). */
module ErasureLasting {
  import opened Core
  import opened Conversations
  import Erasure

  /** No message, contact or pair names any of these. */
  ghost predicate Without(s: Store, keys: set<Customer>) {
    && (forall id :: id in s.messages ==> s.messages[id].customer !in keys)
    && (forall c :: c in s.contacts ==> c !in keys)
    && (forall u :: u in s.pairs ==> Bsuid(u) !in keys && Phone(s.pairs[u]) !in keys)
  }

  /** A live message or a send that names one of them. */
  predicate Names(step: Step, keys: set<Customer>) {
    match step
    case CIngest(NewMessage(_, m, pair, _), _) => m.customer in keys || NamesErased(pair, keys)
    case CSend(_, m, _) => m.customer in keys
    case _ => false
  }

  /** Items are applied against at least the names recorded as erased. */
  predicate ChecksErased(step: Step, keys: set<Customer>) { step.CItem? ==> keys <= step.erased }

  lemma LearnLeavesOut(s: Store, pair: Option<Pair>, keys: set<Customer>)
    requires Without(s, keys)
    ensures Without(LearnPair(s, pair), keys) <==> !NamesErased(pair, keys)
  {
    if pair.Some? {
      var learned := LearnPair(s, pair);
      assert pair.value.user in learned.pairs && learned.pairs[pair.value.user] == pair.value.phone;
    }
  }

  lemma StoreLeavesOut(s: Store, id: string, m: Message, now: Time, name: Option<string>, keys: set<Customer>)
    requires Without(s, keys)
    ensures Without(StoreMessage(s, id, m, now, name), keys) <==> m.customer !in keys
  {
    var key := CustomerKey(s.pairs, m.customer);
    assert key in StoreMessage(s, id, m, now, name).contacts;
  }

  lemma CallbackLeavesOut(s: Store, c: Callback, keys: set<Customer>)
    ensures Without(ApplyCallback(s, c), keys) <==> Without(s, keys)
  {
    var s' := ApplyCallback(s, c);
    assert s'.messages.Keys == s.messages.Keys && s'.contacts == s.contacts && s'.pairs == s.pairs;
    assert forall id :: id in s.messages ==> s'.messages[id].customer == s.messages[id].customer;
  }

  lemma {:induction false} CallbacksLeaveOut(s: Store, callbacks: seq<Callback>, keys: set<Customer>)
    ensures Without(ApplyCallbacks(s, callbacks), keys) <==> Without(s, keys)
    decreases |callbacks|
  {
    if callbacks != [] {
      CallbackLeavesOut(s, callbacks[0], keys);
      CallbacksLeaveOut(ApplyCallback(s, callbacks[0]), callbacks[1..], keys);
    }
  }

  lemma HistoryLeavesOut(s: Store, id: string, m: HistoryMessage, erased: set<Customer>, now: Time, cutoff: Option<Time>, keys: set<Customer>)
    requires Without(s, keys) && keys <= erased
    ensures Without(StoreHistoryMessage(s, id, m, erased, now, cutoff), keys)
  {
  }

  lemma ContactLeavesOut(s: Store, customer: Customer, name: Option<string>, remove: bool, now: Time, keys: set<Customer>)
    requires Without(s, keys) && customer !in keys
    ensures Without(ApplyContact(s, customer, name, remove, now), keys)
  {
  }

  lemma ItemLeavesOut(s: Store, item: Item, erased: set<Customer>, now: Time, cutoff: Option<Time>, keys: set<Customer>)
    requires Without(s, keys) && keys <= erased
    ensures Without(ApplyItem(s, item, erased, now, cutoff), keys)
  {
    if !item.OtherItem? && !NamesErased(item.pair, erased) {
      LearnLeavesOut(s, item.pair, keys);
      if item.HistoryItem? {
        HistoryLeavesOut(LearnPair(s, item.pair), item.id, item.message, erased, now, cutoff, keys);
      } else if item.customer !in erased {
        ContactLeavesOut(LearnPair(s, item.pair), item.customer, item.name, item.remove, now, keys);
      }
    }
  }

  lemma ReprocessLeavesOut(s: Store, keys: set<Customer>)
    requires Without(s, keys)
    ensures Without(Reprocess(s), keys)
  {
  }

  lemma MessageLeavesOut(s: Store, step: Step, keys: set<Customer>)
    requires Without(s, keys) && step.CIngest? && step.ev.NewMessage?
    ensures Without(Apply(s, step), keys) <==> !Names(step, keys)
  {
    var learned := LearnPair(s, step.ev.pair);
    LearnLeavesOut(s, step.ev.pair, keys);
    if NamesErased(step.ev.pair, keys) {
      assert Apply(s, step).pairs == learned.pairs;
      assert step.ev.pair.value.user in learned.pairs && learned.pairs[step.ev.pair.value.user] == step.ev.pair.value.phone;
    } else {
      StoreLeavesOut(learned, step.ev.id, step.ev.message, step.now, step.ev.name, keys);
    }
  }

  /** One step brings an erased customer back exactly when it is a live message or a send that names the
      customer: no history item, rebuild or callback does. */
  lemma OnlyLiveTrafficBringsBack(s: Store, step: Step, keys: set<Customer>)
    requires Without(s, keys) && ChecksErased(step, keys)
    ensures Without(Apply(s, step), keys) <==> !Names(step, keys)
  {
    match step
    case CIngest(ev, now) =>
      if ev.NewMessage? {
        MessageLeavesOut(s, step, keys);
      } else {
        CallbackLeavesOut(s.(callbacks := s.callbacks + [ev.callback]), ev.callback, keys);
        CallbackLeavesOut(s, ev.callback, keys);
      }
    case CSend(id, m, now) =>
      StoreLeavesOut(s, id, SentRow(m), now, None, keys);
      CallbacksLeaveOut(StoreMessage(s, id, SentRow(m), now, None), CallbacksFor(s.callbacks, id), keys);
    case CItem(item, erased, cutoff, now) => ItemLeavesOut(s, item, erased, now, cutoff, keys);
    case CReprocess => ReprocessLeavesOut(s, keys);
  }

  /** The customer is out after every step of the run. */
  ghost predicate AlwaysWithout(s: Store, steps: seq<Step>, keys: set<Customer>)
    decreases |steps|
  {
    Without(s, keys) && (steps != [] ==> AlwaysWithout(Apply(s, steps[0]), steps[1..], keys))
  }

  lemma {:induction false} StaysOutExactly(s: Store, steps: seq<Step>, keys: set<Customer>)
    requires Without(s, keys) && forall k :: 0 <= k < |steps| ==> ChecksErased(steps[k], keys)
    ensures AlwaysWithout(s, steps, keys) <==> forall k :: 0 <= k < |steps| ==> !Names(steps[k], keys)
    decreases |steps|
  {
    if steps != [] {
      OnlyLiveTrafficBringsBack(s, steps[0], keys);
      if Names(steps[0], keys) {
        assert !AlwaysWithout(Apply(s, steps[0]), steps[1..], keys);
      } else {
        assert forall k :: 0 <= k < |steps| - 1 ==> steps[1..][k] == steps[k + 1];
        assert forall k :: 0 < k < |steps| ==> steps[k] == steps[1..][k - 1];
        StaysOutExactly(Apply(s, steps[0]), steps[1..], keys);
      }
    }
  }

  /** Main result: after an erasure the customer stays out of the conversation store throughout a run,
      rebuilds from the raw payloads and history that comes later included, exactly when no live message
      and no send of the run names the customer. */
  lemma ErasedStaysOut(t: Erasure.Tables, key: Customer, names: set<Customer>, steps: seq<Step>)
    requires Erasure.LeastNames(t, key, names)
    requires forall k :: 0 <= k < |steps| ==> ChecksErased(steps[k], Erasure.Erase(t, key).erased)
    ensures AlwaysWithout(Erasure.Erase(t, key).store, steps, names) <==>
            forall k :: 0 <= k < |steps| ==> !Names(steps[k], names)
  {
    var after := Erasure.Erase(t, key);
    Erasure.NothingNamesTheCustomer(t, key, names);
    assert Without(after.store, names) && names <= after.erased;
    StaysOutExactly(after.store, steps, names);
  }
}
