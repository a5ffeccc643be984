/** Right to erasure (apps/gateway/src/gateway.ts `eraseByPhone`): every name a customer is known by, and
    then every row that names one of them. Ids are taken normalized: a phone's digits, or a BSUID whole. */
module Erasure {
  import opened Core
  import opened Conversations

  /** A stored event: whom it names, the phone/BSUID pair it carries, the messages it is about, the business
      phone it came through, and the callback it is if it is a status event. */
  datatype Event = Event(
    names: set<Customer>,
    pair: Option<Pair>,
    messageId: Option<string>,
    wamid: Option<string>,
    phone: Option<string>,
    callback: Option<Callback>,
    content: string)

  /** An outbound message, a broadcast recipient or a scheduled send. */
  datatype Addressed = Addressed(recipient: Customer, wamid: Option<string>)

  /** `phone` is the business phone all its events came through, if they came through one. */
  datatype Delivery = Delivery(phone: Option<string>, pending: bool, redacted: bool, events: seq<Event>)

  datatype Tables = Tables(
    inbound: seq<Event>,
    held: seq<seq<Event>>,
    deliveries: seq<Delivery>,
    outbound: seq<Addressed>,
    recipients: seq<Addressed>,
    scheduled: seq<Addressed>,
    store: Store,
    erased: set<Customer>)

  /** The status events are stored as inbound events, and read from there. */
  function CallbacksIn(events: seq<Event>): seq<Callback> {
    if events == [] then []
    else (if events[0].callback.Some? then [events[0].callback.value] else []) + CallbacksIn(events[1..])
  }

  function PairKeys(pair: Option<Pair>): set<Customer> {
    if pair.Some? then {Phone(pair.value.phone), Bsuid(pair.value.user)} else {}
  }

  predicate NamesAny(ev: Event, keys: set<Customer>) { ev.names * keys != {} }

  function Flat(batches: seq<seq<Event>>): seq<Event> {
    if batches == [] then [] else batches[0] + Flat(batches[1..])
  }

  /** The events whose pairs the search follows. */
  function Retained(s: Tables): seq<Event> { s.inbound + Flat(s.held) }

  // ---- Everything the customer is called ----------------------------------------------------

  ghost predicate Closed(keys: set<Customer>, events: seq<Event>) {
    forall k :: 0 <= k < |events| && NamesAny(events[k], keys) ==> PairKeys(events[k].pair) <= keys
  }

  function AllPairKeys(events: seq<Event>): set<Customer> {
    if events == [] then {} else PairKeys(events[0].pair) + AllPairKeys(events[1..])
  }

  lemma {:induction false} PairKeysIn(events: seq<Event>, k: nat)
    requires k < |events|
    ensures PairKeys(events[k].pair) <= AllPairKeys(events)
  {
    if k > 0 {
      PairKeysIn(events[1..], k - 1);
    }
  }

  /** What one pass over the events adds. */
  function OnePass(keys: set<Customer>, events: seq<Event>): (grown: set<Customer>)
    ensures keys <= grown <= keys + AllPairKeys(events)
    decreases |events|
  {
    if events == [] then keys
    else OnePass(if NamesAny(events[0], keys) then keys + PairKeys(events[0].pair) else keys, events[1..])
  }

  lemma {:induction false} StillPassIsClosed(keys: set<Customer>, events: seq<Event>)
    requires OnePass(keys, events) == keys
    ensures Closed(keys, events)
    decreases |events|
  {
    if events != [] {
      var next := if NamesAny(events[0], keys) then keys + PairKeys(events[0].pair) else keys;
      assert next == keys;
      StillPassIsClosed(keys, events[1..]);
      forall k | 0 <= k < |events| && NamesAny(events[k], keys) ensures PairKeys(events[k].pair) <= keys {
        if k > 0 { assert events[k] == events[1..][k - 1]; }
      }
    }
  }

  lemma {:induction false} PassStaysInside(keys: set<Customer>, events: seq<Event>, all: set<Customer>)
    requires keys <= all && Closed(all, events)
    ensures OnePass(keys, events) <= all
    decreases |events|
  {
    if events != [] {
      assert events[0] == events[0..][0];
      assert NamesAny(events[0], keys) ==> NamesAny(events[0], all);
      assert Closed(all, events[1..]) by {
        forall k | 0 <= k < |events| - 1 && NamesAny(events[1..][k], all) ensures PairKeys(events[1..][k].pair) <= all {
          assert events[1..][k] == events[k + 1];
        }
      }
      PassStaysInside(if NamesAny(events[0], keys) then keys + PairKeys(events[0].pair) else keys, events[1..], all);
    }
  }

  /** Passes repeat until the keys stop growing. */
  function Closure(keys: set<Customer>, events: seq<Event>): (all: set<Customer>)
    ensures keys <= all
    decreases |(keys + AllPairKeys(events)) - keys|
  {
    var grown := OnePass(keys, events);
    if grown == keys then keys
    else
      SmallerRest(keys, grown, AllPairKeys(events));
      Closure(grown, events)
  }

  lemma SmallerRest(keys: set<Customer>, grown: set<Customer>, universe: set<Customer>)
    requires keys <= grown <= keys + universe && grown != keys
    ensures |(grown + universe) - grown| < |(keys + universe) - keys|
  {
    var before, after := (keys + universe) - keys, (grown + universe) - grown;
    assert after <= before;
    var x :| x in grown && x !in keys;
    assert x in before && x !in after;
    StrictlySmaller(after, before, x);
  }

  lemma StrictlySmaller(a: set<Customer>, b: set<Customer>, x: Customer)
    requires a <= b && x in b && x !in a
    ensures |a| < |b|
  {
    assert a <= b - {x};
    Subset(a, b - {x});
  }

  /** Main result: the search ends, with the least set of names closed under the retained pairs. */
  lemma {:induction false} ClosureIsLeast(keys: set<Customer>, events: seq<Event>)
    ensures Closed(Closure(keys, events), events)
    ensures forall all :: keys <= all && Closed(all, events) ==> Closure(keys, events) <= all
    decreases |(keys + AllPairKeys(events)) - keys|
  {
    var grown := OnePass(keys, events);
    if grown == keys {
      StillPassIsClosed(keys, events);
    } else {
      SmallerRest(keys, grown, AllPairKeys(events));
      ClosureIsLeast(grown, events);
      forall all | keys <= all && Closed(all, events) ensures Closure(keys, events) <= all {
        PassStaysInside(keys, events, all);
      }
    }
  }

  /** The names known before any event is read: the id given, its phone, and every BSUID of that phone. */
  function FirstKeys(pairs: map<string, string>, key: Customer): set<Customer> {
    var phone := CustomerKey(pairs, key);
    {key, phone} + (set u | u in pairs && (phone == Phone(pairs[u]) || key == Bsuid(u)) :: Bsuid(u))
  }

  function Keys(s: Tables, key: Customer): set<Customer> { Closure(FirstKeys(s.store.pairs, key), Retained(s)) }

  // ---- What goes ----------------------------------------------------------------------------

  function IdSet(id: Option<string>): set<string> { if id.Some? then {id.value} else {} }

  function EventWamids(events: seq<Event>, keys: set<Customer>): set<string> {
    if events == [] then {}
    else (if NamesAny(events[0], keys) then IdSet(events[0].messageId) else {}) + EventWamids(events[1..], keys)
  }

  function RowWamids(rows: seq<Addressed>, keys: set<Customer>): set<string> {
    if rows == [] then {}
    else (if rows[0].recipient in keys then IdSet(rows[0].wamid) else {}) + RowWamids(rows[1..], keys)
  }

  /** The messages the customer's events and rows are about; statuses carry nothing else. */
  function Wamids(s: Tables, keys: set<Customer>): set<string> {
    EventWamids(Retained(s), keys) + RowWamids(s.outbound, keys) + RowWamids(s.recipients, keys) + RowWamids(s.scheduled, keys)
  }

  predicate Targets(ev: Event, keys: set<Customer>, wamids: set<string>) {
    NamesAny(ev, keys) || (ev.wamid.Some? && ev.wamid.value in wamids) || (ev.messageId.Some? && ev.messageId.value in wamids)
  }

  /** An event goes when somebody it names is the customer, or a message it is or gives the status of is. */
  lemma TargetsExactly(ev: Event, keys: set<Customer>, wamids: set<string>)
    ensures Targets(ev, keys, wamids) <==>
              || (exists n :: n in ev.names && n in keys)
              || (exists id :: id in wamids && (ev.wamid == Some(id) || ev.messageId == Some(id)))
  {
    if NamesAny(ev, keys) {
      var n :| n in ev.names * keys;
    }
    if n :| n in ev.names && n in keys {
      assert n in ev.names * keys;
    }
  }

  function Kept(events: seq<Event>, keys: set<Customer>, wamids: set<string>): seq<Event> {
    if events == [] then []
    else if Targets(events[0], keys, wamids) then Kept(events[1..], keys, wamids)
    else [events[0]] + Kept(events[1..], keys, wamids)
  }

  function KeptRows(rows: seq<Addressed>, keys: set<Customer>): seq<Addressed> {
    if rows == [] then []
    else if rows[0].recipient in keys then KeptRows(rows[1..], keys)
    else [rows[0]] + KeptRows(rows[1..], keys)
  }

  function PhonesOf(events: seq<Event>): set<string> {
    set k | 0 <= k < |events| && events[k].phone.Some? :: events[k].phone.value
  }

  function FirstPhone(events: seq<Event>): Option<string> {
    if events == [] then None else if events[0].phone.Some? then events[0].phone else FirstPhone(events[1..])
  }

  /** The one phone the events name, if it is one. */
  function OnlyPhone(events: seq<Event>): Option<string> {
    if |PhonesOf(events)| == 1 then FirstPhone(events) else None
  }

  /** A mixed batch is rewritten; one left empty goes when still pending, else only its metadata stays. */
  function KeptDelivery(row: Delivery, keys: set<Customer>, wamids: set<string>): seq<Delivery> {
    var kept := Kept(row.events, keys, wamids);
    if |kept| == |row.events| then [row]
    else if kept != [] then [row.(phone := OnlyPhone(kept), events := kept)]
    else if row.pending then []
    else [row.(redacted := true, events := [])]
  }

  function KeptDeliveries(rows: seq<Delivery>, keys: set<Customer>, wamids: set<string>): seq<Delivery> {
    if rows == [] then [] else KeptDelivery(rows[0], keys, wamids) + KeptDeliveries(rows[1..], keys, wamids)
  }

  function KeptBatch(batch: seq<Event>, keys: set<Customer>, wamids: set<string>): seq<seq<Event>> {
    var kept := Kept(batch, keys, wamids);
    if |kept| == |batch| then [batch] else if kept != [] then [kept] else []
  }

  function KeptHeld(batches: seq<seq<Event>>, keys: set<Customer>, wamids: set<string>): seq<seq<Event>> {
    if batches == [] then [] else KeptBatch(batches[0], keys, wamids) + KeptHeld(batches[1..], keys, wamids)
  }

  /** A send is stored under the id Meta answered with, which its message names. */
  function StoreKeys(s: Store, keys: set<Customer>, wamids: set<string>): set<Customer> {
    keys + (set id | id in wamids && id in s.messages :: s.messages[id].customer)
  }

  function ErasedStore(s: Store, keys: set<Customer>, wamids: set<string>, inbound: seq<Event>): Store {
    var gone := StoreKeys(s, keys, wamids);
    s.(callbacks := CallbacksIn(inbound),
       pairs := map u | u in s.pairs && Bsuid(u) !in keys && Phone(s.pairs[u]) !in keys :: s.pairs[u],
       messages := map id | id in s.messages && s.messages[id].customer !in gone :: s.messages[id],
       contacts := map c | c in s.contacts && c !in gone :: s.contacts[c])
  }

  function Erase(s: Tables, key: Customer): Tables {
    var keys := Keys(s, key);
    var wamids := Wamids(s, keys);
    Tables(Kept(s.inbound, keys, wamids), KeptHeld(s.held, keys, wamids), KeptDeliveries(s.deliveries, keys, wamids),
           KeptRows(s.outbound, keys), KeptRows(s.recipients, keys), KeptRows(s.scheduled, keys),
           ErasedStore(s.store, keys, wamids, Kept(s.inbound, keys, wamids)), s.erased + keys)
  }

  // ---- Nothing is left ----------------------------------------------------------------------

  predicate NoEventNames(events: seq<Event>, keys: set<Customer>) {
    forall k :: 0 <= k < |events| ==> !NamesAny(events[k], keys)
  }

  predicate NoRowNames(rows: seq<Addressed>, keys: set<Customer>) {
    forall k :: 0 <= k < |rows| ==> rows[k].recipient !in keys
  }

  predicate HeldClear(batches: seq<seq<Event>>, keys: set<Customer>) {
    forall batch :: batch in batches ==> NoEventNames(batch, keys)
  }

  predicate DeliveriesClear(rows: seq<Delivery>, keys: set<Customer>) {
    forall row :: row in rows ==> NoEventNames(row.events, keys)
  }

  ghost predicate Gone(s: Tables, keys: set<Customer>) {
    && NoEventNames(s.inbound, keys)
    && HeldClear(s.held, keys) && DeliveriesClear(s.deliveries, keys)
    && NoRowNames(s.outbound, keys) && NoRowNames(s.recipients, keys) && NoRowNames(s.scheduled, keys)
    && (forall id :: id in s.store.messages ==> s.store.messages[id].customer !in keys)
    && (forall c :: c in s.store.contacts ==> c !in keys)
    && (forall u :: u in s.store.pairs ==> Bsuid(u) !in keys && Phone(s.store.pairs[u]) !in keys)
    && s.store.callbacks == CallbacksIn(s.inbound)
    && keys <= s.erased
  }

  predicate NoneTargeted(events: seq<Event>, keys: set<Customer>, wamids: set<string>) {
    forall k :: 0 <= k < |events| ==> !Targets(events[k], keys, wamids)
  }

  lemma {:induction false} KeptIsUntargeted(events: seq<Event>, keys: set<Customer>, wamids: set<string>)
    ensures NoneTargeted(Kept(events, keys, wamids), keys, wamids)
    ensures |Kept(events, keys, wamids)| <= |events|
    ensures |Kept(events, keys, wamids)| == |events| <==> NoneTargeted(events, keys, wamids)
    ensures |Kept(events, keys, wamids)| == |events| ==> Kept(events, keys, wamids) == events
  {
    if events != [] {
      var rest := events[1..];
      KeptIsUntargeted(rest, keys, wamids);
      assert events == [events[0]] + rest;
      if Targets(events[0], keys, wamids) {
        assert |Kept(events, keys, wamids)| < |events|;
      } else {
        assert NoneTargeted(events, keys, wamids) <==> NoneTargeted(rest, keys, wamids) by {
          assert forall k :: 0 <= k < |rest| ==> rest[k] == events[k + 1];
          assert forall k :: 0 < k < |events| ==> events[k] == rest[k - 1];
        }
      }
    }
  }

  lemma UntargetedNamesNothing(events: seq<Event>, keys: set<Customer>, wamids: set<string>)
    requires NoneTargeted(events, keys, wamids)
    ensures NoEventNames(events, keys)
  {
  }

  lemma {:induction false} KeptRowsNameNothing(rows: seq<Addressed>, keys: set<Customer>)
    ensures NoRowNames(KeptRows(rows, keys), keys)
  {
    if rows != [] {
      KeptRowsNameNothing(rows[1..], keys);
    }
  }

  lemma {:induction false} KeptDeliveriesNameNothing(rows: seq<Delivery>, keys: set<Customer>, wamids: set<string>)
    ensures DeliveriesClear(KeptDeliveries(rows, keys, wamids), keys)
  {
    if rows != [] {
      KeptDeliveriesNameNothing(rows[1..], keys, wamids);
      KeptIsUntargeted(rows[0].events, keys, wamids);
      UntargetedNamesNothing(Kept(rows[0].events, keys, wamids), keys, wamids);
      assert DeliveriesClear(KeptDelivery(rows[0], keys, wamids), keys);
    }
  }

  lemma {:induction false} KeptHeldNamesNothing(batches: seq<seq<Event>>, keys: set<Customer>, wamids: set<string>)
    ensures HeldClear(KeptHeld(batches, keys, wamids), keys)
  {
    if batches != [] {
      KeptHeldNamesNothing(batches[1..], keys, wamids);
      KeptIsUntargeted(batches[0], keys, wamids);
      UntargetedNamesNothing(Kept(batches[0], keys, wamids), keys, wamids);
      assert HeldClear(KeptBatch(batches[0], keys, wamids), keys);
    }
  }

  // ---- Whose names they are -------------------------------------------------------------------

  /** The pair table alone says that `n` names the customer `key` names: it is the id given, its phone, or a BSUID
      of that phone. */
  predicate SamePerson(pairs: map<string, string>, key: Customer, n: Customer) {
    || n == key
    || (key.Bsuid? && key.user in pairs && n == Phone(pairs[key.user]))
    || (n.Bsuid? && n.user in pairs && key == Phone(pairs[n.user]))
    || (key.Bsuid? && key.user in pairs && n.Bsuid? && n.user in pairs && pairs[n.user] == pairs[key.user])
  }

  /** An event stored or held. */
  predicate IsRetained(s: Tables, ev: Event) {
    ev in s.inbound || exists b :: 0 <= b < |s.held| && ev in s.held[b]
  }

  /** `all` has the customer's names: those the pair table gives, and with a name an event bears, the pair it
      carries. */
  ghost predicate HoldsNames(s: Tables, key: Customer, all: set<Customer>) {
    && (forall n :: SamePerson(s.store.pairs, key, n) ==> n in all)
    && (forall ev: Event, n :: IsRetained(s, ev) && n in ev.names && n in all && ev.pair.Some? ==>
          Phone(ev.pair.value.phone) in all && Bsuid(ev.pair.value.user) in all)
  }

  /** The customer's names and no others. */
  ghost predicate LeastNames(s: Tables, key: Customer, names: set<Customer>) {
    HoldsNames(s, key, names) && forall all :: HoldsNames(s, key, all) ==> names <= all
  }

  lemma FirstKeysAreTheNames(pairs: map<string, string>, key: Customer, n: Customer)
    ensures n in FirstKeys(pairs, key) <==> SamePerson(pairs, key, n)
  {
  }

  lemma {:induction false} FlatHasThem(batches: seq<seq<Event>>, ev: Event)
    ensures ev in Flat(batches) <==> exists b :: 0 <= b < |batches| && ev in batches[b]
  {
    if batches != [] {
      FlatHasThem(batches[1..], ev);
      if b :| 0 < b < |batches| && ev in batches[b] {
        assert batches[1..][b - 1] == batches[b];
      }
    }
  }

  lemma ClosedMeans(s: Tables, all: set<Customer>)
    ensures Closed(all, Retained(s)) <==>
              forall ev: Event, n :: IsRetained(s, ev) && n in ev.names && n in all && ev.pair.Some? ==>
                Phone(ev.pair.value.phone) in all && Bsuid(ev.pair.value.user) in all
  {
    var events := Retained(s);
    forall ev: Event ensures ev in events <==> IsRetained(s, ev) {
      FlatHasThem(s.held, ev);
    }
    if Closed(all, events) {
      forall ev: Event, n | IsRetained(s, ev) && n in ev.names && n in all && ev.pair.Some?
        ensures Phone(ev.pair.value.phone) in all && Bsuid(ev.pair.value.user) in all
      {
        var k :| 0 <= k < |events| && events[k] == ev;
        assert n in ev.names * all;
        assert PairKeys(events[k].pair) <= all;
      }
    }
    if !Closed(all, events) {
      var k :| 0 <= k < |events| && NamesAny(events[k], all) && !(PairKeys(events[k].pair) <= all);
      var n :| n in events[k].names * all;
      assert events[k] in events && IsRetained(s, events[k]);
    }
  }

  lemma HoldsNamesMeans(s: Tables, key: Customer, all: set<Customer>)
    ensures HoldsNames(s, key, all) <==> FirstKeys(s.store.pairs, key) <= all && Closed(all, Retained(s))
  {
    ClosedMeans(s, all);
    forall n ensures n in FirstKeys(s.store.pairs, key) <==> SamePerson(s.store.pairs, key, n) {
      FirstKeysAreTheNames(s.store.pairs, key, n);
    }
  }

  /** The search finds the customer's names and no others. */
  lemma KeysAreTheNames(s: Tables, key: Customer)
    ensures LeastNames(s, key, Keys(s, key))
  {
    ClosureIsLeast(FirstKeys(s.store.pairs, key), Retained(s));
    HoldsNamesMeans(s, key, Keys(s, key));
    forall all | HoldsNames(s, key, all) ensures Keys(s, key) <= all {
      HoldsNamesMeans(s, key, all);
    }
  }

  lemma NamesAreTheKeys(s: Tables, key: Customer, names: set<Customer>)
    requires LeastNames(s, key, names)
    ensures names == Keys(s, key)
  {
    KeysAreTheNames(s, key);
  }

  /** Main result: after an erasure no row of any table names any name of the customer: the id given, its phone,
      every BSUID of that phone, and whatever the events that bear one of them pair it with. */
  lemma NothingNamesTheCustomer(s: Tables, key: Customer, names: set<Customer>)
    requires LeastNames(s, key, names)
    ensures Gone(Erase(s, key), names)
  {
    NamesAreTheKeys(s, key, names);
    KeysAreGone(s, key);
  }

  lemma KeysAreGone(s: Tables, key: Customer)
    ensures Gone(Erase(s, key), Keys(s, key))
  {
    var keys := Keys(s, key);
    var wamids := Wamids(s, keys);
    KeptIsUntargeted(s.inbound, keys, wamids);
    UntargetedNamesNothing(Kept(s.inbound, keys, wamids), keys, wamids);
    KeptHeldNamesNothing(s.held, keys, wamids);
    KeptDeliveriesNameNothing(s.deliveries, keys, wamids);
    KeptRowsNameNothing(s.outbound, keys);
    KeptRowsNameNothing(s.recipients, keys);
    KeptRowsNameNothing(s.scheduled, keys);
  }

  /** A status event is about the message it gives the status of. */
  predicate CallbacksMatch(events: seq<Event>) {
    forall k :: 0 <= k < |events| && events[k].callback.Some? ==> events[k].wamid == Some(events[k].callback.value.id)
  }

  lemma {:induction false} NoCallbackLeft(events: seq<Event>, keys: set<Customer>, wamids: set<string>)
    requires CallbacksMatch(events)
    ensures forall c :: c in CallbacksIn(Kept(events, keys, wamids)) ==> c.id !in wamids
  {
    if events != [] {
      assert forall k :: 0 <= k < |events| - 1 ==> events[1..][k] == events[k + 1];
      NoCallbackLeft(events[1..], keys, wamids);
    }
  }

  // ---- What is not the customer's stays -----------------------------------------------------

  lemma {:induction false} KeptOfBoth(a: seq<Event>, b: seq<Event>, keys: set<Customer>, wamids: set<string>)
    ensures Kept(a + b, keys, wamids) == Kept(a, keys, wamids) + Kept(b, keys, wamids)
  {
    if a == [] {
      assert a + b == b;
    } else {
      KeptOfBoth(a[1..], b, keys, wamids);
      assert (a + b)[1..] == a[1..] + b;
      if !Targets(a[0], keys, wamids) {
        assert [a[0]] + (Kept(a[1..], keys, wamids) + Kept(b, keys, wamids)) == ([a[0]] + Kept(a[1..], keys, wamids)) + Kept(b, keys, wamids);
      }
    }
  }

  /** Where an event of a batch ends up among the kept ones. */
  function Place(events: seq<Event>, k: nat, keys: set<Customer>, wamids: set<string>): nat
    requires k <= |events|
  {
    |Kept(events[..k], keys, wamids)|
  }

  /** Unrelated events of a mixed batch survive, each at its place, and in their order. */
  lemma UnrelatedEventsStayInOrder(events: seq<Event>, j: nat, k: nat, keys: set<Customer>, wamids: set<string>)
    requires j < k < |events| && !Targets(events[j], keys, wamids) && !Targets(events[k], keys, wamids)
    ensures var kept := Kept(events, keys, wamids);
            var p, q := Place(events, j, keys, wamids), Place(events, k, keys, wamids);
            p < q < |kept| && kept[p] == events[j] && kept[q] == events[k]
  {
    SurvivesAtPlace(events, j, keys, wamids);
    SurvivesAtPlace(events, k, keys, wamids);
    KeptOfBoth(events[..j + 1], events[j + 1..k], keys, wamids);
    KeptOfBoth(events[..j], [events[j]], keys, wamids);
    assert events[..k] == events[..j + 1] + events[j + 1..k];
    assert events[..j + 1] == events[..j] + [events[j]];
    OneKept(events[j], keys, wamids);
  }

  lemma OneKept(ev: Event, keys: set<Customer>, wamids: set<string>)
    requires !Targets(ev, keys, wamids)
    ensures Kept([ev], keys, wamids) == [ev]
  {
    assert [ev][1..] == [];
  }

  lemma SurvivesAtPlace(events: seq<Event>, k: nat, keys: set<Customer>, wamids: set<string>)
    requires k < |events| && !Targets(events[k], keys, wamids)
    ensures var kept := Kept(events, keys, wamids);
            Place(events, k, keys, wamids) < |kept| && kept[Place(events, k, keys, wamids)] == events[k]
  {
    var front, back := events[..k], events[k + 1..];
    KeptOfBoth(front, [events[k]], keys, wamids);
    KeptOfBoth(front + [events[k]], back, keys, wamids);
    OneKept(events[k], keys, wamids);
    assert events == front + [events[k]] + back;
  }

  /** `at` picks from `events`, in their order, the ones not targeted, all of them, and they are `kept`. */
  ghost predicate Picks(at: seq<nat>, events: seq<Event>, kept: seq<Event>, keys: set<Customer>, wamids: set<string>) {
    && |at| == |kept|
    && (forall i, j :: 0 <= i < j < |at| ==> at[i] < at[j])
    && (forall i :: 0 <= i < |at| ==> at[i] < |events| && kept[i] == events[at[i]] && !Targets(events[at[i]], keys, wamids))
    && (forall k :: 0 <= k < |events| && !Targets(events[k], keys, wamids) ==> k in at)
  }

  ghost predicate OthersInOrder(events: seq<Event>, kept: seq<Event>, keys: set<Customer>, wamids: set<string>) {
    exists at :: Picks(at, events, kept, keys, wamids)
  }

  lemma PicksOneMore(at: seq<nat>, front: seq<Event>, ev: Event, kept: seq<Event>, keys: set<Customer>, wamids: set<string>)
    requires Picks(at, front, kept, keys, wamids) && !Targets(ev, keys, wamids)
    ensures Picks(at + [|front|], front + [ev], kept + [ev], keys, wamids)
  {
    var all := at + [|front|];
    forall k | 0 <= k < |front| + 1 && !Targets((front + [ev])[k], keys, wamids) ensures k in all {
      if k < |front| {
        assert k in at;
      } else {
        assert all[|at|] == k;
      }
    }
  }

  lemma PicksNoMore(at: seq<nat>, front: seq<Event>, ev: Event, kept: seq<Event>, keys: set<Customer>, wamids: set<string>)
    requires Picks(at, front, kept, keys, wamids) && Targets(ev, keys, wamids)
    ensures Picks(at, front + [ev], kept, keys, wamids)
  {
  }

  lemma {:induction false} KeptAreTheOthers(events: seq<Event>, keys: set<Customer>, wamids: set<string>) returns (at: seq<nat>)
    ensures Picks(at, events, Kept(events, keys, wamids), keys, wamids)
  {
    if events == [] {
      at := [];
    } else {
      var front, last := events[..|events| - 1], events[|events| - 1];
      at := KeptAreTheOthers(front, keys, wamids);
      KeptOfBoth(front, [last], keys, wamids);
      assert events == front + [last];
      if Targets(last, keys, wamids) {
        assert [last][1..] == [];
        PicksNoMore(at, front, last, Kept(front, keys, wamids), keys, wamids);
      } else {
        OneKept(last, keys, wamids);
        PicksOneMore(at, front, last, Kept(front, keys, wamids), keys, wamids);
        at := at + [|front|];
      }
    }
  }

  lemma PhoneIsAmong(events: seq<Event>, k: nat)
    requires k < |events|
    ensures events[k].phone.Some? ==> events[k].phone.value in PhonesOf(events)
  {
  }

  lemma {:induction false} FirstPhoneIsOne(events: seq<Event>)
    ensures FirstPhone(events).Some? ==> FirstPhone(events).value in PhonesOf(events)
    ensures FirstPhone(events).None? ==> PhonesOf(events) == {}
  {
    if events != [] {
      FirstPhoneIsOne(events[1..]);
      forall p | p in PhonesOf(events[1..]) ensures p in PhonesOf(events) {
        var k :| 0 <= k < |events| - 1 && events[1..][k].phone == Some(p);
        assert events[k + 1].phone == Some(p);
      }
      if FirstPhone(events).None? {
        assert FirstPhone(events[1..]).None?;
        forall k | 0 <= k < |events| ensures events[k].phone.None? {
          if k > 0 {
            PhoneIsAmong(events[1..], k - 1);
          }
        }
      }
    }
  }

  /** Some event came through `phone`, and none through another. */
  ghost predicate AllThrough(events: seq<Event>, phone: string) {
    && (exists k :: 0 <= k < |events| && events[k].phone == Some(phone))
    && (forall k :: 0 <= k < |events| && events[k].phone.Some? ==> events[k].phone.value == phone)
  }

  lemma OnlyPhoneMeans(events: seq<Event>, phone: string)
    ensures OnlyPhone(events) == Some(phone) <==> AllThrough(events, phone)
  {
    var phones := PhonesOf(events);
    FirstPhoneIsOne(events);
    if AllThrough(events, phone) {
      assert phones == {phone};
    }
    if OnlyPhone(events) == Some(phone) {
      forall p | p in phones ensures p == phone {
        Subset({p, phone}, phones);
      }
      assert phone in phones;
      forall k | 0 <= k < |events| && events[k].phone.Some? ensures events[k].phone.value == phone {
        assert events[k].phone.value in phones;
      }
    }
  }

  /** A batch survives an erasure in at most one piece: whole exactly when no event of it is the customer's,
      gone exactly when it is still pending and every event is, redacted when it had ended and every event
      is. A mixed one holds the other events, in their order, under the phone they came through if it is
      one. Nothing else of it changes. */
  ghost predicate Rewritten(row: Delivery, one: seq<Delivery>, keys: set<Customer>, wamids: set<string>) {
    var all := row.events != [] && forall k :: 0 <= k < |row.events| ==> Targets(row.events[k], keys, wamids);
    && |one| <= 1
    && (one == [row] <==> NoneTargeted(row.events, keys, wamids))
    && (one == [] <==> row.pending && all)
    && (one != [] ==>
          && one[0].pending == row.pending
          && OthersInOrder(row.events, one[0].events, keys, wamids)
          && one[0].redacted == (row.redacted || all)
          && (all ==> one[0].events == [] && one[0].phone == row.phone)
          && (one != [row] && !all ==>
                forall phone :: one[0].phone == Some(phone) <==> AllThrough(one[0].events, phone)))
  }

  lemma RewriteDropsTheCustomerOnly(row: Delivery, keys: set<Customer>, wamids: set<string>)
    ensures Rewritten(row, KeptDelivery(row, keys, wamids), keys, wamids)
  {
    var kept := Kept(row.events, keys, wamids);
    KeptIsUntargeted(row.events, keys, wamids);
    var at := KeptAreTheOthers(row.events, keys, wamids);
    assert OthersInOrder(row.events, kept, keys, wamids);
    if |kept| != |row.events| {
      if kept == [] {
        assert at == [];
      } else {
        assert !Targets(row.events[at[0]], keys, wamids);
        forall phone ensures OnlyPhone(kept) == Some(phone) <==> AllThrough(kept, phone) {
          OnlyPhoneMeans(kept, phone);
        }
      }
    }
  }

  // ---- What an erasure leaves, table by table -------------------------------------------------

  predicate InRows(rows: seq<Addressed>, names: set<Customer>, id: string) {
    exists k :: 0 <= k < |rows| && rows[k].recipient in names && rows[k].wamid == Some(id)
  }

  /** A message of the customer: one that an event bearing a name is, or that a row for a name was sent as. */
  ghost predicate MessageOf(s: Tables, names: set<Customer>, id: string) {
    || (exists ev: Event :: IsRetained(s, ev) && NamesAny(ev, names) && ev.messageId == Some(id))
    || InRows(s.outbound, names, id) || InRows(s.recipients, names, id) || InRows(s.scheduled, names, id)
  }

  lemma {:induction false} EventWamidsMean(events: seq<Event>, keys: set<Customer>, id: string)
    ensures id in EventWamids(events, keys) <==> exists ev :: ev in events && NamesAny(ev, keys) && ev.messageId == Some(id)
  {
    if events != [] {
      EventWamidsMean(events[1..], keys, id);
      assert forall ev :: ev in events <==> ev == events[0] || ev in events[1..];
    }
  }

  lemma {:induction false} RowWamidsMean(rows: seq<Addressed>, keys: set<Customer>, id: string)
    ensures id in RowWamids(rows, keys) <==> InRows(rows, keys, id)
  {
    if rows != [] {
      RowWamidsMean(rows[1..], keys, id);
      if k :| 0 < k < |rows| && rows[k].recipient in keys && rows[k].wamid == Some(id) {
        assert rows[1..][k - 1] == rows[k];
      }
    }
  }

  lemma WamidsMean(s: Tables, keys: set<Customer>, id: string)
    ensures id in Wamids(s, keys) <==> MessageOf(s, keys, id)
  {
    EventWamidsMean(Retained(s), keys, id);
    forall ev: Event ensures ev in Retained(s) <==> IsRetained(s, ev) {
      FlatHasThem(s.held, ev);
    }
    RowWamidsMean(s.outbound, keys, id);
    RowWamidsMean(s.recipients, keys, id);
    RowWamidsMean(s.scheduled, keys, id);
  }

  /** No status callback is left for any message of the customer, so none is replayed onto a later send. */
  lemma NoCallbackOfTheCustomer(s: Tables, key: Customer, names: set<Customer>)
    requires LeastNames(s, key, names) && CallbacksMatch(s.inbound)
    ensures forall c :: c in Erase(s, key).store.callbacks ==> !MessageOf(s, names, c.id)
  {
    NamesAreTheKeys(s, key, names);
    NoCallbackLeft(s.inbound, names, Wamids(s, names));
    forall c | c in Erase(s, key).store.callbacks ensures !MessageOf(s, names, c.id) {
      WamidsMean(s, names, c.id);
    }
  }

  /** `kept` are the rows for nobody of `names`, all of them, in their order. */
  ghost predicate OtherRows(rows: seq<Addressed>, kept: seq<Addressed>, names: set<Customer>) {
    exists at: seq<nat> :: PicksRows(at, rows, kept, names)
  }

  ghost predicate PicksRows(at: seq<nat>, rows: seq<Addressed>, kept: seq<Addressed>, names: set<Customer>) {
    && |at| == |kept|
    && (forall i, j :: 0 <= i < j < |at| ==> at[i] < at[j])
    && (forall i :: 0 <= i < |at| ==> at[i] < |rows| && kept[i] == rows[at[i]] && rows[at[i]].recipient !in names)
    && (forall k :: 0 <= k < |rows| && rows[k].recipient !in names ==> k in at)
  }

  lemma {:induction false} KeptRowsOfBoth(a: seq<Addressed>, b: seq<Addressed>, names: set<Customer>)
    ensures KeptRows(a + b, names) == KeptRows(a, names) + KeptRows(b, names)
  {
    if a == [] {
      assert a + b == b;
    } else {
      KeptRowsOfBoth(a[1..], b, names);
      assert (a + b)[1..] == a[1..] + b;
      Regroup([a[0]], KeptRows(a[1..], names), KeptRows(b, names));
    }
  }

  lemma PicksOneRowMore(at: seq<nat>, front: seq<Addressed>, row: Addressed, kept: seq<Addressed>, names: set<Customer>)
    requires PicksRows(at, front, kept, names) && row.recipient !in names
    ensures PicksRows(at + [|front|], front + [row], kept + [row], names)
  {
    var all := at + [|front|];
    forall k | 0 <= k < |front| + 1 && (front + [row])[k].recipient !in names ensures k in all {
      if k < |front| {
        assert k in at;
      } else {
        assert all[|at|] == k;
      }
    }
  }

  lemma PicksNoRowMore(at: seq<nat>, front: seq<Addressed>, row: Addressed, kept: seq<Addressed>, names: set<Customer>)
    requires PicksRows(at, front, kept, names) && row.recipient in names
    ensures PicksRows(at, front + [row], kept, names)
  {
  }

  lemma KeptRowsWithLast(front: seq<Addressed>, last: Addressed, names: set<Customer>)
    ensures KeptRows(front + [last], names) == if last.recipient in names then KeptRows(front, names) else KeptRows(front, names) + [last]
  {
    KeptRowsOfBoth(front, [last], names);
    assert [last][1..] == [];
  }

  lemma {:induction false} PickedRows(rows: seq<Addressed>, names: set<Customer>) returns (at: seq<nat>)
    ensures PicksRows(at, rows, KeptRows(rows, names), names)
  {
    if rows == [] {
      at := [];
    } else {
      var front, last := rows[..|rows| - 1], rows[|rows| - 1];
      at := PickedRows(front, names);
      KeptRowsWithLast(front, last, names);
      if last.recipient in names {
        PicksNoRowMore(at, front, last, KeptRows(front, names), names);
      } else {
        PicksOneRowMore(at, front, last, KeptRows(front, names), names);
        at := at + [|front|];
      }
      assert rows == front + [last];
    }
  }

  lemma KeptAreTheOtherRows(rows: seq<Addressed>, names: set<Customer>)
    ensures OtherRows(rows, KeptRows(rows, names), names)
  {
    var at := PickedRows(rows, names);
  }

  /** What is left of a batch held for release: the others' events, in their order, and no empty batch. */
  ghost predicate BatchRewritten(batch: seq<Event>, one: seq<seq<Event>>, keys: set<Customer>, wamids: set<string>) {
    if batch != [] && (forall k :: 0 <= k < |batch| ==> Targets(batch[k], keys, wamids)) then one == []
    else |one| == 1 && OthersInOrder(batch, one[0], keys, wamids)
  }

  lemma BatchKeepsTheOthers(batch: seq<Event>, keys: set<Customer>, wamids: set<string>)
    ensures BatchRewritten(batch, KeptBatch(batch, keys, wamids), keys, wamids)
  {
    var kept := Kept(batch, keys, wamids);
    KeptIsUntargeted(batch, keys, wamids);
    var at := KeptAreTheOthers(batch, keys, wamids);
    assert OthersInOrder(batch, kept, keys, wamids);
    if kept == [] {
      assert at == [];
    } else {
      assert !Targets(batch[at[0]], keys, wamids);
    }
  }

  function Joined<T>(pieces: seq<seq<T>>): seq<T> {
    if pieces == [] then [] else pieces[0] + Joined(pieces[1..])
  }

  /** Row by row, in their order. */
  ghost predicate HeldRewritten(held: seq<seq<Event>>, held': seq<seq<Event>>, keys: set<Customer>, wamids: set<string>) {
    exists pieces :: |pieces| == |held| && Joined(pieces) == held'
                     && forall i :: 0 <= i < |held| ==> BatchRewritten(held[i], pieces[i], keys, wamids)
  }

  ghost predicate DeliveriesRewritten(rows: seq<Delivery>, rows': seq<Delivery>, keys: set<Customer>, wamids: set<string>) {
    exists pieces :: |pieces| == |rows| && Joined(pieces) == rows'
                     && forall i :: 0 <= i < |rows| ==> Rewritten(rows[i], pieces[i], keys, wamids)
  }

  lemma {:induction false} HeldAreRewritten(held: seq<seq<Event>>, keys: set<Customer>, wamids: set<string>)
    returns (pieces: seq<seq<seq<Event>>>)
    ensures |pieces| == |held| && Joined(pieces) == KeptHeld(held, keys, wamids)
    ensures forall i :: 0 <= i < |held| ==> BatchRewritten(held[i], pieces[i], keys, wamids)
  {
    if held == [] {
      pieces := [];
    } else {
      var rest := HeldAreRewritten(held[1..], keys, wamids);
      BatchKeepsTheOthers(held[0], keys, wamids);
      pieces := [KeptBatch(held[0], keys, wamids)] + rest;
      assert pieces[1..] == rest;
    }
  }

  lemma {:induction false} DeliveriesAreRewritten(rows: seq<Delivery>, keys: set<Customer>, wamids: set<string>)
    returns (pieces: seq<seq<Delivery>>)
    ensures |pieces| == |rows| && Joined(pieces) == KeptDeliveries(rows, keys, wamids)
    ensures forall i :: 0 <= i < |rows| ==> Rewritten(rows[i], pieces[i], keys, wamids)
  {
    if rows == [] {
      pieces := [];
    } else {
      var rest := DeliveriesAreRewritten(rows[1..], keys, wamids);
      RewriteDropsTheCustomerOnly(rows[0], keys, wamids);
      pieces := [KeptDelivery(rows[0], keys, wamids)] + rest;
      assert pieces[1..] == rest;
    }
  }

  /** The customer a message of the customer is filed under. */
  predicate FiledAs(s: Store, wamids: set<string>, c: Customer) {
    exists id :: id in wamids && id in s.messages && s.messages[id].customer == c
  }

  /** From the conversation store go what is filed under a name, or under whom a message of the customer is filed,
      and the pairs with a name in them; all the rest stays as it is. */
  ghost predicate StoreErased(s: Store, s': Store, names: set<Customer>, wamids: set<string>) {
    && s'.media == s.media
    && (forall id :: id in s'.messages <==>
          id in s.messages && s.messages[id].customer !in names && !FiledAs(s, wamids, s.messages[id].customer))
    && (forall id :: id in s'.messages ==> s'.messages[id] == s.messages[id])
    && (forall c :: c in s'.contacts <==> c in s.contacts && c !in names && !FiledAs(s, wamids, c))
    && (forall c :: c in s'.contacts ==> s'.contacts[c] == s.contacts[c])
    && (forall u :: u in s'.pairs <==> u in s.pairs && Bsuid(u) !in names && Phone(s.pairs[u]) !in names)
    && (forall u :: u in s'.pairs ==> s'.pairs[u] == s.pairs[u])
  }

  /** An erasure, table by table: of every table stays what is neither the customer's nor about a message of the
      customer, in its order, and the names are recorded. */
  ghost predicate ErasureDone(s: Tables, s': Tables, names: set<Customer>, wamids: set<string>) {
    && (forall id :: id in wamids <==> MessageOf(s, names, id))
    && s'.erased == s.erased + names
    && OthersInOrder(s.inbound, s'.inbound, names, wamids) && s'.store.callbacks == CallbacksIn(s'.inbound)
    && HeldRewritten(s.held, s'.held, names, wamids)
    && DeliveriesRewritten(s.deliveries, s'.deliveries, names, wamids)
    && OtherRows(s.outbound, s'.outbound, names)
    && OtherRows(s.recipients, s'.recipients, names)
    && OtherRows(s.scheduled, s'.scheduled, names)
    && StoreErased(s.store, s'.store, names, wamids)
  }

  lemma StoreIsErased(s: Store, keys: set<Customer>, wamids: set<string>, inbound: seq<Event>)
    ensures StoreErased(s, ErasedStore(s, keys, wamids, inbound), keys, wamids)
  {
    forall c ensures c in StoreKeys(s, keys, wamids) <==> c in keys || FiledAs(s, wamids, c) {
    }
  }

  /** Main result: the names erased are the customer's and no others, and of every other table and customer
      everything stays. */
  lemma OnlyTheCustomerGoes(s: Tables, key: Customer, names: set<Customer>)
    requires LeastNames(s, key, names)
    ensures ErasureDone(s, Erase(s, key), names, Wamids(s, names))
  {
    NamesAreTheKeys(s, key, names);
    var wamids := Wamids(s, names);
    forall id ensures id in wamids <==> MessageOf(s, names, id) {
      WamidsMean(s, names, id);
    }
    var at := KeptAreTheOthers(s.inbound, names, wamids);
    var held := HeldAreRewritten(s.held, names, wamids);
    var deliveries := DeliveriesAreRewritten(s.deliveries, names, wamids);
    KeptAreTheOtherRows(s.outbound, names);
    KeptAreTheOtherRows(s.recipients, names);
    KeptAreTheOtherRows(s.scheduled, names);
    StoreIsErased(s.store, names, wamids, Kept(s.inbound, names, wamids));
  }

  // ---- A second run -------------------------------------------------------------------------

  lemma {:induction false} NobodyNamed(events: seq<Event>, keys: set<Customer>)
    requires NoEventNames(events, keys)
    ensures OnePass(keys, events) == keys && EventWamids(events, keys) == {}
  {
    if events != [] {
      assert forall k :: 0 <= k < |events| - 1 ==> events[1..][k] == events[k + 1];
      NobodyNamed(events[1..], keys);
    }
  }

  lemma {:induction false} NoRowNamed(rows: seq<Addressed>, keys: set<Customer>)
    requires NoRowNames(rows, keys)
    ensures RowWamids(rows, keys) == {} && KeptRows(rows, keys) == rows
  {
    if rows != [] {
      assert forall k :: 0 <= k < |rows| - 1 ==> rows[1..][k] == rows[k + 1];
      NoRowNamed(rows[1..], keys);
    }
  }

  lemma {:induction false} FlatNamesNobody(batches: seq<seq<Event>>, keys: set<Customer>)
    requires HeldClear(batches, keys)
    ensures NoEventNames(Flat(batches), keys)
  {
    if batches != [] {
      assert batches[0] in batches && HeldClear(batches[1..], keys);
      FlatNamesNobody(batches[1..], keys);
    }
  }

  lemma {:induction false} HeldStays(batches: seq<seq<Event>>, keys: set<Customer>)
    requires HeldClear(batches, keys)
    ensures KeptHeld(batches, keys, {}) == batches
  {
    if batches != [] {
      assert batches[0] in batches && HeldClear(batches[1..], keys);
      HeldStays(batches[1..], keys);
      KeptIsUntargeted(batches[0], keys, {});
    }
  }

  lemma {:induction false} DeliveriesStay(rows: seq<Delivery>, keys: set<Customer>)
    requires DeliveriesClear(rows, keys)
    ensures KeptDeliveries(rows, keys, {}) == rows
  {
    if rows != [] {
      assert rows[0] in rows && DeliveriesClear(rows[1..], keys);
      DeliveriesStay(rows[1..], keys);
      KeptIsUntargeted(rows[0].events, keys, {});
    }
  }

  lemma StoreStays(s: Tables, key: Customer)
    requires Gone(s, {key})
    ensures ErasedStore(s.store, {key}, {}, s.inbound) == s.store
    ensures FirstKeys(s.store.pairs, key) == {key}
  {
    var e := ErasedStore(s.store, {key}, {}, s.inbound);
    assert StoreKeys(s.store, {key}, {}) == {key};
    assert e.pairs == s.store.pairs && e.messages == s.store.messages && e.contacts == s.store.contacts;
  }

  /** Erasing a customer no row names changes nothing. */
  lemma NothingToErase(s: Tables, key: Customer)
    requires Gone(s, {key})
    ensures Erase(s, key) == s && Keys(s, key) == {key}
  {
    StoreStays(s, key);
    FlatNamesNobody(s.held, {key});
    NobodyNamed(Retained(s), {key});
    NoRowNamed(s.outbound, {key});
    NoRowNamed(s.recipients, {key});
    NoRowNamed(s.scheduled, {key});
    KeptIsUntargeted(s.inbound, {key}, {});
    HeldStays(s.held, {key});
    DeliveriesStay(s.deliveries, {key});
  }

  lemma GoneForFewer(s: Tables, keys: set<Customer>, key: Customer)
    requires Gone(s, keys) && key in keys
    ensures Gone(s, {key})
  {
    assert forall ev: Event :: NamesAny(ev, {key}) ==> NamesAny(ev, keys) by {
      forall ev: Event | NamesAny(ev, {key}) ensures NamesAny(ev, keys) { assert key in ev.names * keys; }
    }
  }

  /** Main result: a second run deletes nothing, and neither does one by any other name of the customer. */
  lemma SecondErasureDeletesNothing(s: Tables, key: Customer, names: set<Customer>, again: Customer)
    requires LeastNames(s, key, names) && again in names
    ensures Erase(Erase(s, key), again) == Erase(s, key)
  {
    NamesAreTheKeys(s, key, names);
    KeysAreGone(s, key);
    GoneForFewer(Erase(s, key), Keys(s, key), again);
    NothingToErase(Erase(s, key), again);
  }

  // ---- In place -----------------------------------------------------------------------------

  /** The names a customer is known by: passes over the retained events until none is added. */
  method CollectKeys(first: set<Customer>, events: seq<Event>) returns (keys: set<Customer>)
    requires first != {}
    ensures keys == Closure(first, events)
  {
    keys := first;
    var size := 0;
    NotEmpty(first);
    while size != |keys|
      invariant first <= keys <= first + AllPairKeys(events)
      invariant Closure(first, events) == Closure(keys, events)
      invariant size == |keys| ==> OnePass(keys, events) == keys
      decreases |(keys + AllPairKeys(events)) - keys|, if size != |keys| then 1 else 0
    {
      ghost var before := keys;
      size := |keys|;
      var i := 0;
      while i < |events|
        invariant i <= |events| && before <= keys <= before + AllPairKeys(events)
        invariant OnePass(before, events) == OnePass(keys, events[i..])
      {
        assert events[i..][0] == events[i] && events[i..][1..] == events[i + 1..];
        PairKeysIn(events, i);
        if NamesAny(events[i], keys) {
          keys := keys + PairKeys(events[i].pair);
        }
        i := i + 1;
      }
      assert keys == OnePass(before, events);
      if |keys| == size {
        SameSize(before, keys);
      } else {
        SmallerRest(before, keys, AllPairKeys(events));
      }
    }
  }

  lemma NotEmpty(a: set<Customer>)
    requires a != {}
    ensures |a| > 0
  {
  }

  lemma SameSize(a: set<Customer>, b: set<Customer>)
    requires a <= b && |a| == |b|
    ensures a == b
  {
    if x :| x in b && x !in a {
      StrictlySmaller(a, b, x);
    }
  }

  /** The events of a batch an erasure keeps. */
  method KeepEvents(events: seq<Event>, keys: set<Customer>, wamids: set<string>) returns (kept: seq<Event>)
    ensures kept == Kept(events, keys, wamids)
  {
    kept := [];
    for i := 0 to |events|
      invariant kept == Kept(events[..i], keys, wamids)
    {
      KeptOfBoth(events[..i], [events[i]], keys, wamids);
      assert events[..i + 1] == events[..i] + [events[i]];
      if Targets(events[i], keys, wamids) {
        assert Kept([events[i]], keys, wamids) == [] by { assert [events[i]][1..] == []; }
      } else {
        OneKept(events[i], keys, wamids);
        kept := kept + [events[i]];
      }
    }
    assert events[..|events|] == events;
  }

  lemma Regroup<T>(a: seq<T>, b: seq<T>, c: seq<T>)
    ensures a + (b + c) == a + b + c
  {
  }

  /** Deletes the rows for any of `keys`, adding the messages they are about to `wamids`. */
  method DeleteRows(rows: seq<Addressed>, keys: set<Customer>, known: set<string>) returns (kept: seq<Addressed>, wamids: set<string>)
    ensures kept == KeptRows(rows, keys) && wamids == known + RowWamids(rows, keys)
  {
    kept, wamids := [], known;
    var i := 0;
    while i < |rows|
      invariant i <= |rows|
      invariant kept + KeptRows(rows[i..], keys) == KeptRows(rows, keys)
      invariant wamids + RowWamids(rows[i..], keys) == known + RowWamids(rows, keys)
    {
      var row, rest := rows[i], rows[i + 1..];
      RowsFrom(rows, i, keys);
      if row.recipient in keys {
        wamids := wamids + IdSet(row.wamid);
      } else {
        Regroup(kept, [row], KeptRows(rest, keys));
        kept := kept + [row];
      }
      i := i + 1;
    }
  }

  lemma RowsFrom(rows: seq<Addressed>, i: nat, keys: set<Customer>)
    requires i < |rows|
    ensures KeptRows(rows[i..], keys) == (if rows[i].recipient in keys then [] else [rows[i]]) + KeptRows(rows[i + 1..], keys)
    ensures RowWamids(rows[i..], keys) == (if rows[i].recipient in keys then IdSet(rows[i].wamid) else {}) + RowWamids(rows[i + 1..], keys)
  {
    assert rows[i..][0] == rows[i] && rows[i..][1..] == rows[i + 1..];
  }

  /** The messages that events naming the customer are. */
  method CollectWamids(events: seq<Event>, keys: set<Customer>) returns (wamids: set<string>)
    ensures wamids == EventWamids(events, keys)
  {
    wamids := {};
    var i := 0;
    while i < |events|
      invariant i <= |events|
      invariant wamids + EventWamids(events[i..], keys) == EventWamids(events, keys)
    {
      assert events[i..][0] == events[i] && events[i..][1..] == events[i + 1..];
      if NamesAny(events[i], keys) {
        wamids := wamids + IdSet(events[i].messageId);
      }
      i := i + 1;
    }
  }

  lemma Regrouped(a: set<string>, b: set<string>, c: set<string>, d: set<string>)
    ensures a + b + c + d == ((a + b) + c) + d
  {
  }

  /** Everything the customer is called, every message of the customer, and the rows of the others' sends. */
  method DeleteSends(s: Tables, key: Customer)
    returns (keys: set<Customer>, wamids: set<string>, outbound: seq<Addressed>, recipients: seq<Addressed>, scheduled: seq<Addressed>)
    ensures keys == Keys(s, key) && wamids == Wamids(s, keys)
    ensures outbound == KeptRows(s.outbound, keys) && recipients == KeptRows(s.recipients, keys) && scheduled == KeptRows(s.scheduled, keys)
  {
    var first := FirstKeys(s.store.pairs, key);
    assert key in first;
    keys := CollectKeys(first, Retained(s));
    wamids := CollectWamids(Retained(s), keys);
    Regrouped(wamids, RowWamids(s.outbound, keys), RowWamids(s.recipients, keys), RowWamids(s.scheduled, keys));
    outbound, wamids := DeleteRows(s.outbound, keys, wamids);
    recipients, wamids := DeleteRows(s.recipients, keys, wamids);
    scheduled, wamids := DeleteRows(s.scheduled, keys, wamids);
  }

  /** Rewrites one delivery batch: none when it goes. */
  method RewriteDelivery(row: Delivery, keys: set<Customer>, wamids: set<string>) returns (one: seq<Delivery>)
    ensures one == KeptDelivery(row, keys, wamids)
  {
    var events := KeepEvents(row.events, keys, wamids);
    if |events| == |row.events| {
      one := [row];
    } else if events != [] {
      one := [row.(phone := OnlyPhone(events), events := events)];
    } else if row.pending {
      one := [];
    } else {
      one := [row.(redacted := true, events := [])];
    }
  }

  method RewriteDeliveries(rows: seq<Delivery>, keys: set<Customer>, wamids: set<string>) returns (kept: seq<Delivery>)
    ensures kept == KeptDeliveries(rows, keys, wamids)
  {
    kept := [];
    var i := 0;
    while i < |rows|
      invariant i <= |rows|
      invariant kept + KeptDeliveries(rows[i..], keys, wamids) == KeptDeliveries(rows, keys, wamids)
    {
      assert rows[i..][0] == rows[i] && rows[i..][1..] == rows[i + 1..];
      var one := RewriteDelivery(rows[i], keys, wamids);
      Regroup(kept, one, KeptDeliveries(rows[i + 1..], keys, wamids));
      kept := kept + one;
      i := i + 1;
    }
  }

  /** Rewrites one held batch: none when nothing of it is kept. */
  method RewriteBatch(batch: seq<Event>, keys: set<Customer>, wamids: set<string>) returns (one: seq<seq<Event>>)
    ensures one == KeptBatch(batch, keys, wamids)
  {
    var events := KeepEvents(batch, keys, wamids);
    one := if |events| == |batch| then [batch] else if events != [] then [events] else [];
  }

  method RewriteHeld(batches: seq<seq<Event>>, keys: set<Customer>, wamids: set<string>) returns (kept: seq<seq<Event>>)
    ensures kept == KeptHeld(batches, keys, wamids)
  {
    kept := [];
    var i := 0;
    while i < |batches|
      invariant i <= |batches|
      invariant kept + KeptHeld(batches[i..], keys, wamids) == KeptHeld(batches, keys, wamids)
    {
      assert batches[i..][0] == batches[i] && batches[i..][1..] == batches[i + 1..];
      var one := RewriteBatch(batches[i], keys, wamids);
      Regroup(kept, one, KeptHeld(batches[i + 1..], keys, wamids));
      kept := kept + one;
      i := i + 1;
    }
  }

  /** What the deletes and rewrites of one erasure leave. */
  method EraseTables(s: Tables, key: Customer) returns (left: Tables)
    ensures left == Erase(s, key)
  {
    var keys, wamids, outbound, recipients, scheduled := DeleteSends(s, key);
    var inbound := KeepEvents(s.inbound, keys, wamids);
    var deliveries := RewriteDeliveries(s.deliveries, keys, wamids);
    var held := RewriteHeld(s.held, keys, wamids);
    left := Tables(inbound, held, deliveries, outbound, recipients, scheduled,
                   ErasedStore(s.store, keys, wamids, inbound), s.erased + keys);
  }

  class Gateway {
    var inbound: seq<Event>
    var held: seq<seq<Event>>
    var deliveries: seq<Delivery>
    var outbound: seq<Addressed>
    var recipients: seq<Addressed>
    var scheduled: seq<Addressed>
    var store: Store
    var erased: set<Customer>

    ghost function View(): Tables
      reads this
    {
      Tables(inbound, held, deliveries, outbound, recipients, scheduled, store, erased)
    }

    constructor ()
      ensures View() == Tables([], [], [], [], [], [], EmptyStore, {})
    {
      inbound, held, deliveries, outbound, recipients, scheduled := [], [], [], [], [], [];
      store, erased := EmptyStore, {};
    }

    /** Removes every trace of the customer named by `key`. */
    method EraseByPhone(key: Customer) returns (ghost names: set<Customer>, ghost about: set<string>)
      modifies this
      ensures LeastNames(old(View()), key, names)
      ensures Gone(View(), names) && ErasureDone(old(View()), View(), names, about)
      ensures View() == Erase(old(View()), key)
    {
      ghost var before := View();
      names := Keys(before, key);
      about := Wamids(before, names);
      KeysAreTheNames(before, key);
      NothingNamesTheCustomer(before, key, names);
      OnlyTheCustomerGoes(before, key, names);
      DeleteEverything(key);
    }

    method DeleteEverything(key: Customer)
      modifies this
      ensures View() == Erase(old(View()), key)
    {
      var left := EraseTables(Tables(inbound, held, deliveries, outbound, recipients, scheduled, store, erased), key);
      inbound, held, deliveries := left.inbound, left.held, left.deliveries;
      outbound, recipients, scheduled := left.outbound, left.recipients, left.scheduled;
      store, erased := left.store, left.erased;
    }
  }
}
