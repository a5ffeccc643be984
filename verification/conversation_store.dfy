/** The conversation tables, written in place by the gateway object. */
module ConversationStore {
  import opened Core
  import opened Conversations
  import opened ConversationWrites

  /** A webhook's events, one after the other. */
  function IngestAll(s: Store, events: seq<Event>, now: Time): Store
    decreases |events|
  {
    if events == [] then s else IngestAll(Ingest(s, events[0], now), events[1..], now)
  }

  lemma {:induction false} IngestLast(s: Store, events: seq<Event>, ev: Event, now: Time)
    ensures IngestAll(s, events + [ev], now) == Ingest(IngestAll(s, events, now), ev, now)
    decreases |events|
  {
    if events == [] {
      assert events + [ev] == [ev] && [ev][1..] == [];
      assert IngestAll(s, [ev], now) == IngestAll(Ingest(s, ev, now), [], now);
    } else {
      IngestLast(Ingest(s, events[0], now), events[1..], ev, now);
      assert (events + [ev])[1..] == events[1..] + [ev];
    }
  }

  /** The webhook's events as steps of a run, in its order. */
  function StepsOf(events: seq<Event>, now: Time): (steps: seq<Step>)
    ensures |steps| == |events|
    ensures forall i :: 0 <= i < |events| ==> steps[i] == CIngest(events[i], now)
  {
    seq(|events|, i requires 0 <= i < |events| => CIngest(events[i], now))
  }

  lemma {:induction false} IngestsAreARun(s: Store, events: seq<Event>, now: Time)
    ensures IngestAll(s, events, now) == After(s, StepsOf(events, now))
    decreases |events|
  {
    if events != [] {
      IngestsAreARun(Ingest(s, events[0], now), events[1..], now);
      assert StepsOf(events, now)[1..] == StepsOf(events[1..], now);
    }
  }

  lemma {:induction false} ReplayLast(s: Store, callbacks: seq<Callback>, c: Callback)
    ensures ApplyCallbacks(s, callbacks + [c]) == ApplyCallback(ApplyCallbacks(s, callbacks), c)
    decreases |callbacks|
  {
    if callbacks == [] {
      assert callbacks + [c] == [c] && [c][1..] == [];
      assert ApplyCallbacks(s, [c]) == ApplyCallbacks(ApplyCallback(s, c), []);
    } else {
      ReplayLast(ApplyCallback(s, callbacks[0]), callbacks[1..], c);
      assert (callbacks + [c])[1..] == callbacks[1..] + [c];
    }
  }

  class Tables {
    var messages: map<string, Message>
    var contacts: map<Customer, Contact>
    var pairs: map<string, string>
    var media: map<string, Media>
    var callbacks: seq<Callback>

    ghost function Table(): Store
      reads this
    {
      Store(messages, contacts, pairs, media, callbacks)
    }

    /** No message or contact under a BSUID whose phone is known. */
    ghost predicate Valid()
      reads this
    {
      Merged(Table())
    }

    constructor ()
      ensures Valid() && Table() == EmptyStore
    {
      messages, contacts, pairs, media, callbacks := map[], map[], map[], map[], [];
    }

    /** Records that a BSUID belongs to a phone, and moves what is stored under the BSUID to the phone. */
    method LearnCustomerPair(pair: Option<Pair>)
      requires Valid()
      modifies this
      ensures Valid() && Table() == LearnPair(old(Table()), pair)
      ensures PairLearned(old(Table()), Table(), pair)
    {
      ghost var before := Table();
      LearnKeepsMerged(before, pair);
      LearnKeepsItsWord(before, pair);
      if pair.None? {
        return;
      }
      var user, digits := pair.value.user, pair.value.phone;
      if user in pairs && pairs[user] == digits {
        return;
      }
      pairs := pairs[user := digits];
      messages := Refiled(messages, Bsuid(user), Phone(digits));
      if Bsuid(user) in contacts {
        var bsuid := contacts[Bsuid(user)];
        contacts := contacts - {Bsuid(user)};
        contacts := contacts[Phone(digits) := if Phone(digits) in contacts then MergedContact(contacts[Phone(digits)], bsuid) else bsuid];
      }
    }

    /** Stores a live message once and names its contact. */
    method StoreLiveMessage(id: string, m: Message, now: Time, name: Option<string>)
      requires Valid()
      modifies this
      ensures Valid() && Table() == StoreMessage(old(Table()), id, m, now, name)
      ensures MessageStored(old(Table()), Table(), id, m, now, name)
    {
      StoreKeepsItsWord(Table(), id, m, now, name);
      StoreKeepsMerged(Table(), id, m, now, name);
      var key := CustomerKey(pairs, m.customer);
      if id !in messages {
        messages := messages[id := m.(customer := key, origin := Live, createdAt := now, error := None)];
      } else if messages[id].origin.History? {
        messages := messages[id := m.(customer := key, origin := Live, createdAt := messages[id].createdAt, error := messages[id].error)];
      }
      contacts := contacts[key := NamedContact(contacts, key, name, now)];
    }

    /** Moves the message a callback names, forward only. */
    method MoveStatus(c: Callback)
      requires Valid()
      modifies this`messages
      ensures Valid() && Table() == ApplyCallback(old(Table()), c)
      ensures StatusMoved(old(Table()), Table(), c)
    {
      CallbackKeepsItsWord(Table(), c);
      CallbackKeepsMerged(Table(), c);
      if c.id in messages && !messages[c.id].direction.In? {
        var m := messages[c.id];
        if m.status.None? || m.status == Some(Sent) || (m.status == Some(Delivered) && c.status == Read) {
          messages := messages[c.id := m.(status := Some(c.status), error := if c.error.Some? then c.error else m.error)];
        }
      }
    }

    /** Stores and applies a webhook's events, repeated ones too. */
    method IngestEvents(events: seq<Event>, now: Time)
      requires Valid()
      modifies this
      ensures Valid() && Table() == After(old(Table()), StepsOf(events, now))
    {
      ghost var before := Table();
      IngestsAreARun(before, events, now);
      for i := 0 to |events|
        invariant Valid() && Table() == IngestAll(before, events[..i], now)
      {
        IngestLast(before, events[..i], events[i], now);
        assert events[..i + 1] == events[..i] + [events[i]];
        IngestEvent(events[i], now);
      }
      assert events[..|events|] == events;
    }

    method IngestEvent(ev: Event, now: Time)
      requires Valid()
      modifies this
      ensures Valid() && Table() == Ingest(old(Table()), ev, now)
      ensures EventIngested(old(Table()), Table(), ev, now)
    {
      IngestKeepsItsWord(Table(), ev, now);
      match ev
      case NewMessage(id, m, pair, name) =>
        LearnCustomerPair(pair);
        StoreLiveMessage(id, m, now, name);
      case StatusUpdate(c) =>
        if !(exists k :: 0 <= k < |callbacks| && callbacks[k].id == c.id && callbacks[k].status == c.status) {
          callbacks := callbacks + [c];
        }
        MoveStatus(c);
    }

    /** Logs a send Meta accepted, and replays the callbacks that overtook it in the order they came. */
    method LogSent(id: string, m: Message, now: Time)
      requires Valid()
      modifies this
      ensures Valid() && Table() == LogOutbound(old(Table()), id, m, now)
    {
      ghost var before := Table();
      StoreLiveMessage(id, SentRow(m), now, None);
      ghost var stored := Table();
      for i := 0 to |callbacks|
        invariant Valid() && callbacks == before.callbacks
        invariant Table() == ApplyCallbacks(stored, CallbacksFor(callbacks[..i], id))
      {
        OneMoreCallback(callbacks[..i], callbacks[i], id);
        assert callbacks[..i + 1] == callbacks[..i] + [callbacks[i]];
        if callbacks[i].id == id {
          ReplayLast(stored, CallbacksFor(callbacks[..i], id), callbacks[i]);
          MoveStatus(callbacks[i]);
        }
      }
      assert callbacks[..|callbacks|] == callbacks;
    }

    /** Applies one history message: see `storeHistoryMessage`. */
    method StoreHistory(id: string, m: HistoryMessage, erased: set<Customer>, now: Time, cutoff: Option<Time>)
      requires Valid()
      modifies this
      ensures Valid() && Table() == StoreHistoryMessage(old(Table()), id, m, erased, now, cutoff)
      ensures HistoryStored(old(Table()), Table(), id, m, erased, now, cutoff)
    {
      HistoryKeepsItsWord(Table(), id, m, erased, now, cutoff);
      HistoryKeepsMerged(Table(), id, m, erased, now, cutoff);
      WriteHistory(id, m, erased, now, cutoff);
    }

    method WriteHistory(id: string, m: HistoryMessage, erased: set<Customer>, now: Time, cutoff: Option<Time>)
      modifies this
      ensures Table() == StoreHistoryMessage(old(Table()), id, m, erased, now, cutoff)
    {
      if cutoff.Some? && m.at < cutoff.value {
        return;
      }
      if m.customer.None? {
        if m.body.content.None? {
          return;
        }
        if IsPlaceholder(messages, id) {
          messages := messages[id := messages[id].(body := m.body)];
        } else {
          media := media[id := Media(m.at, m.body)];
        }
        return;
      }
      if m.customer.value in erased {
        return;
      }
      var key := CustomerKey(pairs, m.customer.value);
      var body := m.body;
      if m.body.kind == PLACEHOLDER && id in media {
        body := media[id].body;
        media := media - {id};
      }
      if id !in messages {
        messages := messages[id := HistoryRow(m, key, body, now)];
      } else if IsPlaceholder(messages, id) && body.content.Some? {
        messages := messages[id := messages[id].(body := body)];
      }
      if key !in contacts {
        contacts := contacts[key := Contact(None, FromHistory, now)];
      }
    }

    /** Drops what processing the raw payloads wrote, before it is written again. */
    method ReprocessSyncPayloads()
      requires Valid()
      modifies this
      ensures Valid() && Table() == Reprocess(old(Table()))
      ensures ReprocessDone(old(Table()), Table())
    {
      ReprocessKeepsItsWord(Table());
      StepKeepsMerged(Table(), CReprocess);
      DropProcessed();
    }

    method DropProcessed()
      modifies this
      ensures Table() == Reprocess(old(Table()))
    {
      messages := map id | id in messages && messages[id].origin.Live? :: messages[id];
      media := map[];
      var customers := set id | id in messages :: messages[id].customer;
      contacts := map c | c in contacts && (!contacts[c].source.FromHistory? || c in customers) ::
        if contacts[c].source.FromAppState? then contacts[c].(name := None) else contacts[c];
    }

    /** Applies one item of a sync payload. */
    method ApplySyncItem(item: Item, erased: set<Customer>, now: Time, cutoff: Option<Time>)
      requires Valid()
      modifies this
      ensures Valid() && Table() == ApplyItem(old(Table()), item, erased, now, cutoff)
      ensures ItemApplied(old(Table()), Table(), item, erased, now, cutoff)
    {
      ItemKeepsItsWord(Table(), item, erased, now, cutoff);
      match item
      case HistoryItem(id, m, pair) =>
        if !NamesErased(pair, erased) {
          LearnCustomerPair(pair);
          StoreHistory(id, m, erased, now, cutoff);
        }
      case ContactItem(customer, name, remove, pair) =>
        if !NamesErased(pair, erased) && customer !in erased {
          LearnCustomerPair(pair);
          ContactKeepsMerged(Table(), customer, name, remove, now);
          var key := CustomerKey(pairs, customer);
          if !remove {
            contacts := contacts[key := Contact(name, FromAppState, now)];
          } else if key in contacts {
            contacts := contacts[key := contacts[key].(name := None, updatedAt := now)];
          }
        }
      case OtherItem =>
    }
  }

  lemma {:induction false} OneMoreCallback(callbacks: seq<Callback>, c: Callback, id: string)
    ensures CallbacksFor(callbacks + [c], id) == if c.id == id then CallbacksFor(callbacks, id) + [c] else CallbacksFor(callbacks, id)
  {
    if callbacks == [] {
      assert callbacks + [c] == [c] && [c][1..] == [];
    } else {
      OneMoreCallback(callbacks[1..], c, id);
      assert (callbacks + [c])[1..] == callbacks[1..] + [c];
      var first := if callbacks[0].id == id then [callbacks[0]] else [];
      assert first + (CallbacksFor(callbacks[1..], id) + [c]) == (first + CallbacksFor(callbacks[1..], id)) + [c];
    }
  }
}
