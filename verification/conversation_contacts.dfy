/** The contacts beside the conversations. */
module ConversationContacts {
  import opened Core
  import opened Conversations
  import History = ConversationHistory

  /** Every message's customer has a contact. */
  ghost predicate Listed(s: Store) {
    forall id :: id in s.messages ==> s.messages[id].customer in s.contacts
  }

  lemma LearnKeepsListed(s: Store, pair: Option<Pair>)
    requires Listed(s)
    ensures Listed(LearnPair(s, pair))
  {
  }

  lemma StoreKeepsListed(s: Store, id: string, m: Message, now: Time, name: Option<string>)
    requires Listed(s)
    ensures Listed(StoreMessage(s, id, m, now, name))
  {
  }

  lemma HistoryKeepsListed(s: Store, id: string, m: HistoryMessage, erased: set<Customer>, now: Time, cutoff: Option<Time>)
    requires Listed(s)
    ensures Listed(StoreHistoryMessage(s, id, m, erased, now, cutoff))
  {
  }

  lemma {:induction false} ReplayKeepsListed(s: Store, callbacks: seq<Callback>)
    requires Listed(s)
    ensures Listed(ApplyCallbacks(s, callbacks))
    decreases |callbacks|
  {
    if callbacks != [] {
      ReplayKeepsListed(ApplyCallback(s, callbacks[0]), callbacks[1..]);
    }
  }

  lemma ItemKeepsListed(s: Store, item: Item, erased: set<Customer>, now: Time, cutoff: Option<Time>)
    requires Listed(s)
    ensures Listed(ApplyItem(s, item, erased, now, cutoff))
  {
    if !item.OtherItem? {
      LearnKeepsListed(s, item.pair);
      if item.HistoryItem? {
        HistoryKeepsListed(LearnPair(s, item.pair), item.id, item.message, erased, now, cutoff);
      }
    }
  }

  lemma StepKeepsListed(s: Store, step: Step)
    requires Listed(s)
    ensures Listed(Apply(s, step))
  {
    match step
    case CIngest(NewMessage(id, m, pair, name), now) =>
      LearnKeepsListed(s, pair);
      StoreKeepsListed(LearnPair(s, pair), id, m, now, name);
    case CIngest(StatusUpdate(c), _) =>
    case CSend(id, m, now) =>
      StoreKeepsListed(s, id, SentRow(m), now, None);
      ReplayKeepsListed(StoreMessage(s, id, SentRow(m), now, None), CallbacksFor(s.callbacks, id));
    case CItem(item, erased, cutoff, now) => ItemKeepsListed(s, item, erased, now, cutoff);
    case CReprocess =>
  }

  lemma {:induction false} RunKeepsListed(s: Store, steps: seq<Step>)
    requires Listed(s)
    ensures Listed(After(s, steps))
    decreases |steps|
  {
    if steps != [] {
      StepKeepsListed(s, steps[0]);
      RunKeepsListed(Apply(s, steps[0]), steps[1..]);
    }
  }

  /** In every reachable state, merges and rebuilds included, each conversation has its contact. */
  lemma EveryConversationHasAContact(steps: seq<Step>)
    ensures Listed(After(EmptyStore, steps))
  {
    RunKeepsListed(EmptyStore, steps);
  }

  /** A name from the business's address book. */
  predicate FromAddressBook(s: Store, c: Customer) {
    c in s.contacts && s.contacts[c].source.FromAppState? && s.contacts[c].name.Some?
  }

  lemma LearnKeepsName(s: Store, pair: Option<Pair>, c: Customer)
    requires FromAddressBook(s, c) && (pair.Some? ==> c != Bsuid(pair.value.user))
    ensures FromAddressBook(LearnPair(s, pair), c) && LearnPair(s, pair).contacts[c].name == s.contacts[c].name
  {
  }

  /** Live traffic never replaces an address-book name; only the address book itself, or a merge into the
      customer's phone, which keeps a name the phone has, says otherwise. */
  lemma AddressBookNamesStay(s: Store, step: Step, c: Customer)
    requires FromAddressBook(s, c) && (step.CIngest? || step.CSend?)
    requires History.PairOf(step).Some? ==> c != Bsuid(History.PairOf(step).value.user)
    ensures FromAddressBook(Apply(s, step), c) && Apply(s, step).contacts[c].name == s.contacts[c].name
  {
    match step
    case CIngest(NewMessage(_, _, pair, _), _) => LearnKeepsName(s, pair, c);
    case CIngest(StatusUpdate(_), _) =>
    case CSend(id, m, now) => ReplayContacts(StoreMessage(s, id, SentRow(m), now, None), CallbacksFor(s.callbacks, id));
  }

  lemma {:induction false} ReplayContacts(s: Store, callbacks: seq<Callback>)
    ensures ApplyCallbacks(s, callbacks).contacts == s.contacts
    decreases |callbacks|
  {
    if callbacks != [] {
      ReplayContacts(ApplyCallback(s, callbacks[0]), callbacks[1..]);
    }
  }
}
