/** What each write of the conversation store leaves in its tables, row by row, and what that comes to over runs:
    a live message reads as it first came (apps/gateway/src/gateway.ts:2200-2347, 2636-2792). */
module ConversationWrites {
  import opened Core
  import opened Conversations

  /** The conversation of `c` is `key`: a BSUID with a known phone is filed under the phone, anybody else as named. */
  predicate FiledUnder(s: Store, c: Customer, key: Customer) {
    if c.Bsuid? && c.user in s.pairs then key == Phone(s.pairs[c.user]) else key == c
  }

  /** Who, what, when and where: everything a message says. */
  predicate Says(row: Message, m: Message) {
    && row.direction == m.direction && row.body == m.body && row.at == m.at
    && row.targetId == m.targetId && row.phoneNumberId == m.phoneNumberId
  }

  /** The contact after live traffic: a name given fills an empty one or replaces a live one, and no other. */
  predicate ContactNamed(s: Store, s': Store, key: Customer, name: Option<string>, now: Time) {
    && s'.contacts - {key} == s.contacts - {key} && key in s'.contacts && s'.contacts[key].updatedAt == now
    && (key !in s.contacts ==> s'.contacts[key].name == name && s'.contacts[key].source.FromLive?)
    && (key in s.contacts ==>
          if name.Some? && (s.contacts[key].name.None? || s.contacts[key].source.FromLive?)
          then s'.contacts[key].name == name && s'.contacts[key].source.FromLive?
          else s'.contacts[key].name == s.contacts[key].name && s'.contacts[key].source == s.contacts[key].source)
  }

  /** A live message is stored as it came unless it is there already, over a history row with its id too. */
  ghost predicate MessageStored(s: Store, s': Store, id: string, m: Message, now: Time, name: Option<string>) {
    && s'.pairs == s.pairs && s'.media == s.media && s'.callbacks == s.callbacks
    && s'.messages - {id} == s.messages - {id} && id in s'.messages
    && (forall key :: FiledUnder(s, m.customer, key) ==> ContactNamed(s, s', key, name, now))
    && var row := s'.messages[id];
       if id in s.messages && s.messages[id].origin.Live? then row == s.messages[id]
       else
         && row.origin.Live? && Says(row, m) && row.status == m.status && FiledUnder(s, m.customer, row.customer)
         && (id !in s.messages ==> row.createdAt == now && row.error.None?)
         && (id in s.messages ==> row.createdAt == s.messages[id].createdAt && row.error == s.messages[id].error)
  }

  /** A callback moves the message it names from no status or sent to its own, and from delivered to read; it
      never moves what a customer wrote. */
  predicate StatusMoved(s: Store, s': Store, c: Callback) {
    if c.id in s.messages && !s.messages[c.id].direction.In?
       && (s.messages[c.id].status in {None, Some(Sent)} || (s.messages[c.id].status == Some(Delivered) && c.status.Read?))
    then
      && s' == s.(messages := s'.messages) && s'.messages - {c.id} == s.messages - {c.id} && c.id in s'.messages
      && s'.messages[c.id].status == Some(c.status)
      && s'.messages[c.id].error == (if c.error.Some? then c.error else s.messages[c.id].error)
      && s'.messages[c.id] == s.messages[c.id].(status := s'.messages[c.id].status, error := s'.messages[c.id].error)
    else s' == s
  }

  /** A pair not known yet: what was under the BSUID is under the phone, and the phone's contact keeps what it has. */
  ghost predicate PairLearned(s: Store, s': Store, pair: Option<Pair>) {
    if pair.None? || (pair.value.user in s.pairs && s.pairs[pair.value.user] == pair.value.phone) then s' == s
    else
      var phone, bsuid := Phone(pair.value.phone), Bsuid(pair.value.user);
      && s'.pairs == s.pairs[pair.value.user := pair.value.phone] && s'.media == s.media && s'.callbacks == s.callbacks
      && s'.messages.Keys == s.messages.Keys
      && (forall id :: id in s.messages ==>
            s'.messages[id] == if s.messages[id].customer == bsuid then s.messages[id].(customer := phone) else s.messages[id])
      && ContactsMerged(s.contacts, s'.contacts, phone, bsuid)
  }

  ghost predicate ContactsMerged(was: map<Customer, Contact>, now: map<Customer, Contact>, phone: Customer, bsuid: Customer) {
    && bsuid !in now && now - {phone} == was - {phone, bsuid}
    && (phone in now <==> phone in was || bsuid in was)
    && (phone in was && bsuid !in was ==> now[phone] == was[phone])
    && (phone !in was && bsuid in was ==> now[phone] == was[bsuid])
    && (phone in was && bsuid in was ==>
          && now[phone].name == (if was[phone].name.Some? then was[phone].name else was[bsuid].name)
          && now[phone].source == (if was[phone].name.None? && was[bsuid].name.Some? then was[bsuid].source else was[phone].source)
          && now[phone].updatedAt == Max(was[phone].updatedAt, was[bsuid].updatedAt))
  }

  /** A history row still waiting for its media. */
  predicate Waiting(s: Store, id: string) {
    id in s.messages && s.messages[id].origin.History? && s.messages[id].body.kind == "media_placeholder"
  }

  /** A media webhook that names no customer fills its placeholder, or is kept until the placeholder comes. */
  predicate MediaStored(s: Store, s': Store, id: string, m: HistoryMessage) {
    if m.body.content.None? then s' == s
    else if Waiting(s, id) then
      && s' == s.(messages := s'.messages) && s'.messages - {id} == s.messages - {id} && id in s'.messages
      && s'.messages[id] == s.messages[id].(body := m.body)
    else
      && s' == s.(media := s'.media) && s'.media - {id} == s.media - {id} && id in s'.media && s'.media[id] == Media(m.at, m.body)
  }

  /** The body a history message is stored with: a placeholder takes the media that waits for it. */
  predicate BodyOf(s: Store, id: string, m: HistoryMessage, body: Body) {
    if m.body.kind == "media_placeholder" && id in s.media then body == s.media[id].body else body == m.body
  }

  /** A history message of a customer is stored as it came when its id is new; when it is not, only a
      placeholder's content is completed. */
  ghost predicate HistoryRowStored(s: Store, s': Store, id: string, m: HistoryMessage, customer: Customer, now: Time) {
    && s'.messages - {id} == s.messages - {id} && id in s'.messages
    && var row := s'.messages[id];
       if id !in s.messages then
         && row.origin.History? && row.direction == m.direction && row.at == m.at && row.status == m.status && row.error.None?
         && row.targetId == m.targetId && row.phoneNumberId == m.phoneNumberId && row.createdAt == now
         && FiledUnder(s, customer, row.customer) && BodyOf(s, id, m, row.body)
       else
         && row == s.messages[id].(body := row.body)
         && exists body :: BodyOf(s, id, m, body)
              && row.body == if Waiting(s, id) && body.content.Some? then body else s.messages[id].body
  }

  /** Its customer has a contact, and the media that waited for it is used up. */
  ghost predicate HistoryListed(s: Store, s': Store, id: string, m: HistoryMessage, customer: Customer, now: Time) {
    && s'.pairs == s.pairs && s'.callbacks == s.callbacks
    && s'.media == (if m.body.kind == "media_placeholder" then s.media - {id} else s.media)
    && forall key :: FiledUnder(s, customer, key) ==>
         && key in s'.contacts && s'.contacts - {key} == s.contacts - {key}
         && s'.contacts[key] == if key in s.contacts then s.contacts[key] else Contact(None, FromHistory, now)
  }

  /** A history message older than the workspace's window, or of an erased customer, is not stored. */
  ghost predicate HistoryStored(s: Store, s': Store, id: string, m: HistoryMessage, erased: set<Customer>, now: Time, cutoff: Option<Time>) {
    if cutoff.Some? && m.at < cutoff.value then s' == s
    else if m.customer.None? then MediaStored(s, s', id, m)
    else if m.customer.value in erased then s' == s
    else HistoryRowStored(s, s', id, m, m.customer.value, now) && HistoryListed(s, s', id, m, m.customer.value, now)
  }

  /** An address-book entry: a name overrides any other, and a removal takes the name and keeps the contact. */
  ghost predicate ContactApplied(s: Store, s': Store, customer: Customer, name: Option<string>, remove: bool, now: Time) {
    && s' == s.(contacts := s'.contacts)
    && forall key :: FiledUnder(s, customer, key) ==>
         && s'.contacts - {key} == s.contacts - {key}
         && (if remove then
               && (key in s'.contacts <==> key in s.contacts)
               && (key in s.contacts ==> s'.contacts[key] == Contact(None, s.contacts[key].source, now))
             else key in s'.contacts && s'.contacts[key] == Contact(name, FromAppState, now))
  }

  /** What a rebuild starts from: live messages as they are, no other, no media that waits, no contact that only
      history named, and no address-book name. */
  ghost predicate ReprocessDone(s: Store, s': Store) {
    && s'.pairs == s.pairs && s'.callbacks == s.callbacks && s'.media == map[]
    && (forall id :: id in s'.messages <==> id in s.messages && s.messages[id].origin.Live?)
    && (forall id :: id in s'.messages ==> s'.messages[id] == s.messages[id])
    && (forall c :: c in s'.contacts <==>
          c in s.contacts && (s.contacts[c].source.FromHistory? ==> exists id :: id in s'.messages && s'.messages[id].customer == c))
    && (forall c :: c in s'.contacts ==>
          s'.contacts[c] == if s.contacts[c].source.FromAppState? then Contact(None, FromAppState, s.contacts[c].updatedAt) else s.contacts[c])
  }

  /** A sync item: nothing of a pair or a contact that names an erased customer, else its pair and then itself. */
  ghost predicate ItemApplied(s: Store, s': Store, item: Item, erased: set<Customer>, now: Time, cutoff: Option<Time>) {
    match item
    case HistoryItem(id, m, pair) =>
      if pair.Some? && (Phone(pair.value.phone) in erased || Bsuid(pair.value.user) in erased) then s' == s
      else exists mid :: PairLearned(s, mid, pair) && HistoryStored(mid, s', id, m, erased, now, cutoff)
    case ContactItem(customer, name, remove, pair) =>
      if customer in erased || (pair.Some? && (Phone(pair.value.phone) in erased || Bsuid(pair.value.user) in erased)) then s' == s
      else exists mid :: PairLearned(s, mid, pair) && ContactApplied(mid, s', customer, name, remove, now)
    case OtherItem => s' == s
  }

  /** A webhook's event: a message with its pair and name, or a status, which is also kept once for later. */
  ghost predicate EventIngested(s: Store, s': Store, ev: Event, now: Time) {
    match ev
    case NewMessage(id, m, pair, name) => exists mid :: PairLearned(s, mid, pair) && MessageStored(mid, s', id, m, now, name)
    case StatusUpdate(c) =>
      var known := exists k :: 0 <= k < |s.callbacks| && s.callbacks[k].id == c.id && s.callbacks[k].status == c.status;
      StatusMoved(s.(callbacks := if known then s.callbacks else s.callbacks + [c]), s', c)
  }

  // ---- Each write keeps its word --------------------------------------------------------------

  lemma StoreKeepsItsWord(s: Store, id: string, m: Message, now: Time, name: Option<string>)
    ensures MessageStored(s, StoreMessage(s, id, m, now, name), id, m, now, name)
  {
  }

  lemma CallbackKeepsItsWord(s: Store, c: Callback)
    ensures StatusMoved(s, ApplyCallback(s, c), c)
  {
  }

  lemma LearnKeepsItsWord(s: Store, pair: Option<Pair>)
    ensures PairLearned(s, LearnPair(s, pair), pair)
  {
  }

  lemma HistoryRowKeepsItsWord(s: Store, id: string, m: HistoryMessage, customer: Customer, now: Time)
    ensures HistoryRowStored(s, StoreHistoryRow(s, id, m, customer, now), id, m, customer, now)
  {
    var body := if TakesMedia(s, id, m) then s.media[id].body else m.body;
    assert BodyOf(s, id, m, body);
  }

  lemma HistoryListsItsCustomer(s: Store, id: string, m: HistoryMessage, customer: Customer, now: Time)
    ensures HistoryListed(s, StoreHistoryRow(s, id, m, customer, now), id, m, customer, now)
  {
    assert m.body.kind == PLACEHOLDER && id !in s.media ==> s.media - {id} == s.media;
  }

  lemma HistoryKeepsItsWord(s: Store, id: string, m: HistoryMessage, erased: set<Customer>, now: Time, cutoff: Option<Time>)
    ensures HistoryStored(s, StoreHistoryMessage(s, id, m, erased, now, cutoff), id, m, erased, now, cutoff)
  {
    if m.customer.Some? {
      HistoryRowKeepsItsWord(s, id, m, m.customer.value, now);
      HistoryListsItsCustomer(s, id, m, m.customer.value, now);
    }
  }

  lemma ContactKeepsItsWord(s: Store, customer: Customer, name: Option<string>, remove: bool, now: Time)
    ensures ContactApplied(s, ApplyContact(s, customer, name, remove, now), customer, name, remove, now)
  {
  }

  lemma ReprocessKeepsItsWord(s: Store)
    ensures ReprocessDone(s, Reprocess(s))
  {
  }

  lemma ItemKeepsItsWord(s: Store, item: Item, erased: set<Customer>, now: Time, cutoff: Option<Time>)
    ensures ItemApplied(s, ApplyItem(s, item, erased, now, cutoff), item, erased, now, cutoff)
  {
    if !item.OtherItem? {
      var mid := LearnPair(s, item.pair);
      LearnKeepsItsWord(s, item.pair);
      if item.HistoryItem? {
        HistoryKeepsItsWord(mid, item.id, item.message, erased, now, cutoff);
      } else {
        ContactKeepsItsWord(mid, item.customer, item.name, item.remove, now);
      }
    }
  }

  lemma IngestKeepsItsWord(s: Store, ev: Event, now: Time)
    ensures EventIngested(s, Ingest(s, ev, now), ev, now)
  {
    match ev
    case NewMessage(id, m, pair, name) =>
      LearnKeepsItsWord(s, pair);
      StoreKeepsItsWord(LearnPair(s, pair), id, m, now, name);
    case StatusUpdate(c) =>
      CallbackKeepsItsWord(s, c);
      CallbackKeepsItsWord(s.(callbacks := s.callbacks + [c]), c);
  }

  // ---- Over runs: a live message reads as it first came ---------------------------------------

  /** The live message a step brings under `id`: an event's, or a send's. */
  function Brings(step: Step, id: string): Option<Message> {
    match step
    case CIngest(NewMessage(i, m, _, _), _) => if i == id then Some(m) else None
    case CSend(i, m, _) => if i == id then Some(m.(direction := Out)) else None
    case _ => None
  }

  /** The first of them in the run. */
  ghost function FirstLive(steps: seq<Step>, id: string): Option<Message>
    decreases |steps|
  {
    if steps == [] then None
    else if Brings(steps[0], id).Some? then Brings(steps[0], id)
    else FirstLive(steps[1..], id)
  }

  /** The row under `id` is live, and says what `m` says; without an `m` it is not live. */
  ghost predicate ReadsAs(s: Store, id: string, first: Option<Message>) {
    if first.None? then !HasLive(s, id) else HasLive(s, id) && Says(s.messages[id], first.value)
  }

  /** Nothing but its customer, its status and its error moves on a live row, and no row becomes live. */
  predicate LivesOn(s: Store, s': Store, id: string) {
    && (HasLive(s', id) <==> HasLive(s, id))
    && (HasLive(s, id) ==> Says(s'.messages[id], s.messages[id]))
  }

  lemma LearnLivesOn(s: Store, pair: Option<Pair>, id: string)
    ensures LivesOn(s, LearnPair(s, pair), id)
  {
    LearnKeepsItsWord(s, pair);
  }

  lemma {:induction false} ReplayLivesOn(s: Store, callbacks: seq<Callback>, id: string)
    ensures LivesOn(s, ApplyCallbacks(s, callbacks), id)
    decreases |callbacks|
  {
    if callbacks != [] {
      CallbackKeepsItsWord(s, callbacks[0]);
      ReplayLivesOn(ApplyCallback(s, callbacks[0]), callbacks[1..], id);
    }
  }

  lemma HistoryLivesOn(s: Store, i: string, m: HistoryMessage, erased: set<Customer>, now: Time, cutoff: Option<Time>, id: string)
    ensures LivesOn(s, StoreHistoryMessage(s, i, m, erased, now, cutoff), id)
  {
    HistoryKeepsItsWord(s, i, m, erased, now, cutoff);
    var s' := StoreHistoryMessage(s, i, m, erased, now, cutoff);
    if i != id {
      assert id in s.messages <==> id in s.messages - {i};
      assert id in s'.messages <==> id in s'.messages - {i};
    }
  }

  lemma ItemLivesOn(s: Store, item: Item, erased: set<Customer>, now: Time, cutoff: Option<Time>, id: string)
    ensures LivesOn(s, ApplyItem(s, item, erased, now, cutoff), id)
  {
    if item.HistoryItem? {
      LearnLivesOn(s, item.pair, id);
      HistoryLivesOn(LearnPair(s, item.pair), item.id, item.message, erased, now, cutoff, id);
    } else if item.ContactItem? {
      LearnLivesOn(s, item.pair, id);
    }
  }

  lemma StoreReads(s: Store, id: string, m: Message, now: Time, name: Option<string>, other: string)
    ensures var s' := StoreMessage(s, id, m, now, name);
            && (id != other || HasLive(s, id) ==> LivesOn(s, s', other))
            && (!HasLive(s, id) ==> HasLive(s', id) && Says(s'.messages[id], m))
  {
    StoreKeepsItsWord(s, id, m, now, name);
    if id != other {
      var s' := StoreMessage(s, id, m, now, name);
      assert other in s.messages <==> other in s.messages - {id};
      assert other in s'.messages <==> other in s'.messages - {id};
    }
  }

  lemma IngestReads(s: Store, ev: Event, now: Time, id: string)
    ensures var s', m := Ingest(s, ev, now), Brings(CIngest(ev, now), id);
            if m.Some? && !HasLive(s, id) then HasLive(s', id) && Says(s'.messages[id], m.value) else LivesOn(s, s', id)
  {
    match ev
    case NewMessage(i, m, pair, name) =>
      LearnLivesOn(s, pair, id);
      StoreReads(LearnPair(s, pair), i, m, now, name, id);
    case StatusUpdate(c) =>
      CallbackKeepsItsWord(s, c);
      CallbackKeepsItsWord(s.(callbacks := s.callbacks + [c]), c);
  }

  lemma SendReads(s: Store, i: string, m: Message, now: Time, id: string)
    ensures var s' := LogOutbound(s, i, m, now);
            if i == id && !HasLive(s, id) then HasLive(s', id) && Says(s'.messages[id], m.(direction := Out)) else LivesOn(s, s', id)
  {
    var stored := StoreMessage(s, i, SentRow(m), now, None);
    StoreReads(s, i, SentRow(m), now, None, id);
    ReplayLivesOn(stored, CallbacksFor(s.callbacks, i), id);
  }

  lemma StepReads(s: Store, step: Step, id: string, first: Option<Message>)
    requires ReadsAs(s, id, first)
    ensures ReadsAs(Apply(s, step), id, if first.Some? then first else Brings(step, id))
  {
    match step
    case CIngest(ev, now) => IngestReads(s, ev, now, id);
    case CSend(i, m, now) => SendReads(s, i, m, now, id);
    case CItem(item, erased, cutoff, now) => ItemLivesOn(s, item, erased, now, cutoff, id);
    case CReprocess => ReprocessKeepsItsWord(s);
  }

  lemma {:induction false} RunReads(s: Store, steps: seq<Step>, id: string, first: Option<Message>)
    requires ReadsAs(s, id, first)
    ensures ReadsAs(After(s, steps), id, if first.Some? then first else FirstLive(steps, id))
    decreases |steps|
  {
    if steps != [] {
      StepReads(s, steps[0], id, first);
      RunReads(Apply(s, steps[0]), steps[1..], id, if first.Some? then first else Brings(steps[0], id));
    }
  }

  /** Main result: over every run, whatever history, rebuilds, merges and callbacks come between, a message is
      live exactly when an event or a send brought one with its id, and its type, text, content, direction,
      time, target and number are those of the first that did. */
  lemma LiveMessagesReadAsTheyCame(steps: seq<Step>, id: string)
    ensures var s, first := After(EmptyStore, steps), FirstLive(steps, id);
            && (HasLive(s, id) <==> first.Some?)
            && (first.Some? ==> Says(s.messages[id], first.value))
  {
    RunReads(EmptyStore, steps, id, None);
  }
}
