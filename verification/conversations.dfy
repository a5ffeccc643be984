/** The conversation store: live events, sends, status callbacks and history items writing the same
    tables in any order (apps/gateway/src/gateway.ts `ingest`, `writeConversation`, `logOutbound`,
    `learnCustomerPair`, `storeMessage`, `storeHistoryMessage`, `applySyncItem`, `reprocessSyncPayloads`).

    Events and items are taken as typed values (apps/gateway/src/conversations.ts, history.ts). A
    customer is named by a phone number or by the BSUID Meta gives while it withholds the number. */
module Conversations {
  import opened Core

  datatype Customer = Phone(digits: string) | Bsuid(user: string)

  /** One customer named both ways. */
  datatype Pair = Pair(phone: string, user: string)

  datatype Direction = In | Out | Echo

  datatype Origin = Live | History

  datatype Status = Sent | Delivered | Read | Failed

  datatype Body = Body(kind: string, text: Option<string>, content: Option<string>)

  const PLACEHOLDER := "media_placeholder"

  datatype Message = Message(
    customer: Customer,
    direction: Direction,
    origin: Origin,
    body: Body,
    at: Time,
    status: Option<Status>,
    error: Option<string>,
    targetId: Option<string>,
    phoneNumberId: Option<string>,
    createdAt: Time)

  datatype Source = FromLive | FromHistory | FromAppState

  datatype Contact = Contact(name: Option<string>, source: Source, updatedAt: Time)

  /** A history media webhook that names no customer, waiting for its placeholder. */
  datatype Media = Media(at: Time, body: Body)

  datatype Callback = Callback(id: string, status: Status, error: Option<string>)

  /** A history message as read from a payload; no customer means a media webhook that names none. */
  datatype HistoryMessage = HistoryMessage(
    customer: Option<Customer>,
    direction: Direction,
    body: Body,
    at: Time,
    status: Option<Status>,
    targetId: Option<string>,
    phoneNumberId: Option<string>)

  /** `callbacks` are the stored status events, one per message and status. */
  datatype Store = Store(
    messages: map<string, Message>,
    contacts: map<Customer, Contact>,
    pairs: map<string, string>,
    media: map<string, Media>,
    callbacks: seq<Callback>)

  const EmptyStore: Store := Store(map[], map[], map[], map[], [])

  // ---- Customers ----------------------------------------------------------------------------

  predicate Mapped(pairs: map<string, string>, c: Customer) { c.Bsuid? && c.user in pairs }

  /** The conversation of a customer. */
  function CustomerKey(pairs: map<string, string>, c: Customer): Customer {
    if Mapped(pairs, c) then Phone(pairs[c.user]) else c
  }

  function Refiled(messages: map<string, Message>, from: Customer, to: Customer): (moved: map<string, Message>)
    ensures moved.Keys == messages.Keys
  {
    map id | id in messages :: if messages[id].customer == from then messages[id].(customer := to) else messages[id]
  }

  /** The phone's contact keeps its name; the BSUID's fills it only when it has none. */
  function MergedContact(phone: Contact, bsuid: Contact): Contact {
    Contact(if phone.name.Some? then phone.name else bsuid.name,
            if phone.name.None? && bsuid.name.Some? then bsuid.source else phone.source,
            Max(phone.updatedAt, bsuid.updatedAt))
  }

  function MergedContacts(contacts: map<Customer, Contact>, phone: Customer, bsuid: Customer): map<Customer, Contact>
    requires phone != bsuid
  {
    if bsuid !in contacts then contacts
    else (contacts - {bsuid})[phone := if phone in contacts then MergedContact(contacts[phone], contacts[bsuid]) else contacts[bsuid]]
  }

  function LearnPair(s: Store, pair: Option<Pair>): Store {
    if pair.None? || (pair.value.user in s.pairs && s.pairs[pair.value.user] == pair.value.phone) then s
    else
      var phone, bsuid := Phone(pair.value.phone), Bsuid(pair.value.user);
      s.(pairs := s.pairs[pair.value.user := pair.value.phone],
         messages := Refiled(s.messages, bsuid, phone),
         contacts := MergedContacts(s.contacts, phone, bsuid))
  }

  // ---- Live messages ------------------------------------------------------------------------

  /** A live profile name fills a contact with no name, or replaces an earlier live one. */
  function NamedContact(contacts: map<Customer, Contact>, key: Customer, name: Option<string>, now: Time): Contact {
    if key !in contacts then Contact(name, FromLive, now)
    else
      var c := contacts[key];
      if name.Some? && (c.name.None? || c.source.FromLive?) then Contact(name, FromLive, now) else c.(updatedAt := now)
  }

  predicate HasLive(s: Store, id: string) { id in s.messages && s.messages[id].origin.Live? }

  /** A live message is stored once, and takes the place of a history row with its id. */
  function StoreMessage(s: Store, id: string, m: Message, now: Time, name: Option<string>): Store {
    var key := CustomerKey(s.pairs, m.customer);
    var row := m.(customer := key, origin := Live, createdAt := now, error := None);
    s.(messages := if id !in s.messages then s.messages[id := row]
                   else if HasLive(s, id) then s.messages
                   else s.messages[id := row.(createdAt := s.messages[id].createdAt, error := s.messages[id].error)],
       contacts := s.contacts[key := NamedContact(s.contacts, key, name, now)])
  }

  /** Statuses only move forward; `failed` replaces a send Meta had not confirmed, and ends it. */
  predicate Moves(from: Option<Status>, to: Status) {
    from.None? || from == Some(Sent) || (from == Some(Delivered) && to == Read)
  }

  predicate Takes(s: Store, c: Callback) {
    c.id in s.messages && !s.messages[c.id].direction.In? && Moves(s.messages[c.id].status, c.status)
  }

  function ApplyCallback(s: Store, c: Callback): Store {
    if !Takes(s, c) then s
    else
      var m := s.messages[c.id];
      s.(messages := s.messages[c.id := m.(status := Some(c.status), error := if c.error.Some? then c.error else m.error)])
  }

  function ApplyCallbacks(s: Store, callbacks: seq<Callback>): Store
    decreases |callbacks|
  {
    if callbacks == [] then s else ApplyCallbacks(ApplyCallback(s, callbacks[0]), callbacks[1..])
  }

  datatype Event =
    | NewMessage(id: string, message: Message, pair: Option<Pair>, name: Option<string>)
    | StatusUpdate(callback: Callback)

  function WriteConversation(s: Store, ev: Event, now: Time): Store {
    match ev
    case NewMessage(id, message, pair, name) => StoreMessage(LearnPair(s, pair), id, message, now, name)
    case StatusUpdate(c) => ApplyCallback(s, c)
  }

  predicate IsStored(callbacks: seq<Callback>, c: Callback) {
    exists k :: 0 <= k < |callbacks| && callbacks[k].id == c.id && callbacks[k].status == c.status
  }

  /** A repeated webhook is stored once and still applied. */
  function Ingest(s: Store, ev: Event, now: Time): Store {
    var stored := if ev.StatusUpdate? && !IsStored(s.callbacks, ev.callback)
                  then s.(callbacks := s.callbacks + [ev.callback]) else s;
    WriteConversation(stored, ev, now)
  }

  function CallbacksFor(callbacks: seq<Callback>, id: string): seq<Callback> {
    if callbacks == [] then []
    else (if callbacks[0].id == id then [callbacks[0]] else []) + CallbacksFor(callbacks[1..], id)
  }

  function SentRow(m: Message): Message { m.(direction := Out, status := Some(Sent)) }

  /** A send that Meta accepted. Callbacks that overtook it are replayed in the order they came. */
  function LogOutbound(s: Store, id: string, m: Message, now: Time): Store {
    ApplyCallbacks(StoreMessage(s, id, SentRow(m), now, None), CallbacksFor(s.callbacks, id))
  }

  // ---- History ------------------------------------------------------------------------------

  datatype Item =
    | HistoryItem(id: string, message: HistoryMessage, pair: Option<Pair>)
    | ContactItem(customer: Customer, name: Option<string>, remove: bool, pair: Option<Pair>)
    | OtherItem

  predicate IsPlaceholder(messages: map<string, Message>, id: string) {
    id in messages && messages[id].origin.History? && messages[id].body.kind == PLACEHOLDER
  }

  /** A media webhook that names no customer completes its placeholder, or waits for it. */
  function StoreMedia(s: Store, id: string, m: HistoryMessage): Store {
    if m.body.content.None? then s
    else if IsPlaceholder(s.messages, id) then s.(messages := s.messages[id := s.messages[id].(body := m.body)])
    else s.(media := s.media[id := Media(m.at, m.body)])
  }

  function HistoryRow(m: HistoryMessage, customer: Customer, body: Body, now: Time): Message {
    Message(customer, m.direction, History, body, m.at, m.status, None, m.targetId, m.phoneNumberId, now)
  }

  predicate TakesMedia(s: Store, id: string, m: HistoryMessage) { m.body.kind == PLACEHOLDER && id in s.media }

  /** A stored row keeps its content, except that a placeholder takes the content of its media. */
  function StoreHistoryRow(s: Store, id: string, m: HistoryMessage, customer: Customer, now: Time): Store {
    var key := CustomerKey(s.pairs, customer);
    var body := if TakesMedia(s, id, m) then s.media[id].body else m.body;
    s.(media := if TakesMedia(s, id, m) then s.media - {id} else s.media,
       messages := if id !in s.messages then s.messages[id := HistoryRow(m, key, body, now)]
                   else if IsPlaceholder(s.messages, id) && body.content.Some? then s.messages[id := s.messages[id].(body := body)]
                   else s.messages,
       contacts := if key in s.contacts then s.contacts else s.contacts[key := Contact(None, FromHistory, now)])
  }

  function StoreHistoryMessage(s: Store, id: string, m: HistoryMessage, erased: set<Customer>, now: Time, cutoff: Option<Time>): Store {
    if cutoff.Some? && m.at < cutoff.value then s
    else if m.customer.None? then StoreMedia(s, id, m)
    else if m.customer.value in erased then s
    else StoreHistoryRow(s, id, m, m.customer.value, now)
  }

  predicate NamesErased(pair: Option<Pair>, erased: set<Customer>) {
    pair.Some? && (Phone(pair.value.phone) in erased || Bsuid(pair.value.user) in erased)
  }

  function ApplyContact(s: Store, customer: Customer, name: Option<string>, remove: bool, now: Time): Store {
    var key := CustomerKey(s.pairs, customer);
    if remove then
      if key in s.contacts then s.(contacts := s.contacts[key := s.contacts[key].(name := None, updatedAt := now)]) else s
    else s.(contacts := s.contacts[key := Contact(name, FromAppState, now)])
  }

  function ApplyItem(s: Store, item: Item, erased: set<Customer>, now: Time, cutoff: Option<Time>): Store {
    match item
    case HistoryItem(id, m, pair) =>
      if NamesErased(pair, erased) then s
      else StoreHistoryMessage(LearnPair(s, pair), id, m, erased, now, cutoff)
    case ContactItem(customer, name, remove, pair) =>
      if NamesErased(pair, erased) || customer in erased then s
      else ApplyContact(LearnPair(s, pair), customer, name, remove, now)
    case OtherItem => s
  }

  /** What a rebuild starts from: no history messages, no waiting media, no names from the address book. */
  function Reprocess(s: Store): Store {
    var live := map id | id in s.messages && s.messages[id].origin.Live? :: s.messages[id];
    var customers := set id | id in live :: live[id].customer;
    s.(messages := live,
       media := map[],
       contacts := map c | c in s.contacts && (!s.contacts[c].source.FromHistory? || c in customers) ::
         if s.contacts[c].source.FromAppState? then s.contacts[c].(name := None) else s.contacts[c])
  }

  // ---- One customer, one conversation -------------------------------------------------------

  /** No message and no contact sits under a BSUID whose phone is known. */
  ghost predicate Merged(s: Store) {
    && (forall id :: id in s.messages ==> !Mapped(s.pairs, s.messages[id].customer))
    && (forall c :: c in s.contacts ==> !Mapped(s.pairs, c))
  }

  lemma LearnKeepsMerged(s: Store, pair: Option<Pair>)
    requires Merged(s)
    ensures Merged(LearnPair(s, pair))
  {
  }

  lemma StoreKeepsMerged(s: Store, id: string, m: Message, now: Time, name: Option<string>)
    requires Merged(s)
    ensures Merged(StoreMessage(s, id, m, now, name))
  {
  }

  lemma CallbackKeepsMerged(s: Store, c: Callback)
    requires Merged(s)
    ensures Merged(ApplyCallback(s, c))
  {
  }

  lemma {:induction false} CallbacksKeepMerged(s: Store, callbacks: seq<Callback>)
    requires Merged(s)
    ensures Merged(ApplyCallbacks(s, callbacks))
    decreases |callbacks|
  {
    if callbacks != [] {
      CallbackKeepsMerged(s, callbacks[0]);
      CallbacksKeepMerged(ApplyCallback(s, callbacks[0]), callbacks[1..]);
    }
  }

  lemma HistoryKeepsMerged(s: Store, id: string, m: HistoryMessage, erased: set<Customer>, now: Time, cutoff: Option<Time>)
    requires Merged(s)
    ensures Merged(StoreHistoryMessage(s, id, m, erased, now, cutoff))
  {
  }

  lemma ContactKeepsMerged(s: Store, customer: Customer, name: Option<string>, remove: bool, now: Time)
    requires Merged(s)
    ensures Merged(ApplyContact(s, customer, name, remove, now))
  {
  }

  lemma ItemKeepsMerged(s: Store, item: Item, erased: set<Customer>, now: Time, cutoff: Option<Time>)
    requires Merged(s)
    ensures Merged(ApplyItem(s, item, erased, now, cutoff))
  {
    match item
    case HistoryItem(id, m, pair) =>
      LearnKeepsMerged(s, pair);
      HistoryKeepsMerged(LearnPair(s, pair), id, m, erased, now, cutoff);
    case ContactItem(customer, name, remove, pair) =>
      LearnKeepsMerged(s, pair);
      ContactKeepsMerged(LearnPair(s, pair), customer, name, remove, now);
    case OtherItem =>
  }

  lemma IngestKeepsMerged(s: Store, ev: Event, now: Time)
    requires Merged(s)
    ensures Merged(Ingest(s, ev, now))
  {
    match ev
    case NewMessage(id, message, pair, name) =>
      LearnKeepsMerged(s, pair);
      StoreKeepsMerged(LearnPair(s, pair), id, message, now, name);
    case StatusUpdate(c) =>
      CallbackKeepsMerged(s.(callbacks := s.callbacks + [c]), c);
      CallbackKeepsMerged(s, c);
  }

  // ---- Runs ---------------------------------------------------------------------------------

  datatype Step =
    | CIngest(ev: Event, now: Time)
    | CSend(id: string, message: Message, now: Time)
    | CItem(item: Item, erased: set<Customer>, cutoff: Option<Time>, now: Time)
    | CReprocess

  function Apply(s: Store, step: Step): Store {
    match step
    case CIngest(ev, now) => Ingest(s, ev, now)
    case CSend(id, message, now) => LogOutbound(s, id, message, now)
    case CItem(item, erased, cutoff, now) => ApplyItem(s, item, erased, now, cutoff)
    case CReprocess => Reprocess(s)
  }

  function After(s: Store, steps: seq<Step>): Store
    decreases |steps|
  {
    if steps == [] then s else After(Apply(s, steps[0]), steps[1..])
  }

  lemma StepKeepsMerged(s: Store, step: Step)
    requires Merged(s)
    ensures Merged(Apply(s, step))
  {
    match step
    case CIngest(ev, now) => IngestKeepsMerged(s, ev, now);
    case CSend(id, m, now) =>
      StoreKeepsMerged(s, id, SentRow(m), now, None);
      CallbacksKeepMerged(StoreMessage(s, id, SentRow(m), now, None), CallbacksFor(s.callbacks, id));
    case CItem(item, erased, cutoff, now) => ItemKeepsMerged(s, item, erased, now, cutoff);
    case CReprocess =>
  }

  lemma {:induction false} RunKeepsMerged(s: Store, steps: seq<Step>)
    requires Merged(s)
    ensures Merged(After(s, steps))
    decreases |steps|
  {
    if steps != [] {
      StepKeepsMerged(s, steps[0]);
      RunKeepsMerged(Apply(s, steps[0]), steps[1..]);
    }
  }

  /** Main result: in every reachable state, whatever order live events, sends, history and rebuilds come
      in, no message and no contact sits under a BSUID whose phone number is known. */
  lemma OneCustomerOneConversation(steps: seq<Step>)
    ensures Merged(After(EmptyStore, steps))
  {
    RunKeepsMerged(EmptyStore, steps);
  }
}
