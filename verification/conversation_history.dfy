/** What the conversation store comes to, said without its tables: every message is filed under the final
    pair map applied to the id it arrived with, and the history rows are a fold of the history items with
    their id, whatever live traffic, sends and callbacks come between. */
module ConversationHistory {
  import opened Core
  import opened Conversations

  /** `arrived` is the id each stored message came with; `moved` are the history rows a status callback
      changed; `applied` are the history items applied since the start or the last rebuild. */
  datatype World = World(store: Store, arrived: map<string, Customer>, moved: set<string>, applied: seq<Item>)

  const Start: World := World(EmptyStore, map[], {}, [])

  /** The id under which a step writes a message row's identity, if it does. */
  function Writes(s: Store, step: Step): Option<(string, Customer)> {
    match step
    case CIngest(NewMessage(id, m, _, _), _) => if HasLive(s, id) then None else Some((id, m.customer))
    case CSend(id, m, _) => if HasLive(s, id) then None else Some((id, m.customer))
    case CItem(HistoryItem(id, m, pair), erased, cutoff, _) =>
      if id in s.messages || NamesErased(pair, erased) || m.customer.None? || m.customer.value in erased
         || (cutoff.Some? && m.at < cutoff.value) then None
      else Some((id, m.customer.value))
    case _ => None
  }

  predicate MovesHistory(s: Store, step: Step) {
    && step.CIngest? && step.ev.StatusUpdate? && Takes(s, step.ev.callback) && !HasLive(s, step.ev.callback.id)
    && s.messages[step.ev.callback.id].status != Some(step.ev.callback.status)
  }

  function Next(w: World, step: Step): World {
    var written := Writes(w.store, step);
    World(Apply(w.store, step),
          if written.Some? then w.arrived[written.value.0 := written.value.1] else w.arrived,
          if step.CReprocess? then {}
          else if MovesHistory(w.store, step) then w.moved + {step.ev.callback.id} else w.moved,
          if step.CReprocess? then [] else if step.CItem? then w.applied + [step.item] else w.applied)
  }

  function Finally(w: World, steps: seq<Step>): World
    decreases |steps|
  {
    if steps == [] then w else Finally(Next(w, steps[0]), steps[1..])
  }

  // ---- Pairs --------------------------------------------------------------------------------

  function PairOf(step: Step): Option<Pair> {
    match step
    case CIngest(NewMessage(_, _, pair, _), _) => pair
    case CItem(HistoryItem(_, _, pair), erased, _, _) => if NamesErased(pair, erased) then None else pair
    case CItem(ContactItem(customer, _, _, pair), erased, _, _) =>
      if NamesErased(pair, erased) || customer in erased then None else pair
    case _ => None
  }

  predicate Agree(pair: Option<Pair>, truth: map<string, string>) {
    pair.Some? ==> pair.value.user in truth && truth[pair.value.user] == pair.value.phone
  }

  /** Each BSUID belongs to one phone number. */
  ghost predicate OnePhoneEach(steps: seq<Step>, truth: map<string, string>) {
    forall k :: 0 <= k < |steps| ==> Agree(PairOf(steps[k]), truth)
  }

  ghost predicate PairsOk(pairs: map<string, string>, truth: map<string, string>) {
    forall u :: u in pairs ==> u in truth && truth[u] == pairs[u]
  }

  lemma {:induction false} CallbacksKeepRows(s: Store, callbacks: seq<Callback>)
    ensures var s' := ApplyCallbacks(s, callbacks);
            && s'.pairs == s.pairs && s'.media == s.media && s'.messages.Keys == s.messages.Keys
            && forall id :: id in s.messages ==>
                 s'.messages[id] == s.messages[id].(status := s'.messages[id].status, error := s'.messages[id].error)
    decreases |callbacks|
  {
    if callbacks != [] {
      CallbacksKeepRows(ApplyCallback(s, callbacks[0]), callbacks[1..]);
    }
  }

  /** A step learns its pair and no other. */
  lemma StepLearnsPair(s: Store, step: Step)
    ensures Apply(s, step).pairs == LearnPair(s, PairOf(step)).pairs
  {
    if step.CSend? {
      CallbacksKeepRows(StoreMessage(s, step.id, SentRow(step.message), step.now, None), CallbacksFor(s.callbacks, step.id));
    }
  }

  // ---- Filing -------------------------------------------------------------------------------

  ghost predicate FiledAt(w: World, id: string) {
    id in w.store.messages ==>
      id in w.arrived && w.store.messages[id].customer == CustomerKey(w.store.pairs, w.arrived[id])
  }

  ghost predicate Filed(w: World) { forall id :: id in w.store.messages ==> FiledAt(w, id) }

  predicate Repairs(pairs: map<string, string>, pair: Option<Pair>) {
    pair.Some? && pair.value.user in pairs && pairs[pair.value.user] != pair.value.phone
  }

  /** Learning a pair files every message right exactly when it does not move a BSUID that messages
      arrived under from one phone to another. */
  lemma RepairingBreaksFiling(w: World, pair: Option<Pair>)
    requires Filed(w)
    ensures Filed(w.(store := LearnPair(w.store, pair))) <==>
            !(Repairs(w.store.pairs, pair)
              && exists id :: id in w.store.messages && id in w.arrived && w.arrived[id] == Bsuid(pair.value.user))
  {
  }

  function From(customer: Customer): Message {
    Message(customer, In, Live, Body("text", None, None), 0, None, None, None, None, 0)
  }

  /** A customer writes under a BSUID, which is then paired with one phone, and then with another. */
  function PairedTwice(user: string, first: string, second: string): seq<Step> {
    [CIngest(NewMessage("wamid.1", From(Bsuid(user)), None, None), 0),
     CIngest(NewMessage("wamid.2", From(Phone(first)), Some(Pair(first, user)), None), 1),
     CIngest(NewMessage("wamid.3", From(Phone(second)), Some(Pair(second, user)), None), 2)]
  }

  /** It does happen: the first message stays with the first phone. */
  lemma PairedTwiceMisfiles(user: string, first: string, second: string)
    requires first != second
    ensures var w := Finally(Start, PairedTwice(user, first, second));
            && "wamid.1" in w.store.messages && "wamid.1" in w.arrived && !Filed(w)
            && w.store.messages["wamid.1"].customer == Phone(first)
            && CustomerKey(w.store.pairs, w.arrived["wamid.1"]) == Phone(second)
  {
    var steps := PairedTwice(user, first, second);
    var w1 := Next(Start, steps[0]);
    var w2 := Next(w1, steps[1]);
    assert w1.store.messages["wamid.1"].customer == Bsuid(user);
    assert w2.store.messages["wamid.1"].customer == Phone(first);
    assert steps[1..] == [steps[1], steps[2]] && steps[1..][1..] == [steps[2]] && [steps[2]][1..] == [];
    assert Finally(w2, [steps[2]]) == Finally(Next(w2, steps[2]), []);
    assert !FiledAt(Finally(Start, steps), "wamid.1");
  }

  lemma LearnKeepsFiled(w: World, pair: Option<Pair>, id: string)
    requires FiledAt(w, id) && !Repairs(w.store.pairs, pair)
    ensures FiledAt(w.(store := LearnPair(w.store, pair)), id)
  {
  }

  lemma StoreKeepsFiled(w: World, id: string, m: Message, now: Time, name: Option<string>, other: string)
    requires FiledAt(w, other)
    ensures FiledAt(World(StoreMessage(w.store, id, m, now, name),
                          if HasLive(w.store, id) then w.arrived else w.arrived[id := m.customer], w.moved, w.applied), other)
  {
  }

  lemma RowKeepsFiled(w: World, id: string, m: HistoryMessage, erased: set<Customer>, now: Time, cutoff: Option<Time>, other: string)
    requires FiledAt(w, other)
    ensures var written := id !in w.store.messages && m.customer.Some? && m.customer.value !in erased
                           && (cutoff.None? || m.at >= cutoff.value);
            FiledAt(w.(store := StoreHistoryMessage(w.store, id, m, erased, now, cutoff),
                       arrived := if written then w.arrived[id := m.customer.value] else w.arrived), other)
  {
  }

  lemma HistoryKeepsFiled(w: World, step: Step, other: string)
    requires step.CItem? && step.item.HistoryItem? && FiledAt(w, other)
    requires !Repairs(w.store.pairs, PairOf(step))
    ensures FiledAt(Next(w, step), other)
  {
    if !NamesErased(step.item.pair, step.erased) {
      LearnKeepsFiled(w, step.item.pair, other);
      LearnedRows(w.store, step.item.pair, step.item.id);
      RowKeepsFiled(w.(store := LearnPair(w.store, step.item.pair)), step.item.id, step.item.message, step.erased, step.now, step.cutoff, other);
    }
  }

  lemma StepKeepsFiled(w: World, step: Step, other: string)
    requires FiledAt(w, other) && !Repairs(w.store.pairs, PairOf(step))
    ensures FiledAt(Next(w, step), other)
  {
    match step
    case CIngest(NewMessage(id, m, pair, name), now) =>
      LearnKeepsFiled(w, pair, other);
      StoreKeepsFiled(w.(store := LearnPair(w.store, pair)), id, m, now, name, other);
    case CIngest(StatusUpdate(c), _) =>
    case CSend(id, m, now) =>
      StoreKeepsFiled(w, id, SentRow(m), now, None, other);
      CallbacksKeepRows(StoreMessage(w.store, id, SentRow(m), now, None), CallbacksFor(w.store.callbacks, id));
    case CItem(HistoryItem(_, _, _), _, _, _) => HistoryKeepsFiled(w, step, other);
    case CItem(ContactItem(_, _, _, _), _, _, _) => LearnKeepsFiled(w, PairOf(step), other);
    case CItem(OtherItem, _, _, _) =>
    case CReprocess =>
  }

  lemma {:induction false} RunKeepsFiled(w: World, steps: seq<Step>, truth: map<string, string>)
    requires Filed(w) && PairsOk(w.store.pairs, truth) && OnePhoneEach(steps, truth)
    ensures var w' := Finally(w, steps); Filed(w') && PairsOk(w'.store.pairs, truth)
    decreases |steps|
  {
    if steps != [] {
      var w' := Next(w, steps[0]);
      StepLearnsPair(w.store, steps[0]);
      forall id | id in w'.store.messages ensures FiledAt(w', id) {
        StepKeepsFiled(w, steps[0], id);
      }
      assert forall k :: 0 <= k < |steps| - 1 ==> steps[1..][k] == steps[k + 1];
      RunKeepsFiled(w', steps[1..], truth);
    }
  }

  /** Main result: while each BSUID belongs to one phone, every message ends up in the conversation the
      final pair map gives the id it arrived with, whenever the pair was learned. */
  lemma MessagesAreFiledByTheFinalPairs(steps: seq<Step>, truth: map<string, string>, id: string)
    requires OnePhoneEach(steps, truth)
    ensures var w := Finally(Start, steps);
            id in w.store.messages ==>
              id in w.arrived && w.store.messages[id].customer == CustomerKey(w.store.pairs, w.arrived[id])
  {
    RunKeepsFiled(Start, steps, truth);
    assert id in Finally(Start, steps).store.messages ==> FiledAt(Finally(Start, steps), id);
  }

  // ---- History as a fold --------------------------------------------------------------------

  datatype Row = Row(customer: Customer, direction: Direction, body: Body, at: Time, status: Option<Status>,
                     targetId: Option<string>, phoneNumberId: Option<string>)

  /** What the history items with one id come to. */
  datatype Slot = Slot(row: Option<Row>, media: Option<Media>)

  function RowOf(m: HistoryMessage, body: Body): Row
    requires m.customer.Some?
  {
    Row(m.customer.value, m.direction, body, m.at, m.status, m.targetId, m.phoneNumberId)
  }

  function Fill(slot: Slot, m: HistoryMessage): Slot {
    if m.customer.None? then
      if m.body.content.None? then slot
      else if slot.row.Some? && slot.row.value.body.kind == PLACEHOLDER then slot.(row := Some(slot.row.value.(body := m.body)))
      else slot.(media := Some(Media(m.at, m.body)))
    else
      var waits := m.body.kind == PLACEHOLDER && slot.media.Some?;
      var body := if waits then slot.media.value.body else m.body;
      Slot(if slot.row.None? then Some(RowOf(m, body))
           else if slot.row.value.body.kind == PLACEHOLDER && body.content.Some? then Some(slot.row.value.(body := body))
           else slot.row,
           if waits then None else slot.media)
  }

  function SlotOf(items: seq<Item>, id: string): Slot {
    if items == [] then Slot(None, None)
    else
      var rest, last := SlotOf(items[..|items| - 1], id), items[|items| - 1];
      if last.HistoryItem? && last.id == id then Fill(rest, last.message) else rest
  }

  function Rank(status: Option<Status>): nat {
    match status
    case None => 0
    case Some(Sent) => 1
    case Some(Delivered) => 2
    case Some(Read) => 3
    case Some(Failed) => 4
  }

  predicate SameRow(m: Message, r: Row, arrived: map<string, Customer>, id: string, moved: bool) {
    && m.direction == r.direction && m.body == r.body && m.at == r.at && m.targetId == r.targetId
    && m.phoneNumberId == r.phoneNumberId && id in arrived && arrived[id] == r.customer
    && (if moved then Rank(r.status) < Rank(m.status) else m.status == r.status)
  }

  /** The tables hold for this id what the fold says, unless a live message took the id. */
  predicate AgreesOn(w: World, slot: Slot, id: string) {
    !HasLive(w.store, id) ==>
      && (id in w.store.messages <==> slot.row.Some?)
      && (id in w.store.messages ==> SameRow(w.store.messages[id], slot.row.value, w.arrived, id, id in w.moved))
      && (id !in w.store.messages ==> id !in w.moved)
      && (id in w.store.media <==> slot.media.Some?)
      && (id in w.store.media ==> w.store.media[id] == slot.media.value)
  }

  predicate Agrees(w: World, id: string) { AgreesOn(w, SlotOf(w.applied, id), id) }

  /** The run neither erases nor cuts off history. */
  predicate Plain(step: Step) { step.CItem? ==> step.erased == {} && step.cutoff == None }

  lemma OneMoreItem(items: seq<Item>, item: Item, id: string)
    ensures SlotOf(items + [item], id)
            == if item.HistoryItem? && item.id == id then Fill(SlotOf(items, id), item.message) else SlotOf(items, id)
  {
    assert (items + [item])[..|items|] == items;
  }

  /** Learning a pair refiles rows and changes nothing else about them. */
  lemma LearnedRows(s: Store, pair: Option<Pair>, id: string)
    ensures var s' := LearnPair(s, pair);
            && s'.media == s.media && (id in s'.messages <==> id in s.messages)
            && (id in s.messages ==> s'.messages[id] == s.messages[id].(customer := s'.messages[id].customer))
  {
  }

  lemma LearnAgrees(w: World, pair: Option<Pair>, slot: Slot, id: string)
    requires AgreesOn(w, slot, id)
    ensures AgreesOn(w.(store := LearnPair(w.store, pair)), slot, id)
  {
    LearnedRows(w.store, pair, id);
  }

  lemma MediaAgrees(w: World, slot: Slot, id: string, m: HistoryMessage)
    requires AgreesOn(w, slot, id) && m.customer.None?
    ensures AgreesOn(w.(store := StoreMedia(w.store, id, m)), Fill(slot, m), id)
  {
  }

  lemma RowAgrees(w: World, slot: Slot, id: string, m: HistoryMessage, now: Time)
    requires AgreesOn(w, slot, id) && m.customer.Some?
    ensures var c := m.customer.value;
            AgreesOn(w.(store := StoreHistoryRow(w.store, id, m, c, now),
                        arrived := if id in w.store.messages then w.arrived else w.arrived[id := c]), Fill(slot, m), id)
  {
    if !HasLive(w.store, id) {
      assert TakesMedia(w.store, id, m) <==> m.body.kind == PLACEHOLDER && slot.media.Some?;
    }
  }

  /** A step on one id leaves the others alone. */
  lemma OtherIdAgrees(w: World, w': World, slot: Slot, id: string)
    requires AgreesOn(w, slot, id)
    requires id in w'.store.messages <==> id in w.store.messages
    requires id in w.store.messages ==>
               w'.store.messages[id] == w.store.messages[id] && (id in w.arrived ==> id in w'.arrived && w'.arrived[id] == w.arrived[id])
    requires id in w'.store.media <==> id in w.store.media
    requires id in w.store.media ==> w'.store.media[id] == w.store.media[id]
    requires id in w'.moved <==> id in w.moved
    ensures AgreesOn(w', slot, id)
  {
  }

  lemma OtherItemAgrees(w: World, step: Step, id: string)
    requires step.CItem? && step.item.HistoryItem? && step.item.id != id && Plain(step) && Agrees(w, id)
    ensures Agrees(Next(w, step), id)
  {
    OneMoreItem(w.applied, step.item, id);
    LearnAgrees(w, step.item.pair, SlotOf(w.applied, id), id);
    var learned := w.(store := LearnPair(w.store, step.item.pair));
    HistoryTouchesOneId(learned.store, step.item.id, step.item.message, step.now, id);
    OtherIdAgrees(learned, Next(w, step), SlotOf(w.applied, id), id);
  }

  lemma OwnMediaAgrees(w: World, step: Step, id: string)
    requires step.CItem? && step.item.HistoryItem? && step.item.id == id && Plain(step) && Agrees(w, id)
    requires step.item.message.customer.None?
    ensures Agrees(Next(w, step), id)
  {
    var slot := SlotOf(w.applied, id);
    OneMoreItem(w.applied, step.item, id);
    LearnAgrees(w, step.item.pair, slot, id);
    MediaAgrees(w.(store := LearnPair(w.store, step.item.pair)), slot, id, step.item.message);
  }

  lemma OwnRowAgrees(w: World, step: Step, id: string)
    requires step.CItem? && step.item.HistoryItem? && step.item.id == id && Plain(step) && Agrees(w, id)
    requires step.item.message.customer.Some?
    ensures Agrees(Next(w, step), id)
  {
    var slot := SlotOf(w.applied, id);
    OneMoreItem(w.applied, step.item, id);
    LearnAgrees(w, step.item.pair, slot, id);
    LearnedRows(w.store, step.item.pair, id);
    RowAgrees(w.(store := LearnPair(w.store, step.item.pair)), slot, id, step.item.message, step.now);
  }

  lemma HistoryTouchesOneId(s: Store, id: string, m: HistoryMessage, now: Time, other: string)
    requires other != id
    ensures var s' := StoreHistoryMessage(s, id, m, {}, now, None);
            && (other in s'.messages <==> other in s.messages) && (other in s'.media <==> other in s.media)
            && (other in s.messages ==> s'.messages[other] == s.messages[other])
            && (other in s.media ==> s'.media[other] == s.media[other])
  {
  }

  lemma NewMessageAgrees(w: World, step: Step, id: string)
    requires step.CIngest? && step.ev.NewMessage? && Agrees(w, id)
    ensures Agrees(Next(w, step), id)
  {
    var slot := SlotOf(w.applied, id);
    LearnAgrees(w, step.ev.pair, slot, id);
    LearnedRows(w.store, step.ev.pair, step.ev.id);
    var learned := w.(store := LearnPair(w.store, step.ev.pair));
    if step.ev.id != id {
      OtherIdAgrees(learned, Next(w, step), slot, id);
    }
  }

  lemma CallbackAgrees(w: World, step: Step, id: string)
    requires step.CIngest? && step.ev.StatusUpdate? && Agrees(w, id)
    ensures Agrees(Next(w, step), id)
  {
    if step.ev.callback.id != id {
      OtherIdAgrees(w, Next(w, step), SlotOf(w.applied, id), id);
    }
  }

  lemma SendAgrees(w: World, step: Step, id: string)
    requires step.CSend? && Agrees(w, id)
    ensures Agrees(Next(w, step), id)
  {
    var stored := StoreMessage(w.store, step.id, SentRow(step.message), step.now, None);
    CallbacksKeepRows(stored, CallbacksFor(w.store.callbacks, step.id));
    CallbacksOfOneMessage(stored, CallbacksFor(w.store.callbacks, step.id), step.id, id);
    OnlyItsCallbacks(w.store.callbacks, step.id);
  }

  lemma {:induction false} OnlyItsCallbacks(callbacks: seq<Callback>, id: string)
    ensures forall k :: 0 <= k < |CallbacksFor(callbacks, id)| ==> CallbacksFor(callbacks, id)[k].id == id
  {
    if callbacks != [] {
      OnlyItsCallbacks(callbacks[1..], id);
    }
  }

  lemma {:induction false} CallbacksOfOneMessage(s: Store, callbacks: seq<Callback>, id: string, other: string)
    ensures other != id && other in s.messages && (forall k :: 0 <= k < |callbacks| ==> callbacks[k].id == id) ==>
              other in ApplyCallbacks(s, callbacks).messages && ApplyCallbacks(s, callbacks).messages[other] == s.messages[other]
    decreases |callbacks|
  {
    if callbacks != [] {
      CallbacksOfOneMessage(ApplyCallback(s, callbacks[0]), callbacks[1..], id, other);
      assert forall k :: 0 <= k < |callbacks| - 1 ==> callbacks[1..][k] == callbacks[k + 1];
    }
  }

  lemma ContactAgrees(w: World, step: Step, id: string)
    requires step.CItem? && !step.item.HistoryItem? && Plain(step) && Agrees(w, id)
    ensures Agrees(Next(w, step), id)
  {
    OneMoreItem(w.applied, step.item, id);
    if step.item.ContactItem? {
      LearnAgrees(w, step.item.pair, SlotOf(w.applied, id), id);
    }
  }

  lemma ReprocessAgrees(w: World, id: string)
    requires Agrees(w, id)
    ensures Agrees(Next(w, CReprocess), id)
  {
  }

  lemma StepAgrees(w: World, step: Step, id: string)
    requires Plain(step) && Agrees(w, id)
    ensures Agrees(Next(w, step), id)
  {
    match step
    case CIngest(ev, _) => if ev.NewMessage? { NewMessageAgrees(w, step, id); } else { CallbackAgrees(w, step, id); }
    case CSend(_, _, _) => SendAgrees(w, step, id);
    case CItem(item, _, _, _) =>
      if !item.HistoryItem? {
        ContactAgrees(w, step, id);
      } else if item.id != id {
        OtherItemAgrees(w, step, id);
      } else if item.message.customer.None? {
        OwnMediaAgrees(w, step, id);
      } else {
        OwnRowAgrees(w, step, id);
      }
    case CReprocess => ReprocessAgrees(w, id);
  }

  /** Main result: over every run without erasure or cutoff, live traffic in between or not, a history row
      is the fold of the history items with its id, and so is what waits for a placeholder. */
  lemma {:induction false} HistoryIsAFold(w: World, steps: seq<Step>, id: string)
    requires Agrees(w, id) && forall k :: 0 <= k < |steps| ==> Plain(steps[k])
    ensures Agrees(Finally(w, steps), id)
    decreases |steps|
  {
    if steps != [] {
      StepAgrees(w, steps[0], id);
      assert forall k :: 0 <= k < |steps| - 1 ==> steps[1..][k] == steps[k + 1];
      HistoryIsAFold(Next(w, steps[0]), steps[1..], id);
    }
  }

  lemma StartAgrees(id: string)
    ensures Agrees(Start, id) && Filed(Start)
  {
  }
}
