/** Two promises about history: a rebuild from the raw payloads yields what the first pass did, and a
    placeholder and its media agree whichever comes first. */
module ConversationRebuild {
  import opened Core
  import opened Conversations
  import opened ConversationHistory

  // ---- Rebuilding ---------------------------------------------------------------------------

  predicate Known(pairs: map<string, string>, pair: Option<Pair>) {
    pair.Some? ==> pair.value.user in pairs && pairs[pair.value.user] == pair.value.phone
  }

  function PairIn(item: Item): Option<Pair> { if item.OtherItem? then None else item.pair }

  /** The pair of every applied item has been learned. */
  ghost predicate AllKnown(w: World) {
    forall k :: 0 <= k < |w.applied| ==> Known(w.store.pairs, PairIn(w.applied[k]))
  }

  lemma StepKeepsKnown(w: World, step: Step)
    requires AllKnown(w) && Plain(step) && !Repairs(w.store.pairs, PairOf(step))
    ensures AllKnown(Next(w, step))
  {
    StepLearnsPair(w.store, step);
  }

  lemma {:induction false} RunKeepsKnown(w: World, steps: seq<Step>, truth: map<string, string>)
    requires AllKnown(w) && PairsOk(w.store.pairs, truth) && OnePhoneEach(steps, truth)
    requires forall k :: 0 <= k < |steps| ==> Plain(steps[k])
    ensures AllKnown(Finally(w, steps))
    decreases |steps|
  {
    if steps != [] {
      StepKeepsKnown(w, steps[0]);
      StepLearnsPair(w.store, steps[0]);
      assert forall k :: 0 <= k < |steps| - 1 ==> steps[1..][k] == steps[k + 1];
      RunKeepsKnown(Next(w, steps[0]), steps[1..], truth);
    }
  }

  /** Applying raw items again, all of them, oldest first. */
  function Reapply(items: seq<Item>, now: Time): (steps: seq<Step>)
    ensures |steps| == |items| && forall k :: 0 <= k < |items| ==> steps[k] == CItem(items[k], {}, None, now)
  {
    seq(|items|, k requires 0 <= k < |items| => CItem(items[k], {}, None, now))
  }

  /** A live row stays as it is, and none appears. */
  predicate LiveStays(s: Store, s': Store, id: string) {
    && (HasLive(s, id) ==> id in s'.messages && s'.messages[id] == s.messages[id])
    && (HasLive(s', id) ==> HasLive(s, id))
  }

  lemma HistoryLeavesLive(s: Store, id: string, m: HistoryMessage, now: Time, other: string)
    ensures var s' := StoreHistoryMessage(s, id, m, {}, now, None); s'.pairs == s.pairs && LiveStays(s, s', other)
  {
  }

  /** Applying an item whose pair is known learns nothing and leaves live rows alone. */
  lemma KnownItemLearnsNothing(w: World, item: Item, now: Time, id: string)
    requires Known(w.store.pairs, PairIn(item))
    ensures var w' := Next(w, CItem(item, {}, None, now));
            && w'.store.pairs == w.store.pairs && w'.moved == w.moved && w'.applied == w.applied + [item]
            && LiveStays(w.store, w'.store, id)
  {
    if item.HistoryItem? {
      assert LearnPair(w.store, item.pair) == w.store;
      HistoryLeavesLive(w.store, item.id, item.message, now, id);
    } else if item.ContactItem? {
      assert LearnPair(w.store, item.pair) == w.store;
    }
  }

  lemma {:induction false} ReapplyLearnsNothing(w: World, items: seq<Item>, now: Time, id: string)
    requires forall k :: 0 <= k < |items| ==> Known(w.store.pairs, PairIn(items[k]))
    ensures var w' := Finally(w, Reapply(items, now));
            && w'.store.pairs == w.store.pairs && w'.moved == w.moved && w'.applied == w.applied + items
            && LiveStays(w.store, w'.store, id)
    decreases |items|
  {
    if items == [] {
      assert w.applied + items == w.applied;
    } else {
      var next := Next(w, CItem(items[0], {}, None, now));
      KnownItemLearnsNothing(w, items[0], now, id);
      assert Reapply(items, now)[1..] == Reapply(items[1..], now);
      ReapplyLearnsNothing(next, items[1..], now, id);
      FirstAndRest(w.applied, items);
    }
  }

  lemma FirstAndRest(front: seq<Item>, items: seq<Item>)
    requires items != []
    ensures front + [items[0]] + items[1..] == front + items
  {
  }

  function Rebuilt(w: World, now: Time): World {
    Finally(Next(w, CReprocess), Reapply(w.applied, now))
  }

  lemma ClearedIsFiled(w: World)
    requires Filed(w)
    ensures Filed(Next(w, CReprocess)) && Next(w, CReprocess).store.pairs == w.store.pairs
  {
    forall i | i in Next(w, CReprocess).store.messages ensures FiledAt(Next(w, CReprocess), i) {
      assert FiledAt(w, i);
    }
  }

  lemma ClearingLeavesLive(s: Store, id: string)
    ensures LiveStays(s, Reprocess(s), id)
  {
  }

  lemma LiveStaysOn(a: Store, b: Store, c: Store, id: string)
    requires LiveStays(a, b, id) && LiveStays(b, c, id)
    ensures LiveStays(a, c, id)
  {
  }

  lemma ReapplyAgrees(items: seq<Item>, pairs: map<string, string>, truth: map<string, string>, now: Time)
    requires PairsOk(pairs, truth) && forall k :: 0 <= k < |items| ==> Known(pairs, PairIn(items[k]))
    ensures OnePhoneEach(Reapply(items, now), truth)
  {
    forall k | 0 <= k < |items| ensures Agree(PairOf(Reapply(items, now)[k]), truth) {
      assert Known(pairs, PairIn(items[k]));
    }
  }

  lemma RebuiltBasics(w: World, truth: map<string, string>, now: Time, id: string)
    requires AllKnown(w) && PairsOk(w.store.pairs, truth) && Filed(w)
    ensures var w' := Rebuilt(w, now);
            && w'.store.pairs == w.store.pairs && w'.applied == w.applied && w'.moved == {} && Filed(w')
            && LiveStays(w.store, w'.store, id)
  {
    var cleared := Next(w, CReprocess);
    ClearedIsFiled(w);
    ReapplyLearnsNothing(cleared, w.applied, now, id);
    assert [] + w.applied == w.applied;
    ClearingLeavesLive(w.store, id);
    LiveStaysOn(w.store, cleared.store, Rebuilt(w, now).store, id);
    ReapplyAgrees(w.applied, w.store.pairs, truth, now);
    RunKeepsFiled(cleared, Reapply(w.applied, now), truth);
  }

  /** A rebuilt history row is the first pass's row, status aside. */
  predicate SameButStatus(m: Message, m': Message) {
    m' == m.(status := m'.status, error := m'.error, createdAt := m'.createdAt)
  }

  lemma RebuiltAgrees(w: World, now: Time, id: string)
    requires Agrees(w, id)
    ensures Agrees(Rebuilt(w, now), id)
  {
    ReprocessAgrees(w, id);
    HistoryIsAFold(Next(w, CReprocess), Reapply(w.applied, now), id);
  }

  /** Two worlds that applied the same items and know the same pairs have the same history rows. */
  lemma SameItemsSameRow(w: World, w': World, id: string)
    requires Agrees(w, id) && Agrees(w', id) && w'.applied == w.applied && w'.store.pairs == w.store.pairs
    requires FiledAt(w, id) && FiledAt(w', id) && w'.moved == {} && !HasLive(w.store, id) && !HasLive(w'.store, id)
    ensures id in w.store.messages <==> id in w'.store.messages
    ensures id in w.store.messages ==>
              SameButStatus(w.store.messages[id], w'.store.messages[id])
              && (w'.store.messages[id].status == w.store.messages[id].status <==> id !in w.moved)
  {
  }

  /** Main result: after any run without erasure or cutoff in which each BSUID has one phone, a rebuild
      gives the same messages: live rows as they are, and every history row with the same customer,
      direction, body and times. Its status is the same exactly when no callback has moved the row: a
      rebuild does not replay callbacks onto history rows. */
  lemma RebuildYieldsTheFirstPass(steps: seq<Step>, truth: map<string, string>, now: Time, id: string)
    requires OnePhoneEach(steps, truth) && forall k :: 0 <= k < |steps| ==> Plain(steps[k])
    ensures var w := Finally(Start, steps);
            var before, after := w.store.messages, Rebuilt(w, now).store.messages;
            && (id in before <==> id in after)
            && (id in before && before[id].origin.Live? ==> after[id] == before[id])
            && (id in before && before[id].origin.History? ==>
                  SameButStatus(before[id], after[id]) && (after[id].status == before[id].status <==> id !in w.moved))
  {
    var w := Finally(Start, steps);
    FirstPass(steps, truth, id);
    RebuiltBasics(w, truth, now, id);
    RebuiltAgrees(w, now, id);
    var w' := Rebuilt(w, now);
    if !HasLive(w.store, id) {
      assert FiledAt(w, id) && FiledAt(w', id) by {
        assert id in w'.store.messages ==> FiledAt(w', id);
      }
      SameItemsSameRow(w, w', id);
    }
  }

  lemma FirstPass(steps: seq<Step>, truth: map<string, string>, id: string)
    requires OnePhoneEach(steps, truth) && forall k :: 0 <= k < |steps| ==> Plain(steps[k])
    ensures var w := Finally(Start, steps);
            Agrees(w, id) && AllKnown(w) && Filed(w) && FiledAt(w, id) && PairsOk(w.store.pairs, truth)
  {
    StartAgrees(id);
    HistoryIsAFold(Start, steps, id);
    RunKeepsFiled(Start, steps, truth);
    RunKeepsKnown(Start, steps, truth);
  }

  const Reply: Item :=
    HistoryItem("wamid.1", HistoryMessage(Some(Phone("34600000001")), Echo, Body("text", Some("hi"), None), 0, Some(Sent), None, None), None)

  const ReplyThenCallback: seq<Step> :=
    [CItem(Reply, {}, None, 0), CIngest(StatusUpdate(Callback("wamid.1", Delivered, None)), 0)]

  lemma CallbackMovesReply()
    ensures var w := Finally(Start, ReplyThenCallback);
            && w.moved == {"wamid.1"} && "wamid.1" in w.store.messages
            && w.store.messages["wamid.1"].origin.History? && w.store.messages["wamid.1"].status == Some(Delivered)
  {
    var first := CItem(Reply, {}, None, 0);
    var second := CIngest(StatusUpdate(Callback("wamid.1", Delivered, None)), 0);
    var w1 := Next(Start, first);
    assert ReplyThenCallback[1..] == [second] && [second][1..] == [];
    assert Finally(w1, [second]) == Finally(Next(w1, second), []);
  }

  /** It does happen: a delivery callback moves a history row, and the rebuild takes it back. */
  lemma RebuildDropsACallback(now: Time)
    ensures var w := Finally(Start, ReplyThenCallback);
            var before, after := w.store.messages, Rebuilt(w, now).store.messages;
            "wamid.1" in before && "wamid.1" in after && after["wamid.1"].status != before["wamid.1"].status
  {
    CallbackMovesReply();
    forall k | 0 <= k < |ReplyThenCallback| ensures Plain(ReplyThenCallback[k]) && Agree(PairOf(ReplyThenCallback[k]), map[]) {
    }
    RebuildYieldsTheFirstPass(ReplyThenCallback, map[], now, "wamid.1");
  }

  // ---- Rebuilding amid live traffic ---------------------------------------------------------

  /** A live row keeps everything but its conversation and what callbacks say. */
  predicate StaysLive(s: Store, s': Store, id: string) {
    HasLive(s, id) ==>
      HasLive(s', id) && s'.messages[id] == s.messages[id].(customer := s'.messages[id].customer,
                                                            status := s'.messages[id].status, error := s'.messages[id].error)
  }

  lemma HistoryStaysLive(s: Store, id: string, m: HistoryMessage, erased: set<Customer>, now: Time, cutoff: Option<Time>, other: string)
    ensures StaysLive(s, StoreHistoryMessage(s, id, m, erased, now, cutoff), other)
  {
  }

  lemma ItemStaysLive(s: Store, item: Item, erased: set<Customer>, now: Time, cutoff: Option<Time>, id: string)
    ensures StaysLive(s, ApplyItem(s, item, erased, now, cutoff), id)
  {
    if !item.OtherItem? {
      LearnedRows(s, item.pair, id);
      if item.HistoryItem? {
        HistoryStaysLive(LearnPair(s, item.pair), item.id, item.message, erased, now, cutoff, id);
      }
    }
  }

  lemma StepStaysLive(s: Store, step: Step, id: string)
    ensures StaysLive(s, Apply(s, step), id)
  {
    match step
    case CIngest(NewMessage(other, m, pair, name), now) => LearnedRows(s, pair, id);
    case CIngest(StatusUpdate(c), _) =>
    case CSend(other, m, now) =>
      CallbacksKeepRows(StoreMessage(s, other, SentRow(m), now, None), CallbacksFor(s.callbacks, other));
    case CItem(item, erased, cutoff, now) => ItemStaysLive(s, item, erased, now, cutoff, id);
    case CReprocess =>
  }

  lemma {:induction false} RunStaysLive(w: World, steps: seq<Step>, id: string)
    ensures StaysLive(w.store, Finally(w, steps).store, id)
    decreases |steps|
  {
    if steps != [] {
      StepStaysLive(w.store, steps[0], id);
      RunStaysLive(Next(w, steps[0]), steps[1..], id);
    }
  }

  lemma {:induction false} PairsGrow(w: World, steps: seq<Step>)
    ensures w.store.pairs.Keys <= Finally(w, steps).store.pairs.Keys
    decreases |steps|
  {
    if steps != [] {
      StepLearnsPair(w.store, steps[0]);
      PairsGrow(Next(w, steps[0]), steps[1..]);
    }
  }

  /** A message's conversation follows the pairs learned since. */
  lemma RefiledByLaterPairs(w: World, w': World, truth: map<string, string>, id: string)
    requires FiledAt(w, id) && FiledAt(w', id) && id in w.store.messages && id in w'.store.messages
    requires id in w.arrived && id in w'.arrived ==> w.arrived[id] == w'.arrived[id]
    requires PairsOk(w.store.pairs, truth) && PairsOk(w'.store.pairs, truth) && w.store.pairs.Keys <= w'.store.pairs.Keys
    ensures w'.store.messages[id].customer == CustomerKey(w'.store.pairs, w.store.messages[id].customer)
  {
  }

  /** The same messages later on: live rows keep their content; a history row that no live message took is
      there as before, filed by what is known by then, and its status differs if a callback moved it in one
      of the two passes only. */
  ghost predicate SameMessage(w: World, w': World, id: string) {
    var before, after := w.store.messages, w'.store.messages;
    && StaysLive(w.store, w'.store, id)
    && (!HasLive(w'.store, id) ==> (id in before <==> id in after))
    && (!HasLive(w'.store, id) && id in before ==>
          && after[id].customer == CustomerKey(w'.store.pairs, before[id].customer)
          && SameButStatus(before[id].(customer := after[id].customer), after[id])
          && (id !in w.moved && id !in w'.moved ==> after[id].status == before[id].status)
          && ((id in w.moved) != (id in w'.moved) ==> after[id].status != before[id].status))
  }

  lemma SameItemsSameMessage(w: World, w': World, truth: map<string, string>, id: string)
    requires Agrees(w, id) && Agrees(w', id) && w'.applied == w.applied
    requires FiledAt(w, id) && FiledAt(w', id) && StaysLive(w.store, w'.store, id)
    requires PairsOk(w.store.pairs, truth) && PairsOk(w'.store.pairs, truth) && w.store.pairs.Keys <= w'.store.pairs.Keys
    ensures SameMessage(w, w', id)
  {
    if !HasLive(w'.store, id) && id in w.store.messages {
      RefiledByLaterPairs(w, w', truth, id);
    }
  }

  lemma LaterWorld(w: World, more: seq<Step>, truth: map<string, string>, id: string)
    requires Agrees(w, id) && Filed(w) && PairsOk(w.store.pairs, truth)
    requires OnePhoneEach(more, truth) && forall k :: 0 <= k < |more| ==> Plain(more[k])
    ensures var w' := Finally(Next(w, CReprocess), more);
            && Agrees(w', id) && FiledAt(w', id) && StaysLive(w.store, w'.store, id)
            && PairsOk(w'.store.pairs, truth) && w.store.pairs.Keys <= w'.store.pairs.Keys
  {
    var cleared := Next(w, CReprocess);
    var w' := Finally(cleared, more);
    ReprocessAgrees(w, id);
    HistoryIsAFold(cleared, more, id);
    StepStaysLive(w.store, CReprocess, id);
    RunStaysLive(cleared, more, id);
    StaysLiveOn(w.store, cleared.store, w'.store, id);
    ClearedIsFiled(w);
    RunKeepsFiled(cleared, more, truth);
    PairsGrow(cleared, more);
    assert id in w'.store.messages ==> FiledAt(w', id);
  }

  lemma StaysLiveOn(a: Store, b: Store, c: Store, id: string)
    requires StaysLive(a, b, id) && StaysLive(b, c, id)
    ensures StaysLive(a, c, id)
  {
  }

  /** Main result: whatever live messages, sends and callbacks come between a rebuild and the items it
      applies again, once all of them are applied the messages are the first pass's. */
  lemma RebuildAmidTraffic(steps: seq<Step>, more: seq<Step>, truth: map<string, string>, id: string)
    requires OnePhoneEach(steps, truth) && forall k :: 0 <= k < |steps| ==> Plain(steps[k])
    requires OnePhoneEach(more, truth) && forall k :: 0 <= k < |more| ==> Plain(more[k])
    requires Finally(Next(Finally(Start, steps), CReprocess), more).applied == Finally(Start, steps).applied
    ensures SameMessage(Finally(Start, steps), Finally(Next(Finally(Start, steps), CReprocess), more), id)
  {
    var w := Finally(Start, steps);
    FirstPass(steps, truth, id);
    LaterWorld(w, more, truth, id);
    SameItemsSameMessage(w, Finally(Next(w, CReprocess), more), truth, id);
  }

  // ---- Placeholders and media ---------------------------------------------------------------

  function Only(items: seq<Item>, id: string): seq<HistoryMessage> {
    if items == [] then []
    else
      var last := items[|items| - 1];
      Only(items[..|items| - 1], id) + if last.HistoryItem? && last.id == id then [last.message] else []
  }

  function FillAll(messages: seq<HistoryMessage>): Slot {
    if messages == [] then Slot(None, None) else Fill(FillAll(messages[..|messages| - 1]), messages[|messages| - 1])
  }

  /** Only the items with an id say what becomes of it. */
  lemma {:induction false} OtherItemsDoNotMatter(items: seq<Item>, id: string)
    ensures SlotOf(items, id) == FillAll(Only(items, id))
  {
    if items != [] {
      var rest, last := items[..|items| - 1], items[|items| - 1];
      OtherItemsDoNotMatter(rest, id);
      if last.HistoryItem? && last.id == id {
        assert (Only(rest, id) + [last.message])[..|Only(rest, id)|] == Only(rest, id);
      } else {
        assert Only(rest, id) + [] == Only(rest, id);
      }
    }
  }

  lemma FillTwo(a: HistoryMessage, b: HistoryMessage)
    ensures FillAll([a, b]) == Fill(Fill(Slot(None, None), a), b)
  {
    assert [a][..0] == [] && FillAll([a]) == Fill(FillAll([]), a);
    assert [a, b][..1] == [a] && FillAll([a, b]) == Fill(FillAll([a]), b);
  }

  predicate IsPlaceholderMessage(m: HistoryMessage) { m.customer.Some? && m.body.kind == PLACEHOLDER }

  predicate IsMediaMessage(m: HistoryMessage) { m.body.kind != PLACEHOLDER && m.body.content.Some? }

  /** At the level of one id: the body is the media's either way, and the rows agree whole when the media
      names no customer, with nothing left waiting. */
  lemma EitherOrderFills(placeholder: HistoryMessage, media: HistoryMessage)
    requires IsPlaceholderMessage(placeholder) && IsMediaMessage(media)
    ensures var first, second := FillAll([placeholder, media]), FillAll([media, placeholder]);
            && first.row.Some? && second.row.Some?
            && first.row.value.body == media.body && second.row.value.body == media.body
            && (media.customer.None? ==> first == second && first.media.None?)
  {
    FillTwo(placeholder, media);
    FillTwo(media, placeholder);
  }

  /** Main result: two runs that apply the placeholder and its media in opposite orders, with any other
      items, live messages, sends and callbacks between, end with the same type, text and content. */
  lemma PlaceholderAndMediaAgree(a: seq<Step>, b: seq<Step>, id: string, placeholder: HistoryMessage, media: HistoryMessage)
    requires forall k :: 0 <= k < |a| ==> Plain(a[k])
    requires forall k :: 0 <= k < |b| ==> Plain(b[k])
    requires IsPlaceholderMessage(placeholder) && IsMediaMessage(media)
    requires Only(Finally(Start, a).applied, id) == [placeholder, media]
    requires Only(Finally(Start, b).applied, id) == [media, placeholder]
    requires !HasLive(Finally(Start, a).store, id) && !HasLive(Finally(Start, b).store, id)
    ensures var s, t := Finally(Start, a).store, Finally(Start, b).store;
            && id in s.messages && id in t.messages
            && s.messages[id].body == t.messages[id].body == media.body
            && (media.customer.None? ==>
                  id !in s.media && id !in t.media
                  && s.messages[id].at == t.messages[id].at && s.messages[id].direction == t.messages[id].direction
                  && s.messages[id].targetId == t.messages[id].targetId
                  && s.messages[id].phoneNumberId == t.messages[id].phoneNumberId)
    ensures media.customer.None? ==>
              id in Finally(Start, a).arrived && id in Finally(Start, b).arrived
              && Finally(Start, a).arrived[id] == Finally(Start, b).arrived[id] == placeholder.customer.value
  {
    StartAgrees(id);
    HistoryIsAFold(Start, a, id);
    HistoryIsAFold(Start, b, id);
    OtherItemsDoNotMatter(Finally(Start, a).applied, id);
    OtherItemsDoNotMatter(Finally(Start, b).applied, id);
    EitherOrderFills(placeholder, media);
    FillTwo(placeholder, media);
    assert FillAll([placeholder, media]).row.value.customer == placeholder.customer.value;
  }
}
