/** Delivery statuses: callbacks that may overtake the send they are about, repeat, and come in any order
    (apps/gateway/src/gateway.ts `writeConversation`, `logOutbound`). */
module ConversationStatus {
  import opened Core
  import opened Conversations
  import History = ConversationHistory

  // ---- The order of statuses ----------------------------------------------------------------

  function Advance(from: Status, to: Status): Status { if Moves(Some(from), to) then to else from }

  function Fold(from: Status, statuses: seq<Status>): Status
    decreases |statuses|
  {
    if statuses == [] then from else Fold(Advance(from, statuses[0]), statuses[1..])
  }

  function Level(status: Status): nat { History.Rank(Some(status)) }

  lemma {:induction false} FoldLast(from: Status, statuses: seq<Status>, last: Status)
    ensures Fold(from, statuses + [last]) == Advance(Fold(from, statuses), last)
    decreases |statuses|
  {
    if statuses == [] {
      assert statuses + [last] == [last] && [last][1..] == [];
      assert Fold(from, [last]) == Fold(Advance(from, last), []);
    } else {
      FoldLast(Advance(from, statuses[0]), statuses[1..], last);
      assert (statuses + [last])[1..] == statuses[1..] + [last];
    }
  }

  /** A status that has been applied once changes nothing when it comes again. */
  lemma {:induction false} RepeatIsInert(from: Status, statuses: seq<Status>, again: Status)
    requires again in statuses
    ensures Advance(Fold(from, statuses), again) == Fold(from, statuses)
    decreases |statuses|
  {
    if statuses[0] == again {
      AppliedIsInert(Advance(from, again), statuses[1..], again);
    } else {
      RepeatIsInert(Advance(from, statuses[0]), statuses[1..], again);
    }
  }

  lemma {:induction false} AppliedIsInert(from: Status, statuses: seq<Status>, again: Status)
    requires Advance(from, again) == from
    ensures Advance(Fold(from, statuses), again) == Fold(from, statuses)
    decreases |statuses|
  {
    if statuses != [] {
      AppliedIsInert(Advance(from, statuses[0]), statuses[1..], again);
    }
  }

  /** Replaying callbacks that were all applied before changes nothing. */
  lemma {:induction false} ReplayIsInert(from: Status, statuses: seq<Status>, replayed: seq<Status>)
    requires forall k :: 0 <= k < |replayed| ==> replayed[k] in statuses
    ensures Fold(Fold(from, statuses), replayed) == Fold(from, statuses)
    decreases |replayed|
  {
    if replayed != [] {
      RepeatIsInert(from, statuses, replayed[0]);
      assert forall k :: 0 <= k < |replayed| - 1 ==> replayed[1..][k] == replayed[k + 1];
      ReplayIsInert(from, statuses, replayed[1..]);
    }
  }

  /** Without a failure the outcome is the furthest of sent, delivered and read, in whatever order. */
  lemma {:induction false} FoldIsTheFurthest(from: Status, statuses: seq<Status>)
    requires Failed !in statuses && !from.Failed?
    ensures var outcome := Fold(from, statuses);
            && (outcome == from || outcome in statuses)
            && Level(from) <= Level(outcome) && forall s :: s in statuses ==> Level(s) <= Level(outcome)
    decreases |statuses|
  {
    if statuses != [] {
      assert statuses == [statuses[0]] + statuses[1..];
      FoldIsTheFurthest(Advance(from, statuses[0]), statuses[1..]);
    }
  }

  /** So two orders of the same callbacks, repeated or not, come to the same. */
  lemma OrderDoesNotMatter(a: seq<Status>, b: seq<Status>)
    requires Failed !in a && Failed !in b && forall s :: s in a <==> s in b
    ensures Fold(Sent, a) == Fold(Sent, b)
  {
    FoldIsTheFurthest(Sent, a);
    FoldIsTheFurthest(Sent, b);
  }

  /** The first callback that says more than "sent". */
  predicate FailsFirst(statuses: seq<Status>) {
    exists k :: 0 <= k < |statuses| && statuses[k].Failed? && forall j :: 0 <= j < k ==> statuses[j].Sent?
  }

  /** A message ends as failed exactly when a failure came before any delivery. */
  lemma {:induction false} FailedExactlyWhenFirst(statuses: seq<Status>)
    ensures Fold(Sent, statuses) == Failed <==> FailsFirst(statuses)
    decreases |statuses|
  {
    if statuses != [] {
      var rest := statuses[1..];
      match statuses[0]
      case Sent =>
        FailedExactlyWhenFirst(rest);
        FirstAfterSent(statuses);
      case Failed =>
        FailedStays(rest);
        assert FailsFirst(statuses);
      case Delivered => ConfirmedNeverFails(Delivered, rest);
      case Read => ConfirmedNeverFails(Read, rest);
    }
  }

  lemma FirstAfterSent(statuses: seq<Status>)
    requires statuses != [] && statuses[0].Sent?
    ensures FailsFirst(statuses) <==> FailsFirst(statuses[1..])
  {
    var rest := statuses[1..];
    if k :| 0 <= k < |statuses| && statuses[k].Failed? && forall j :: 0 <= j < k ==> statuses[j].Sent? {
      assert rest[k - 1].Failed? && forall j :: 0 <= j < k - 1 ==> rest[j] == statuses[j + 1];
    }
    if k :| 0 <= k < |rest| && rest[k].Failed? && forall j :: 0 <= j < k ==> rest[j].Sent? {
      assert statuses[k + 1].Failed?;
      forall j | 0 <= j < k + 1 ensures statuses[j].Sent? { if j > 0 { assert statuses[j] == rest[j - 1]; } }
    }
  }

  lemma {:induction false} FailedStays(statuses: seq<Status>)
    ensures Fold(Failed, statuses) == Failed && Fold(Read, statuses) == Read
    decreases |statuses|
  {
    if statuses != [] {
      FailedStays(statuses[1..]);
    }
  }

  lemma {:induction false} ConfirmedNeverFails(from: Status, statuses: seq<Status>)
    requires from.Delivered? || from.Read?
    ensures Fold(from, statuses).Delivered? || Fold(from, statuses).Read?
    decreases |statuses|
  {
    if statuses != [] {
      ConfirmedNeverFails(Advance(from, statuses[0]), statuses[1..]);
    }
  }

  // ---- Runs ---------------------------------------------------------------------------------

  function StatusesFor(callbacks: seq<Callback>, id: string): seq<Status> {
    if callbacks == [] then []
    else (if callbacks[0].id == id then [callbacks[0].status] else []) + StatusesFor(callbacks[1..], id)
  }

  lemma {:induction false} OneMoreStatus(callbacks: seq<Callback>, c: Callback, id: string)
    ensures StatusesFor(callbacks + [c], id)
            == if c.id == id then StatusesFor(callbacks, id) + [c.status] else StatusesFor(callbacks, id)
  {
    if callbacks == [] {
      assert callbacks + [c] == [c] && [c][1..] == [];
    } else {
      OneMoreStatus(callbacks[1..], c, id);
      assert (callbacks + [c])[1..] == callbacks[1..] + [c];
      var first := if callbacks[0].id == id then [callbacks[0].status] else [];
      assert first + (StatusesFor(callbacks[1..], id) + [c.status]) == (first + StatusesFor(callbacks[1..], id)) + [c.status];
    }
  }

  lemma {:induction false} StoredHasStatus(callbacks: seq<Callback>, c: Callback)
    ensures IsStored(callbacks, c) <==> c.status in StatusesFor(callbacks, c.id)
  {
    if callbacks != [] {
      StoredHasStatus(callbacks[1..], c);
      if IsStored(callbacks[1..], c) {
        var k :| 0 <= k < |callbacks[1..]| && callbacks[1..][k].id == c.id && callbacks[1..][k].status == c.status;
        assert callbacks[k + 1].id == c.id && callbacks[k + 1].status == c.status;
      }
      if k :| 0 < k < |callbacks| && callbacks[k].id == c.id && callbacks[k].status == c.status {
        assert callbacks[1..][k - 1] == callbacks[k];
      }
    }
  }

  lemma {:induction false} ReplayStatuses(callbacks: seq<Callback>, id: string)
    ensures |CallbacksFor(callbacks, id)| == |StatusesFor(callbacks, id)|
    ensures forall k :: 0 <= k < |CallbacksFor(callbacks, id)| ==>
              CallbacksFor(callbacks, id)[k].id == id && CallbacksFor(callbacks, id)[k].status == StatusesFor(callbacks, id)[k]
  {
    if callbacks != [] {
      ReplayStatuses(callbacks[1..], id);
    }
  }

  /** Replaying a message's callbacks on its row folds their statuses. */
  lemma {:induction false} ReplayFolds(s: Store, id: string, callbacks: seq<Callback>, statuses: seq<Status>)
    requires id in s.messages && !s.messages[id].direction.In? && s.messages[id].status.Some?
    requires |callbacks| == |statuses|
    requires forall k :: 0 <= k < |callbacks| ==> callbacks[k].id == id && callbacks[k].status == statuses[k]
    ensures var s' := ApplyCallbacks(s, callbacks);
            && id in s'.messages && s'.messages[id].direction == s.messages[id].direction
            && s'.messages[id].origin == s.messages[id].origin
            && s'.messages[id].status == Some(Fold(s.messages[id].status.value, statuses))
    decreases |callbacks|
  {
    if callbacks != [] {
      assert forall k :: 0 <= k < |callbacks| - 1 ==> callbacks[1..][k] == callbacks[k + 1] && statuses[1..][k] == statuses[k + 1];
      ReplayFolds(ApplyCallback(s, callbacks[0]), id, callbacks[1..], statuses[1..]);
    }
  }

  /** `arrivals` are all callbacks in the order they came, repeats included; `sent` the messages Eccos sent. */
  datatype World = World(store: Store, arrivals: seq<Callback>, sent: set<string>)

  const Start: World := World(EmptyStore, [], {})

  function Next(w: World, step: Step): World {
    World(Apply(w.store, step),
          if step.CIngest? && step.ev.StatusUpdate? then w.arrivals + [step.ev.callback] else w.arrivals,
          if step.CSend? && !HasLive(w.store, step.id) then w.sent + {step.id} else w.sent)
  }

  function Finally(w: World, steps: seq<Step>): World
    decreases |steps|
  {
    if steps == [] then w else Finally(Next(w, steps[0]), steps[1..])
  }

  /** The stored callbacks of a message say the same as all that arrived. */
  predicate StoredOk(callbacks: seq<Callback>, arrivals: seq<Callback>, id: string) {
    var stored, all := StatusesFor(callbacks, id), StatusesFor(arrivals, id);
    Fold(Sent, stored) == Fold(Sent, all) && forall k :: 0 <= k < |stored| ==> stored[k] in all
  }

  predicate SentOk(s: Store, arrivals: seq<Callback>, id: string) {
    HasLive(s, id) && !s.messages[id].direction.In? && s.messages[id].status == Some(Fold(Sent, StatusesFor(arrivals, id)))
  }

  predicate StatusOk(w: World, id: string) {
    StoredOk(w.store.callbacks, w.arrivals, id) && (id in w.sent ==> SentOk(w.store, w.arrivals, id))
  }

  lemma ArrivalKeepsStored(callbacks: seq<Callback>, arrivals: seq<Callback>, c: Callback, id: string)
    requires StoredOk(callbacks, arrivals, id)
    ensures StoredOk(if IsStored(callbacks, c) then callbacks else callbacks + [c], arrivals + [c], id)
  {
    OneMoreStatus(arrivals, c, id);
    OneMoreStatus(callbacks, c, id);
    StoredHasStatus(callbacks, c);
    if c.id == id {
      FoldLast(Sent, StatusesFor(arrivals, id), c.status);
      FoldLast(Sent, StatusesFor(callbacks, id), c.status);
      if IsStored(callbacks, c) {
        RepeatIsInert(Sent, StatusesFor(arrivals, id), c.status);
      }
    }
  }

  lemma CallbackKeepsSent(s: Store, arrivals: seq<Callback>, c: Callback, id: string)
    requires SentOk(s, arrivals, id)
    ensures SentOk(ApplyCallback(s, c), arrivals + [c], id)
  {
    OneMoreStatus(arrivals, c, id);
    if c.id == id {
      FoldLast(Sent, StatusesFor(arrivals, id), c.status);
    }
  }

  lemma CallbackStepOk(w: World, c: Callback, now: Time, id: string)
    requires StatusOk(w, id)
    ensures StatusOk(Next(w, CIngest(StatusUpdate(c), now)), id)
  {
    ArrivalKeepsStored(w.store.callbacks, w.arrivals, c, id);
    if id in w.sent {
      var stored := if IsStored(w.store.callbacks, c) then w.store else w.store.(callbacks := w.store.callbacks + [c]);
      CallbackKeepsSent(stored, w.arrivals, c, id);
    }
  }

  /** A step that leaves the stored callbacks alone and live rows' statuses as they are. */
  predicate KeepsStatus(s: Store, s': Store, id: string) {
    && s'.callbacks == s.callbacks
    && (HasLive(s, id) ==> HasLive(s', id) && s'.messages[id].status == s.messages[id].status
                           && s'.messages[id].direction == s.messages[id].direction)
  }

  lemma NewMessageKeepsStatus(s: Store, mid: string, m: Message, pair: Option<Pair>, name: Option<string>, now: Time, id: string)
    ensures KeepsStatus(s, Ingest(s, NewMessage(mid, m, pair, name), now), id)
  {
    History.LearnedRows(s, pair, id);
  }

  lemma HistoryKeepsStatus(s: Store, mid: string, m: HistoryMessage, erased: set<Customer>, now: Time, cutoff: Option<Time>, id: string)
    ensures KeepsStatus(s, StoreHistoryMessage(s, mid, m, erased, now, cutoff), id)
  {
  }

  lemma ItemKeepsStatus(s: Store, step: Step, id: string)
    requires step.CItem?
    ensures KeepsStatus(s, Apply(s, step), id)
  {
    if !step.item.OtherItem? {
      History.LearnedRows(s, step.item.pair, id);
      if step.item.HistoryItem? {
        HistoryKeepsStatus(LearnPair(s, step.item.pair), step.item.id, step.item.message, step.erased, step.now, step.cutoff, id);
      }
    }
  }

  /** The send resets a history row with its id, replays what overtook it, and is inert when repeated. */
  lemma SendStepOk(w: World, sid: string, m: Message, now: Time, id: string)
    requires StatusOk(w, id)
    ensures StatusOk(Next(w, CSend(sid, m, now)), id)
  {
    var stored := StoreMessage(w.store, sid, SentRow(m), now, None);
    var replayed := CallbacksFor(w.store.callbacks, sid);
    SameCallbacks(stored, replayed);
    ReplayStatuses(w.store.callbacks, sid);
    if sid != id {
      History.CallbacksOfOneMessage(stored, replayed, sid, id);
    } else if id in w.sent {
      ReplayFolds(stored, id, replayed, StatusesFor(w.store.callbacks, id));
      ReplayIsInert(Sent, StatusesFor(w.arrivals, id), StatusesFor(w.store.callbacks, id));
    } else if !HasLive(w.store, id) {
      ReplayFolds(stored, id, replayed, StatusesFor(w.store.callbacks, id));
    }
  }

  lemma {:induction false} SameCallbacks(s: Store, callbacks: seq<Callback>)
    ensures ApplyCallbacks(s, callbacks).callbacks == s.callbacks
    decreases |callbacks|
  {
    if callbacks != [] {
      SameCallbacks(ApplyCallback(s, callbacks[0]), callbacks[1..]);
    }
  }

  lemma StepOk(w: World, step: Step, id: string)
    requires StatusOk(w, id)
    ensures StatusOk(Next(w, step), id)
  {
    match step
    case CIngest(NewMessage(mid, m, pair, name), now) => NewMessageKeepsStatus(w.store, mid, m, pair, name, now, id);
    case CIngest(StatusUpdate(c), now) => CallbackStepOk(w, c, now, id);
    case CSend(sid, m, now) => SendStepOk(w, sid, m, now, id);
    case CItem(_, _, _, _) => ItemKeepsStatus(w.store, step, id);
    case CReprocess =>
  }

  lemma {:induction false} RunOk(w: World, steps: seq<Step>, id: string)
    requires StatusOk(w, id)
    ensures StatusOk(Finally(w, steps), id)
    decreases |steps|
  {
    if steps != [] {
      StepOk(w, steps[0], id);
      RunOk(Next(w, steps[0]), steps[1..], id);
    }
  }

  /** Main result: wherever a send is logged among its callbacks, and however often they repeat, its final
      status is the fold of all of them, in the order they came, starting from `sent`. */
  lemma SentStatusIsTheFold(steps: seq<Step>, id: string)
    ensures var w := Finally(Start, steps);
            id in w.sent ==>
              id in w.store.messages && w.store.messages[id].status == Some(Fold(Sent, StatusesFor(w.arrivals, id)))
  {
    RunOk(Start, steps, id);
  }

  /** On a live row `read` and `failed` are final, whatever comes. */
  lemma ReadAndFailedAreFinal(s: Store, step: Step, id: string)
    requires HasLive(s, id) && (s.messages[id].status == Some(Read) || s.messages[id].status == Some(Failed))
    ensures HasLive(Apply(s, step), id) && Apply(s, step).messages[id].status == s.messages[id].status
  {
    match step
    case CIngest(NewMessage(mid, m, pair, name), now) => NewMessageKeepsStatus(s, mid, m, pair, name, now, id);
    case CIngest(StatusUpdate(c), now) =>
    case CSend(sid, m, now) =>
      var stored := StoreMessage(s, sid, SentRow(m), now, None);
      FinalUnderReplay(stored, CallbacksFor(s.callbacks, sid), id);
    case CItem(_, _, _, _) => ItemKeepsStatus(s, step, id);
    case CReprocess =>
  }

  lemma {:induction false} FinalUnderReplay(s: Store, callbacks: seq<Callback>, id: string)
    requires HasLive(s, id) && (s.messages[id].status == Some(Read) || s.messages[id].status == Some(Failed))
    ensures HasLive(ApplyCallbacks(s, callbacks), id) && ApplyCallbacks(s, callbacks).messages[id].status == s.messages[id].status
    decreases |callbacks|
  {
    if callbacks != [] {
      FinalUnderReplay(ApplyCallback(s, callbacks[0]), callbacks[1..], id);
    }
  }
}
