/** A rebuild as the alarm carries it out: the raw payloads are read again from the queue, oldest first, with
    every cursor back at the start (apps/gateway/src/gateway.ts `reprocessSyncPayloads`,
    `processSyncBatch`), while live messages, sends and callbacks go on. */
module RebuildQueue {
  import opened Core
  import opened Conversations
  import H = ConversationHistory
  import Q = SyncPayloads
  import Rebuild = ConversationRebuild

  /** The queue of payloads, and everything done to the conversation store so far. */
  datatype Joint = Joint(queue: Q.State, trace: seq<Step>)

  const Start: Joint := Joint(Q.Empty, [])

  function World(s: Joint): H.World { H.Finally(H.Start, s.trace) }

  /** What the raw items say. */
  function Meanings(meaning: Q.Item -> Item, items: seq<Q.Item>): (meant: seq<Item>)
    ensures |meant| == |items| && forall k :: 0 <= k < |items| ==> meant[k] == meaning(items[k])
  {
    seq(|items|, k requires 0 <= k < |items| => meaning(items[k]))
  }

  function Cleared(p: Q.Payload): Q.Payload { p.(cursor := 0, attempts := 0, open := true, parked := false) }

  function Reset(q: Q.State): Q.State {
    Q.State(seq(|q.payloads|, k requires 0 <= k < |q.payloads| => Cleared(q.payloads[k])), seq(|q.done|, k requires 0 <= k < |q.done| => []), None)
  }

  /** A reprocess reads every payload again from its first item, finished and parked ones too, and nothing of it
      counts as applied. */
  lemma ResetStartsOver(q: Q.State, k: nat)
    requires |q.done| == |q.payloads|
    ensures |Reset(q).payloads| == |q.payloads| && |Reset(q).done| == |q.done| && Reset(q).wake.None?
    ensures k < |q.payloads| ==>
              var p, p' := q.payloads[k], Reset(q).payloads[k];
              && p'.items == p.items && p'.byteSize == p.byteSize && p'.readable == p.readable
              && p'.cursor == 0 && p'.attempts == 0 && p'.open && !p'.parked && Reset(q).done[k] == []
  {
  }

  datatype Move = OnQueue(step: Q.Step, now: Time) | Live(live: Step) | Reprocessed

  /** A wake has no await between two visits: nothing else happens in it. */
  predicate MayHappen(s: Joint, m: Move) {
    match m
    case OnQueue(step, _) => Q.Possible(s.queue, step)
    case Live(step) => s.queue.wake.None? && (step.CIngest? || step.CSend?)
    case Reprocessed => s.queue.wake.None?
  }

  /** The items a step of the queue applies. */
  function Applied(q: Q.State, step: Q.Step): seq<Q.Item>
    requires Q.Wellformed(q) && Q.Possible(q, step)
  {
    if step.YVisit? then Q.VisitApplied(q.payloads[step.k], q.wake.value) else []
  }

  function Do(meaning: Q.Item -> Item, s: Joint, m: Move): Joint
    requires Q.Wellformed(s.queue) && MayHappen(s, m)
  {
    match m
    case OnQueue(step, now) =>
      Joint(Q.Apply(s.queue, step), s.trace + Rebuild.Reapply(Meanings(meaning, Applied(s.queue, step)), now))
    case Live(step) => s.(trace := s.trace + [step])
    case Reprocessed => Joint(Reset(s.queue), s.trace + [Conversations.Step.CReprocess])
  }

  ghost predicate Happens(meaning: Q.Item -> Item, s: Joint, moves: seq<Move>)
    requires Q.Wellformed(s.queue)
    decreases |moves|
  {
    moves != [] ==>
      && MayHappen(s, moves[0]) && Q.Wellformed(Do(meaning, s, moves[0]).queue)
      && Happens(meaning, Do(meaning, s, moves[0]), moves[1..])
  }

  ghost function Finally(meaning: Q.Item -> Item, s: Joint, moves: seq<Move>): (s': Joint)
    requires Q.Wellformed(s.queue) && Happens(meaning, s, moves)
    ensures Q.Wellformed(s'.queue)
    decreases |moves|
  {
    if moves == [] then s else Finally(meaning, Do(meaning, s, moves[0]), moves[1..])
  }

  // ---- Oldest first -------------------------------------------------------------------------

  function Flat(done: seq<seq<Q.Item>>): seq<Q.Item> {
    if done == [] then [] else done[0] + Flat(done[1..])
  }

  /** Nothing of a payload is applied while an older one is open. */
  ghost predicate OldestFirst(q: Q.State)
    requires Q.Wellformed(q)
  {
    forall j, k :: 0 <= k < j < |q.payloads| && q.payloads[k].open ==> q.done[j] == []
  }

  lemma {:induction false} FlatOfNothing(done: seq<seq<Q.Item>>)
    requires forall j :: 0 <= j < |done| ==> done[j] == []
    ensures Flat(done) == []
  {
    if done != [] {
      FlatOfNothing(done[1..]);
    }
  }

  lemma {:induction false} FlatGrowsAt(done: seq<seq<Q.Item>>, k: nat, more: seq<Q.Item>)
    requires k < |done| && forall j :: k < j < |done| ==> done[j] == []
    ensures Flat(done[k := done[k] + more]) == Flat(done) + more
    decreases |done|
  {
    if k == 0 {
      FlatOfNothing(done[1..]);
      assert done[0 := done[0] + more][1..] == done[1..];
    } else {
      FlatGrowsAt(done[1..], k - 1, more);
      assert done[k := done[k] + more][1..] == done[1..][k - 1 := done[1..][k - 1] + more];
      assert done[0] + (Flat(done[1..]) + more) == (done[0] + Flat(done[1..])) + more;
    }
  }

  lemma {:induction false} FlatOneMore(done: seq<seq<Q.Item>>)
    ensures Flat(done + [[]]) == Flat(done)
  {
    if done == [] {
      assert done + [[]] == [[]] && Flat([[]]) == [] + Flat([]);
    } else {
      FlatOneMore(done[1..]);
      assert (done + [[]])[1..] == done[1..] + [[]];
    }
  }

  lemma QueueStaysOldestFirst(q: Q.State, step: Q.Step)
    requires Q.Wellformed(q) && OldestFirst(q) && Q.Possible(q, step)
    ensures Q.Wellformed(Q.Apply(q, step)) && OldestFirst(Q.Apply(q, step))
    ensures Flat(Q.Apply(q, step).done) == Flat(q.done) + Applied(q, step)
  {
    Q.StepKeepsWellformed(q, step);
    if step.YVisit? {
      FlatGrowsAt(q.done, step.k, Applied(q, step));
    } else if step.YCapture? {
      FlatOneMore(q.done);
    }
  }

  lemma ResetStaysOldestFirst(q: Q.State)
    requires Q.Wellformed(q)
    ensures Q.Wellformed(Reset(q)) && OldestFirst(Reset(q)) && Flat(Reset(q).done) == []
  {
    FlatOfNothing(Reset(q).done);
  }

  // ---- What the queue does to the store -----------------------------------------------------

  lemma {:induction false} HistoryJoins(w: H.World, a: seq<Step>, b: seq<Step>)
    ensures H.Finally(w, a + b) == H.Finally(H.Finally(w, a), b)
    decreases |a|
  {
    if a == [] {
      assert a + b == b;
    } else {
      HistoryJoins(H.Next(w, a[0]), a[1..], b);
      assert (a + b)[1..] == a[1..] + b;
    }
  }

  lemma {:induction false} ReapplyApplies(w: H.World, items: seq<Item>, now: Time)
    ensures H.Finally(w, Rebuild.Reapply(items, now)).applied == w.applied + items
    decreases |items|
  {
    if items == [] {
      assert w.applied + items == w.applied;
    } else {
      assert Rebuild.Reapply(items, now)[1..] == Rebuild.Reapply(items[1..], now);
      ReapplyApplies(H.Next(w, CItem(items[0], {}, None, now)), items[1..], now);
      assert w.applied + [items[0]] + items[1..] == w.applied + items;
    }
  }

  lemma MeaningsJoin(meaning: Q.Item -> Item, a: seq<Q.Item>, b: seq<Q.Item>)
    ensures Meanings(meaning, a + b) == Meanings(meaning, a) + Meanings(meaning, b)
  {
  }

  ghost predicate AllPlain(trace: seq<Step>) { forall k :: 0 <= k < |trace| ==> H.Plain(trace[k]) }

  /** The store has applied what the queue has, in the order of the payloads. */
  ghost predicate InStep(meaning: Q.Item -> Item, s: Joint) {
    && Q.Wellformed(s.queue) && OldestFirst(s.queue) && AllPlain(s.trace)
    && World(s).applied == Meanings(meaning, Flat(s.queue.done))
    && Q.ExactInv(s.queue) && Q.ClosedOk(s.queue.payloads)
  }

  lemma QueueKeepsInStep(meaning: Q.Item -> Item, s: Joint, step: Q.Step, now: Time)
    requires InStep(meaning, s) && Q.Possible(s.queue, step)
    ensures InStep(meaning, Do(meaning, s, OnQueue(step, now)))
  {
    var applied := Applied(s.queue, step);
    QueueStaysOldestFirst(s.queue, step);
    Q.StepKeepsExact(s.queue, step);
    StepKeepsClosed(s.queue, step);
    HistoryJoins(H.Start, s.trace, Rebuild.Reapply(Meanings(meaning, applied), now));
    ReapplyApplies(World(s), Meanings(meaning, applied), now);
    MeaningsJoin(meaning, Flat(s.queue.done), applied);
  }

  lemma StepKeepsClosed(q: Q.State, step: Q.Step)
    requires Q.Wellformed(q) && Q.ClosedOk(q.payloads) && Q.Possible(q, step)
    ensures Q.ClosedOk(Q.Apply(q, step).payloads)
  {
  }

  lemma OneStepJoins(w: H.World, trace: seq<Step>, step: Step)
    ensures H.Finally(w, trace + [step]) == H.Next(H.Finally(w, trace), step)
  {
    HistoryJoins(w, trace, [step]);
    assert [step][1..] == [];
    assert H.Finally(H.Finally(w, trace), [step]) == H.Finally(H.Next(H.Finally(w, trace), step), []);
  }

  lemma ResetIsExact(q: Q.State)
    requires Q.Wellformed(q)
    ensures Q.Wellformed(Reset(q)) && Q.ExactInv(Reset(q)) && Q.ClosedOk(Reset(q).payloads)
  {
    assert forall k :: 0 <= k < |q.payloads| ==> q.payloads[k].items[..0] == [];
  }

  lemma MoveKeepsInStep(meaning: Q.Item -> Item, s: Joint, m: Move)
    requires InStep(meaning, s) && MayHappen(s, m)
    ensures InStep(meaning, Do(meaning, s, m))
    ensures s.trace <= Do(meaning, s, m).trace
  {
    match m
    case OnQueue(step, now) => QueueKeepsInStep(meaning, s, step, now);
    case Live(step) => OneStepJoins(H.Start, s.trace, step);
    case Reprocessed =>
      OneStepJoins(H.Start, s.trace, CReprocess);
      ResetStaysOldestFirst(s.queue);
      ResetIsExact(s.queue);
  }

  lemma {:induction false} MovesKeepInStep(meaning: Q.Item -> Item, s: Joint, moves: seq<Move>)
    requires InStep(meaning, s) && Happens(meaning, s, moves)
    ensures InStep(meaning, Finally(meaning, s, moves)) && s.trace <= Finally(meaning, s, moves).trace
    decreases |moves|
  {
    if moves != [] {
      MoveKeepsInStep(meaning, s, moves[0]);
      MovesKeepInStep(meaning, Do(meaning, s, moves[0]), moves[1..]);
    }
  }

  // ---- Two passes ---------------------------------------------------------------------------

  /** Every payload was read to its end, and none holds an item that a refusal could hide. */
  ghost predicate ReadThrough(q: Q.State) {
    forall k :: 0 <= k < |q.payloads| ==> !q.payloads[k].open && !q.payloads[k].parked && Q.NoClash(q.payloads[k].items)
  }

  ghost predicate SamePayloads(q: Q.State, q': Q.State) {
    |q.payloads| == |q'.payloads| && forall k :: 0 <= k < |q.payloads| ==> q'.payloads[k].items == q.payloads[k].items
  }

  lemma ReadThroughIsSound(q: Q.State, k: nat)
    requires Q.Wellformed(q) && Q.ExactInv(q) && Q.ClosedOk(q.payloads) && ReadThrough(q) && k < |q.payloads|
    ensures q.done[k] == Q.Sound(q.payloads[k].items)
  {
    var p := q.payloads[k];
    assert p.items[..|p.items|] == p.items;
  }

  lemma SamePasses(q: Q.State, q': Q.State)
    requires Q.Wellformed(q) && Q.ExactInv(q) && Q.ClosedOk(q.payloads) && ReadThrough(q)
    requires Q.Wellformed(q') && Q.ExactInv(q') && Q.ClosedOk(q'.payloads) && ReadThrough(q')
    requires SamePayloads(q, q')
    ensures q'.done == q.done
  {
    forall k | 0 <= k < |q.payloads| ensures q'.done[k] == q.done[k] {
      ReadThroughIsSound(q, k);
      ReadThroughIsSound(q', k);
    }
  }

  lemma StartIsInStep(meaning: Q.Item -> Item)
    ensures InStep(meaning, Start)
  {
  }

  /** Main result: a rebuild by the queue itself. Once every payload has been read to its end, and after
      `reprocessSyncPayloads` once more, in slices and wakes that need not be the first ones and with live
      messages, sends and callbacks anywhere between them, the messages are the first pass's. */
  lemma RebuildByTheQueue(meaning: Q.Item -> Item, first: seq<Move>, second: seq<Move>, truth: map<string, string>, id: string)
    requires Happens(meaning, Start, first)
    requires var s := Finally(meaning, Start, first);
             && ReadThrough(s.queue) && MayHappen(s, Reprocessed)
             && Q.Wellformed(Do(meaning, s, Reprocessed).queue) && Happens(meaning, Do(meaning, s, Reprocessed), second)
             && var s' := Finally(meaning, Do(meaning, s, Reprocessed), second);
                ReadThrough(s'.queue) && SamePayloads(s.queue, s'.queue) && H.OnePhoneEach(s'.trace, truth)
    ensures var s := Finally(meaning, Start, first);
            Rebuild.SameMessage(World(s), World(Finally(meaning, Do(meaning, s, Reprocessed), second)), id)
  {
    var s := Finally(meaning, Start, first);
    StartIsInStep(meaning);
    MovesKeepInStep(meaning, Start, first);
    MoveKeepsInStep(meaning, s, Reprocessed);
    var cleared := Do(meaning, s, Reprocessed);
    MovesKeepInStep(meaning, cleared, second);
    var s' := Finally(meaning, cleared, second);
    SamePasses(s.queue, s'.queue);
    SecondPass(s, s', truth, id);
  }

  /** The trace of the second pass is the first one's, the rebuild, and what came after. */
  lemma SecondPass(s: Joint, s': Joint, truth: map<string, string>, id: string)
    requires s.trace + [Conversations.Step.CReprocess] <= s'.trace && AllPlain(s'.trace) && H.OnePhoneEach(s'.trace, truth)
    requires World(s').applied == World(s).applied
    ensures Rebuild.SameMessage(World(s), World(s'), id)
  {
    var n := |s.trace|;
    var more := s'.trace[n + 1..];
    assert s'.trace == s.trace + [Conversations.Step.CReprocess] + more;
    assert forall k :: 0 <= k < n ==> s.trace[k] == s'.trace[k];
    assert forall k :: 0 <= k < |more| ==> more[k] == s'.trace[n + 1 + k];
    HistoryJoins(H.Start, s.trace + [Conversations.Step.CReprocess], more);
    OneStepJoins(H.Start, s.trace, CReprocess);
    Rebuild.RebuildAmidTraffic(s.trace, more, truth, id);
  }
}
