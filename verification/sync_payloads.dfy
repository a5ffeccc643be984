/** The resumable processing of raw sync payloads (apps/gateway/src/gateway.ts `processSyncBatch`): a
    cursor per payload, slices of a budget of 200 items a wake, attempts that count aborted wakes, and
    parking. */
module SyncPayloads {
  import opened Core

  const SYNC_BATCH_UNITS: nat := 200
  const SYNC_MAX_BYTES: nat := 20_971_520
  const SYNC_MAX_ATTEMPTS: nat := 5

  /** What applying an item comes to: it is written, it says that history sharing is off, or it throws and
      is passed over. */
  datatype Effect = Applies | Refuses | Throws

  datatype Item = Item(id: nat, effect: Effect)

  datatype Payload = Payload(
    items: seq<Item>,
    byteSize: nat,
    readable: bool,
    cursor: nat,
    attempts: nat,
    open: bool,
    parked: bool)

  function Captured(items: seq<Item>, byteSize: nat, readable: bool): Payload {
    Payload(items, byteSize, readable, 0, 0, true, false)
  }

  // ---- One slice ----------------------------------------------------------------------------

  /** `sharingOff ||= apply(item)`: nothing after the slice's first refusal is applied. */
  function SliceApplied(slice: seq<Item>): seq<Item> {
    if slice == [] then []
    else match slice[0].effect
      case Refuses => [slice[0]]
      case Throws => SliceApplied(slice[1..])
      case Applies => [slice[0]] + SliceApplied(slice[1..])
  }

  predicate Refused(slice: seq<Item>) { exists k :: 0 <= k < |slice| && slice[k].effect.Refuses? }

  /** The items that do not throw. */
  function Sound(items: seq<Item>): seq<Item> {
    if items == [] then [] else (if items[0].effect.Throws? then [] else [items[0]]) + Sound(items[1..])
  }

  /** Nothing after a refusal would have been applied. */
  predicate NothingAfterRefusal(slice: seq<Item>) {
    forall k, j :: 0 <= k < j < |slice| && slice[k].effect.Refuses? ==> slice[j].effect.Throws?
  }

  lemma Regroup(a: seq<Item>, b: seq<Item>, c: seq<Item>)
    ensures a + (b + c) == a + b + c
  {
  }

  lemma SameHead(x: Item, a: seq<Item>, b: seq<Item>)
    ensures [x] + a == [x] + b <==> a == b
    ensures a <= b ==> [x] + a <= [x] + b
  {
    assert ([x] + a)[1..] == a && ([x] + b)[1..] == b;
  }

  lemma {:induction false} SoundOfBoth(a: seq<Item>, b: seq<Item>)
    ensures Sound(a + b) == Sound(a) + Sound(b)
  {
    if a == [] {
      assert a + b == b;
    } else {
      var first := if a[0].effect.Throws? then [] else [a[0]];
      SoundOfBoth(a[1..], b);
      assert (a + b)[1..] == a[1..] + b;
      Regroup(first, Sound(a[1..]), Sound(b));
    }
  }

  lemma {:induction false} NothingSound(items: seq<Item>)
    ensures Sound(items) == [] <==> forall j :: 0 <= j < |items| ==> items[j].effect.Throws?
  {
    if items != [] {
      NothingSound(items[1..]);
      assert forall j :: 0 < j < |items| ==> items[j] == items[1..][j - 1];
      assert forall j :: 0 <= j < |items| - 1 ==> items[1..][j] == items[j + 1];
    }
  }

  lemma RefusalFirst(slice: seq<Item>)
    requires slice != []
    ensures slice[0].effect.Refuses? ==>
              (NothingAfterRefusal(slice) <==> forall j :: 0 <= j < |slice| - 1 ==> slice[1..][j].effect.Throws?)
    ensures !slice[0].effect.Refuses? ==> (NothingAfterRefusal(slice) <==> NothingAfterRefusal(slice[1..]))
  {
    var rest := slice[1..];
    assert forall j :: 0 < j < |slice| ==> slice[j] == rest[j - 1];
    assert forall j :: 0 <= j < |rest| ==> rest[j] == slice[j + 1];
    if !slice[0].effect.Refuses? && NothingAfterRefusal(rest) {
      forall k, j | 0 <= k < j < |slice| && slice[k].effect.Refuses? ensures slice[j].effect.Throws? {
        assert rest[k - 1].effect.Refuses? && rest[j - 1] == slice[j];
      }
    }
  }

  /** Every item of a slice that does not throw is applied, once and in order, exactly when nothing would
      have been after a refusal. */
  lemma {:induction false} WholeSliceApplied(slice: seq<Item>)
    ensures SliceApplied(slice) <= Sound(slice)
    ensures SliceApplied(slice) == Sound(slice) <==> NothingAfterRefusal(slice)
  {
    if slice != [] {
      var rest := slice[1..];
      WholeSliceApplied(rest);
      RefusalFirst(slice);
      NothingSound(rest);
      if slice[0].effect.Applies? {
        SameHead(slice[0], SliceApplied(rest), Sound(rest));
      } else if slice[0].effect.Refuses? {
        SameHead(slice[0], [], Sound(rest));
      }
    }
  }

  lemma RefusedSoFar(slice: seq<Item>, i: nat)
    requires i < |slice|
    ensures Refused(slice[..i + 1]) <==> Refused(slice[..i]) || slice[i].effect.Refuses?
  {
    assert forall k :: 0 <= k < i ==> slice[..i + 1][k] == slice[..i][k];
    assert slice[..i + 1][i] == slice[i];
  }

  lemma AppliedFrom(slice: seq<Item>, i: nat)
    requires i < |slice|
    ensures SliceApplied(slice[i..]) == (if slice[i].effect.Throws? then [] else [slice[i]])
                                        + (if slice[i].effect.Refuses? then [] else SliceApplied(slice[i + 1..]))
  {
    assert slice[i..][0] == slice[i] && slice[i..][1..] == slice[i + 1..];
  }

  /** `at` are, in order, the positions of the slice whose items are applied: those that do not throw, up to the
      first refusal and with it. */
  ghost predicate AppliedAt(at: seq<nat>, slice: seq<Item>, applied: seq<Item>) {
    && |at| == |applied|
    && (forall i, j :: 0 <= i < j < |at| ==> at[i] < at[j])
    && (forall i :: 0 <= i < |at| ==> at[i] < |slice| && applied[i] == slice[at[i]])
    && (forall k: nat :: k in at <==> k < |slice| && !slice[k].effect.Throws? && forall j :: 0 <= j < k ==> !slice[j].effect.Refuses?)
  }

  ghost predicate UpToRefusal(slice: seq<Item>, applied: seq<Item>) { exists at: seq<nat> :: AppliedAt(at, slice, applied) }

  lemma {:induction false} AppliedWithLast(front: seq<Item>, last: Item)
    ensures SliceApplied(front + [last]) ==
              if Refused(front) || last.effect.Throws? then SliceApplied(front) else SliceApplied(front) + [last]
  {
    if front == [] {
      assert [] + [last] == [last] && [last][1..] == [];
    } else {
      var rest := front[1..];
      AppliedWithLast(rest, last);
      assert (front + [last])[1..] == rest + [last];
      assert Refused(front) <==> front[0].effect.Refuses? || Refused(rest) by {
        assert forall k :: 0 < k < |front| ==> front[k] == rest[k - 1];
        assert forall k :: 0 <= k < |rest| ==> rest[k] == front[k + 1];
      }
      if front[0].effect.Applies? {
        Regroup([front[0]], SliceApplied(rest), [last]);
      }
    }
  }

  lemma OneMoreApplied(at: seq<nat>, front: seq<Item>, last: Item, applied: seq<Item>)
    requires AppliedAt(at, front, applied)
    ensures !Refused(front) && !last.effect.Throws? ==> AppliedAt(at + [|front|], front + [last], applied + [last])
    ensures Refused(front) || last.effect.Throws? ==> AppliedAt(at, front + [last], applied)
  {
    var slice := front + [last];
    assert forall k :: 0 <= k < |front| ==> slice[k] == front[k];
    forall k: nat ensures k in at + [|front|] <==> k in at || k == |front| {
    }
    forall k | 0 <= k < |at| ensures at[k] < |front| {
      assert at[k] in at;
    }
  }

  lemma {:induction false} AppliedPositions(slice: seq<Item>) returns (at: seq<nat>)
    ensures AppliedAt(at, slice, SliceApplied(slice))
  {
    if slice == [] {
      at := [];
    } else {
      var front, last := slice[..|slice| - 1], slice[|slice| - 1];
      assert slice == front + [last];
      var before := AppliedPositions(front);
      AppliedWithLast(front, last);
      OneMoreApplied(before, front, last, SliceApplied(front));
      at := if Refused(front) || last.effect.Throws? then before else before + [|front|];
    }
  }

  /** Applies a slice the way the transaction does. */
  method ApplySlice(slice: seq<Item>) returns (applied: seq<Item>, sharingOff: bool)
    ensures UpToRefusal(slice, applied) && (sharingOff <==> exists k :: 0 <= k < |slice| && slice[k].effect.Refuses?)
    ensures applied == SliceApplied(slice)
  {
    applied, sharingOff := ReadSlice(slice);
    ghost var at := AppliedPositions(slice);
  }

  method ReadSlice(slice: seq<Item>) returns (applied: seq<Item>, sharingOff: bool)
    ensures applied == SliceApplied(slice)
    ensures sharingOff <==> Refused(slice)
  {
    applied, sharingOff := [], false;
    var i := 0;
    while i < |slice|
      invariant i <= |slice|
      invariant sharingOff <==> Refused(slice[..i])
      invariant SliceApplied(slice) == applied + (if sharingOff then [] else SliceApplied(slice[i..]))
    {
      RefusedSoFar(slice, i);
      if !sharingOff {
        var one := if slice[i].effect.Throws? then [] else [slice[i]];
        AppliedFrom(slice, i);
        Regroup(applied, one, if slice[i].effect.Refuses? then [] else SliceApplied(slice[i + 1..]));
        applied := applied + one;
        sharingOff := slice[i].effect.Refuses?;
      }
      i := i + 1;
    }
    assert slice[..i] == slice;
  }

  // ---- One visit ----------------------------------------------------------------------------

  function SliceEnd(p: Payload, budget: nat): nat {
    Min(|p.items|, p.cursor + budget)
  }

  /** Whether the visit gets as far as its slice. */
  predicate Slices(p: Payload) {
    p.byteSize <= SYNC_MAX_BYTES && p.attempts + 1 <= SYNC_MAX_ATTEMPTS && p.readable
  }

  function Parked(p: Payload): Payload { p.(open := false, parked := true) }

  function Visit(p: Payload, budget: nat): Payload {
    if p.byteSize > SYNC_MAX_BYTES || p.attempts + 1 > SYNC_MAX_ATTEMPTS then Parked(p)
    else if !p.readable then Parked(p.(attempts := p.attempts + 1))
    else
      var end := SliceEnd(p, budget);
      p.(cursor := end, open := end != |p.items|, attempts := 0)
  }

  function SliceOf(p: Payload, budget: nat): seq<Item>
    requires p.cursor <= |p.items|
  {
    p.items[p.cursor..SliceEnd(p, budget)]
  }

  function VisitApplied(p: Payload, budget: nat): seq<Item>
    requires p.cursor <= |p.items|
  {
    if Slices(p) then SliceApplied(SliceOf(p, budget)) else []
  }

  /** What the wake has left afterwards; None when the visit ends it. */
  function BudgetLeft(p: Payload, budget: nat): Option<nat>
    requires p.cursor <= |p.items|
  {
    if !Slices(p) then Some(budget)
    else if Refused(SliceOf(p, budget)) || SliceEnd(p, budget) < |p.items| then None
    else Some(budget - (SliceEnd(p, budget) - p.cursor))
  }

  /** A visit, case by case: a payload over 20 MB, on its sixth attempt or unreadable is parked with nothing applied;
      any other has its next items read, as many as the budget allows, applied up to a refusal, and is done once
      all are read. */
  ghost predicate VisitDone(p: Payload, p': Payload, budget: nat, applied: seq<Item>, refused: bool)
    requires p.cursor <= |p.items|
  {
    && p'.items == p.items && p'.byteSize == p.byteSize && p'.readable == p.readable
    && if p.byteSize > 20 * 1024 * 1024 || p.attempts >= 5 || !p.readable then
         && applied == [] && !refused && !p'.open && p'.parked && p'.cursor == p.cursor
         && p'.attempts == if p.byteSize > 20 * 1024 * 1024 || p.attempts >= 5 then p.attempts else p.attempts + 1
       else
         && p'.cursor == Min(|p.items|, p.cursor + budget) && p'.attempts == 0 && p'.parked == p.parked
         && (p'.open <==> p'.cursor < |p.items|)
         && UpToRefusal(p.items[p.cursor..p'.cursor], applied)
         && (refused <==> exists k :: p.cursor <= k < p'.cursor && p.items[k].effect.Refuses?)
  }

  lemma RefusedInSlice(items: seq<Item>, from: nat, to: nat)
    requires from <= to <= |items|
    ensures Refused(items[from..to]) <==> exists k :: from <= k < to && items[k].effect.Refuses?
  {
    if k :| from <= k < to && items[k].effect.Refuses? {
      assert items[from..to][k - from] == items[k];
    }
  }

  lemma VisitKeepsItsWord(p: Payload, budget: nat)
    requires p.cursor <= |p.items|
    ensures VisitDone(p, Visit(p, budget), budget, VisitApplied(p, budget), Slices(p) && Refused(SliceOf(p, budget)))
  {
    if Slices(p) {
      RefusedInSlice(p.items, p.cursor, SliceEnd(p, budget));
      var at := AppliedPositions(SliceOf(p, budget));
    }
  }

  /** Parks the payload, or applies its next slice. */
  method VisitPayload(p: Payload, budget: nat) returns (visited: Payload, applied: seq<Item>, refused: bool)
    requires p.cursor <= |p.items|
    ensures VisitDone(p, visited, budget, applied, refused)
    ensures visited == Visit(p, budget) && applied == VisitApplied(p, budget)
    ensures refused <==> Slices(p) && Refused(SliceOf(p, budget))
  {
    VisitKeepsItsWord(p, budget);
    visited, applied, refused := p, [], false;
    if p.byteSize > SYNC_MAX_BYTES || p.attempts + 1 > SYNC_MAX_ATTEMPTS {
      visited := p.(open := false, parked := true);
    } else if !p.readable {
      visited := p.(attempts := p.attempts + 1, open := false, parked := true);
    } else {
      var end := Min(|p.items|, p.cursor + budget);
      applied, refused := ApplySlice(p.items[p.cursor..end]);
      visited := p.(cursor := end, open := end != |p.items|, attempts := 0);
    }
  }

  // ---- Runs ---------------------------------------------------------------------------------

  /** `done` is what was applied of each payload, in order; `wake` the budget left of the wake in progress. */
  datatype State = State(payloads: seq<Payload>, done: seq<seq<Item>>, wake: Option<nat>)

  const Empty: State := State([], [], None)

  /** A wake has no await between two visits, so nothing is captured in it. A visit the runtime aborts has
      counted its attempt, and nothing else. */
  datatype Step =
    | YCapture(items: seq<Item>, byteSize: nat, readable: bool)
    | YWake
    | YVisit(k: nat)
    | YAbort(k: nat)
    | YSleep

  /** Wakes take the oldest payload that is open. */
  predicate Oldest(s: State, k: nat) {
    k < |s.payloads| && s.payloads[k].open && forall j :: 0 <= j < k ==> !s.payloads[j].open
  }

  predicate Visits(s: State, k: nat) { s.wake.Some? && s.wake.value > 0 && Oldest(s, k) }

  predicate Possible(s: State, step: Step) {
    match step
    case YCapture(_, _, _) => s.wake.None?
    case YWake => s.wake.None?
    case YVisit(k) => Visits(s, k)
    case YAbort(k) => Visits(s, k) && s.payloads[k].byteSize <= SYNC_MAX_BYTES && s.payloads[k].attempts + 1 <= SYNC_MAX_ATTEMPTS
    case YSleep => s.wake.Some? && (s.wake.value == 0 || forall k :: 0 <= k < |s.payloads| ==> !s.payloads[k].open)
  }

  ghost predicate Wellformed(s: State) {
    && |s.done| == |s.payloads| && (s.wake.Some? ==> s.wake.value <= SYNC_BATCH_UNITS)
    && (forall k :: 0 <= k < |s.payloads| ==>
          s.payloads[k].cursor <= |s.payloads[k].items| && s.payloads[k].attempts <= SYNC_MAX_ATTEMPTS)
  }

  function Visited(s: State, k: nat, budget: nat): State
    requires k < |s.payloads| && |s.done| == |s.payloads| && s.payloads[k].cursor <= |s.payloads[k].items|
  {
    State(s.payloads[k := Visit(s.payloads[k], budget)], s.done[k := s.done[k] + VisitApplied(s.payloads[k], budget)],
          BudgetLeft(s.payloads[k], budget))
  }

  function Apply(s: State, step: Step): State
    requires Wellformed(s) && Possible(s, step)
  {
    match step
    case YCapture(items, byteSize, readable) => State(s.payloads + [Captured(items, byteSize, readable)], s.done + [[]], None)
    case YWake => s.(wake := Some(SYNC_BATCH_UNITS))
    case YVisit(k) => Visited(s, k, s.wake.value)
    case YAbort(k) => s.(payloads := s.payloads[k := s.payloads[k].(attempts := s.payloads[k].attempts + 1)], wake := None)
    case YSleep => s.(wake := None)
  }

  lemma StepKeepsWellformed(s: State, step: Step)
    requires Wellformed(s) && Possible(s, step)
    ensures Wellformed(Apply(s, step))
  {
  }

  ghost predicate Run(s: State, steps: seq<Step>)
    requires Wellformed(s)
    decreases |steps|
  {
    steps != [] ==>
      Possible(s, steps[0]) && Wellformed(Apply(s, steps[0])) && Run(Apply(s, steps[0]), steps[1..])
  }

  ghost function After(s: State, steps: seq<Step>): (s': State)
    requires Wellformed(s) && Run(s, steps)
    ensures Wellformed(s')
    decreases |steps|
  {
    if steps == [] then s else After(Apply(s, steps[0]), steps[1..])
  }

  lemma {:induction false} OneMoreStep(s: State, steps: seq<Step>, step: Step)
    requires Wellformed(s) && Run(s, steps) && Possible(After(s, steps), step)
    ensures Run(s, steps + [step]) && After(s, steps + [step]) == Apply(After(s, steps), step)
    decreases |steps|
  {
    StepKeepsWellformed(After(s, steps), step);
    if steps == [] {
      assert steps + [step] == [step] && [step][1..] == [];
      assert Run(Apply(s, step), []);
    } else {
      OneMoreStep(Apply(s, steps[0]), steps[1..], step);
      assert (steps + [step])[1..] == steps[1..] + [step];
    }
  }

  // ---- Exactly the first `cursor` items -----------------------------------------------------

  /** Applied so far: the first `cursor` items but those that throw, each once and in order. */
  predicate Exact(p: Payload, done: seq<Item>)
    requires p.cursor <= |p.items|
  {
    done == Sound(p.items[..p.cursor])
  }

  /** A visit that starts exact ends exact exactly when nothing follows a refusal in its slice. */
  lemma VisitIsExactWhen(p: Payload, done: seq<Item>, budget: nat)
    requires p.cursor <= |p.items| && Exact(p, done) && Slices(p)
    ensures Exact(Visit(p, budget), done + VisitApplied(p, budget)) <==> NothingAfterRefusal(SliceOf(p, budget))
  {
    var slice := SliceOf(p, budget);
    WholeSliceApplied(slice);
    SoundOfBoth(p.items[..p.cursor], slice);
    assert p.items[..SliceEnd(p, budget)] == p.items[..p.cursor] + slice;
    assert (done + SliceApplied(slice))[|done|..] == SliceApplied(slice);
    assert (done + Sound(slice))[|done|..] == Sound(slice);
  }

  lemma ParkedIsExact(p: Payload, done: seq<Item>, budget: nat)
    requires p.cursor <= |p.items| && Exact(p, done) && !Slices(p)
    ensures Exact(Visit(p, budget), done + VisitApplied(p, budget))
  {
    assert done + [] == done;
  }

  /** A refusal, and an item that would be applied later, fewer than 200 items further on. */
  predicate Clash(items: seq<Item>, k: nat, j: nat) {
    k < j < |items| && j - k < SYNC_BATCH_UNITS && items[k].effect.Refuses? && !items[j].effect.Throws?
  }

  ghost predicate NoClash(items: seq<Item>) { forall k: nat, j: nat :: !Clash(items, k, j) }

  /** The same, in one of the slices a payload is cut into when every wake gives it the whole 200. */
  predicate ClashInOneWake(items: seq<Item>, k: nat, j: nat) {
    Clash(items, k, j) && k / SYNC_BATCH_UNITS == j / SYNC_BATCH_UNITS
  }

  ghost predicate NoClashInOneWake(items: seq<Item>) { forall k: nat, j: nat :: !ClashInOneWake(items, k, j) }

  /** What holds of one payload at every point of every run. */
  ghost predicate ExactAt(s: State, k: nat)
    requires Wellformed(s)
  {
    k < |s.payloads| ==> Exact(s.payloads[k], s.done[k])
  }

  ghost predicate ExactInv(s: State)
    requires Wellformed(s)
  {
    forall k :: 0 <= k < |s.payloads| && NoClash(s.payloads[k].items) ==> Exact(s.payloads[k], s.done[k])
  }

  lemma NoClashVisit(p: Payload, done: seq<Item>, budget: nat)
    requires p.cursor <= |p.items| && budget <= SYNC_BATCH_UNITS && NoClash(p.items) && Exact(p, done)
    ensures Exact(Visit(p, budget), done + VisitApplied(p, budget))
  {
    if Slices(p) {
      VisitIsExactWhen(p, done, budget);
      var slice := SliceOf(p, budget);
      forall k, j | 0 <= k < j < |slice| && slice[k].effect.Refuses? ensures slice[j].effect.Throws? {
        assert !Clash(p.items, p.cursor + k, p.cursor + j);
      }
    } else {
      ParkedIsExact(p, done, budget);
    }
  }

  lemma StepKeepsExact(s: State, step: Step)
    requires Wellformed(s) && ExactInv(s) && Possible(s, step)
    ensures Wellformed(Apply(s, step)) && ExactInv(Apply(s, step))
  {
    StepKeepsWellformed(s, step);
    if step.YVisit? && NoClash(s.payloads[step.k].items) {
      NoClashVisit(s.payloads[step.k], s.done[step.k], s.wake.value);
    }
  }

  lemma {:induction false} RunKeepsExact(s: State, steps: seq<Step>)
    requires Wellformed(s) && ExactInv(s) && Run(s, steps)
    ensures ExactInv(After(s, steps))
    decreases |steps|
  {
    if steps != [] {
      StepKeepsExact(s, steps[0]);
      RunKeepsExact(Apply(s, steps[0]), steps[1..]);
    }
  }

  /** The oldest payload of all has every wake to itself: its slices start at multiples of 200. */
  ghost predicate FirstInv(s: State, items: seq<Item>)
    requires Wellformed(s)
  {
    && |s.payloads| >= 1 && s.payloads[0].items == items && Exact(s.payloads[0], s.done[0])
    && (s.payloads[0].open ==> s.payloads[0].cursor % SYNC_BATCH_UNITS == 0 && (s.wake.Some? ==> s.wake.value == SYNC_BATCH_UNITS))
  }

  lemma SameWake(c: nat, k: nat, j: nat)
    requires c % SYNC_BATCH_UNITS == 0 && c <= k <= j < c + SYNC_BATCH_UNITS
    ensures k / SYNC_BATCH_UNITS == j / SYNC_BATCH_UNITS
  {
    var q := c / SYNC_BATCH_UNITS;
    assert c == SYNC_BATCH_UNITS * q;
  }

  lemma FirstVisit(p: Payload, done: seq<Item>)
    requires p.cursor <= |p.items| && p.cursor % SYNC_BATCH_UNITS == 0 && NoClashInOneWake(p.items) && Exact(p, done)
    ensures Exact(Visit(p, SYNC_BATCH_UNITS), done + VisitApplied(p, SYNC_BATCH_UNITS))
    ensures Visit(p, SYNC_BATCH_UNITS).open ==> Visit(p, SYNC_BATCH_UNITS).cursor % SYNC_BATCH_UNITS == 0
  {
    if Slices(p) {
      VisitIsExactWhen(p, done, SYNC_BATCH_UNITS);
      var slice := SliceOf(p, SYNC_BATCH_UNITS);
      forall k, j | 0 <= k < j < |slice| && slice[k].effect.Refuses? ensures slice[j].effect.Throws? {
        SameWake(p.cursor, p.cursor + k, p.cursor + j);
        assert !ClashInOneWake(p.items, p.cursor + k, p.cursor + j);
      }
    } else {
      ParkedIsExact(p, done, SYNC_BATCH_UNITS);
    }
  }

  lemma StepKeepsFirst(s: State, step: Step, items: seq<Item>)
    requires Wellformed(s) && FirstInv(s, items) && Possible(s, step) && NoClashInOneWake(items)
    ensures Wellformed(Apply(s, step)) && FirstInv(Apply(s, step), items)
  {
    StepKeepsWellformed(s, step);
    if step.YVisit? && step.k == 0 {
      FirstVisit(s.payloads[0], s.done[0]);
    }
  }

  lemma {:induction false} RunKeepsFirst(s: State, steps: seq<Step>, items: seq<Item>)
    requires Wellformed(s) && FirstInv(s, items) && Run(s, steps) && NoClashInOneWake(items)
    ensures FirstInv(After(s, steps), items)
    decreases |steps|
  {
    if steps != [] {
      StepKeepsFirst(s, steps[0], items);
      RunKeepsFirst(Apply(s, steps[0]), steps[1..], items);
    }
  }

  // ---- Runs that pass items over ------------------------------------------------------------

  ghost predicate Reaches(s: State, s': State)
    requires Wellformed(s)
  {
    exists steps :: Run(s, steps) && After(s, steps) == s'
  }

  lemma ReachesOneMore(s: State, u: State, step: Step)
    requires Wellformed(s) && Reaches(s, u) && Wellformed(u) && Possible(u, step)
    ensures Wellformed(Apply(u, step)) && Reaches(s, Apply(u, step))
  {
    var steps :| Run(s, steps) && After(s, steps) == u;
    OneMoreStep(s, steps, step);
    StepKeepsWellformed(u, step);
  }

  /** Payload k is the next to be visited, has got as far as `cursor`, and no wake is in progress. */
  ghost predicate Next(s: State, u: State, k: nat, items: seq<Item>, cursor: nat)
    requires Wellformed(s)
  {
    && Wellformed(u) && Reaches(s, u) && u.wake.None? && Oldest(u, k)
    && u.payloads[k].items == items && u.payloads[k].cursor == cursor && Slices(u.payloads[k])
  }

  /** A wake that reads 200 items and is not done with the payload. */
  lemma WholeWake(s: State, u: State, k: nat, items: seq<Item>, cursor: nat) returns (v: State)
    requires Wellformed(s) && Next(s, u, k, items, cursor) && cursor + SYNC_BATCH_UNITS < |items|
    ensures Next(s, v, k, items, cursor + SYNC_BATCH_UNITS)
  {
    ReachesOneMore(s, u, YWake);
    v := Apply(u, YWake);
    ReachesOneMore(s, v, YVisit(k));
    v := Apply(v, YVisit(k));
  }

  lemma {:induction false} WholeWakes(s: State, u: State, k: nat, items: seq<Item>, cursor: nat, n: nat) returns (v: State)
    requires Wellformed(s) && Next(s, u, k, items, cursor) && cursor + SYNC_BATCH_UNITS * n < |items|
    ensures Next(s, v, k, items, cursor + SYNC_BATCH_UNITS * n)
    decreases n
  {
    if n == 0 {
      v := u;
    } else {
      v := WholeWake(s, u, k, items, cursor);
      v := WholeWakes(s, v, k, items, cursor + SYNC_BATCH_UNITS, n - 1);
    }
  }

  /** From here the next wake passes an item over, if none has been yet. */
  lemma WakePassesOver(s: State, u: State, k: nat, items: seq<Item>, cursor: nat, i: nat, j: nat) returns (v: State)
    requires Wellformed(s) && Next(s, u, k, items, cursor)
    requires Clash(items, i, j) && cursor <= i && j < cursor + SYNC_BATCH_UNITS
    ensures Wellformed(v) && Reaches(s, v) && k < |v.payloads| && v.payloads[k].items == items && !ExactAt(v, k)
  {
    if !ExactAt(u, k) {
      v := u;
    } else {
      ReachesOneMore(s, u, YWake);
      v := Apply(u, YWake);
      var p := v.payloads[k];
      VisitIsExactWhen(p, v.done[k], SYNC_BATCH_UNITS);
      var slice := SliceOf(p, SYNC_BATCH_UNITS);
      assert slice[i - cursor] == items[i] && slice[j - cursor] == items[j];
      ReachesOneMore(s, v, YVisit(k));
      v := Apply(v, YVisit(k));
    }
  }

  // ---- The oldest payload -------------------------------------------------------------------

  /** Payload `items`, captured with no other open. */
  function Alone(items: seq<Item>): State { State([Captured(items, 0, true)], [[]], None) }

  ghost predicate FirstIsExact(items: seq<Item>) {
    forall steps :: Run(Alone(items), steps) ==> ExactAt(After(Alone(items), steps), 0)
  }

  lemma ReachesItself(s: State)
    requires Wellformed(s)
    ensures Reaches(s, s)
  {
    assert Run(s, []) && After(s, []) == s;
  }

  lemma WakeOf(k: nat)
    ensures SYNC_BATCH_UNITS * (k / SYNC_BATCH_UNITS) <= k < SYNC_BATCH_UNITS * (k / SYNC_BATCH_UNITS) + SYNC_BATCH_UNITS
  {
  }

  /** Main result, for the oldest payload: whatever slices and aborted wakes it sees, and whatever is
      captured after it, the items applied are at every point its first `cursor` ones but those that throw,
      each once and in order, exactly when no wake of 200 holds a refusal and, after it, an item that would
      be applied. */
  lemma OldestIsThePrefix(items: seq<Item>)
    ensures FirstIsExact(items) <==> NoClashInOneWake(items)
  {
    var s := Alone(items);
    assert Wellformed(s);
    if NoClashInOneWake(items) {
      assert items[..0] == [] && FirstInv(s, items);
      forall steps | Run(s, steps) ensures ExactAt(After(s, steps), 0) {
        RunKeepsFirst(s, steps, items);
      }
    } else {
      var k: nat, j: nat :| ClashInOneWake(items, k, j);
      ReachesItself(s);
      WakeOf(k);
      WakeOf(j);
      var u := WholeWakes(s, s, 0, items, 0, k / SYNC_BATCH_UNITS);
      u := WakePassesOver(s, u, 0, items, SYNC_BATCH_UNITS * (k / SYNC_BATCH_UNITS), k, j);
    }
  }

  lemma RefusalIsLast(first: Item, second: Item)
    requires first.effect.Refuses? && second.effect.Applies?
    ensures SliceApplied([first, second]) == [first] && Sound([first, second]) == [first, second] && Refused([first, second])
  {
    assert [first, second][1..] == [second] && [second][1..] == [];
    assert Sound([second]) == [second];
    assert [first, second][0].effect.Refuses?;
  }

  /** It does happen: one wake reads a refusal and the item after it, and the item is passed over. */
  lemma SkippedAfterRefusal(first: Item, second: Item)
    requires first.effect.Refuses? && second.effect.Applies?
    ensures var s, steps := Alone([first, second]), [YWake, YVisit(0)];
            Run(s, steps) && var s' := After(s, steps);
            !s'.payloads[0].open && s'.payloads[0].cursor == 2 && s'.done[0] == [first] && !ExactAt(s', 0)
  {
    var s, steps := Alone([first, second]), [YWake, YVisit(0)];
    var s1 := Apply(s, YWake);
    var s2 := Apply(s1, YVisit(0));
    RefusalIsLast(first, second);
    assert SliceOf(s1.payloads[0], SYNC_BATCH_UNITS) == [first, second];
    assert s2.payloads[0].items[..2] == [first, second];
    assert Run(s2, []) && steps[1..] == [YVisit(0)] && steps[1..][1..] == [];
    assert Run(s1, steps[1..]) && After(s1, steps[1..]) == s2;
  }

  // ---- Any payload of the queue -------------------------------------------------------------

  ghost predicate AlwaysExact(items: seq<Item>) {
    forall steps, k: nat :: Run(Empty, steps) && k < |After(Empty, steps).payloads| && After(Empty, steps).payloads[k].items == items ==>
      ExactAt(After(Empty, steps), k)
  }

  function Filler(n: nat): seq<Item> { seq(n, i requires 0 <= i < n => Item(i, Applies)) }

  /** An earlier payload takes `n` items of the wake, and the rest of the wake goes to this one. */
  lemma AfterFiller(items: seq<Item>, n: nat) returns (u: State)
    requires n < SYNC_BATCH_UNITS && SYNC_BATCH_UNITS - n < |items|
    ensures Wellformed(Empty) && Next(Empty, u, 1, items, SYNC_BATCH_UNITS - n)
  {
    ReachesItself(Empty);
    ReachesOneMore(Empty, Empty, YCapture(Filler(n), 0, true));
    u := Apply(Empty, YCapture(Filler(n), 0, true));
    ReachesOneMore(Empty, u, YCapture(items, 0, true));
    u := Apply(u, YCapture(items, 0, true));
    ReachesOneMore(Empty, u, YWake);
    u := Apply(u, YWake);
    u := FillerDone(u, items, n);
    ReachesOneMore(Empty, u, YVisit(1));
    u := Apply(u, YVisit(1));
  }

  lemma FillerDone(u: State, items: seq<Item>, n: nat) returns (v: State)
    requires Wellformed(Empty) && Wellformed(u) && Reaches(Empty, u) && n < SYNC_BATCH_UNITS
    requires u == State([Captured(Filler(n), 0, true), Captured(items, 0, true)], [[], []], Some(SYNC_BATCH_UNITS))
    ensures Wellformed(v) && Reaches(Empty, v)
    ensures |v.payloads| == 2 && !v.payloads[0].open && v.payloads[1] == Captured(items, 0, true)
    ensures v.wake == Some(SYNC_BATCH_UNITS - n)
  {
    var p := u.payloads[0];
    assert SliceOf(p, SYNC_BATCH_UNITS) == Filler(n);
    ReachesOneMore(Empty, u, YVisit(0));
    v := Apply(u, YVisit(0));
  }

  lemma CapturedAlone(items: seq<Item>) returns (u: State)
    ensures Wellformed(Empty) && Next(Empty, u, 0, items, 0)
  {
    ReachesItself(Empty);
    ReachesOneMore(Empty, Empty, YCapture(items, 0, true));
    u := Apply(Empty, YCapture(items, 0, true));
  }

  /** Wakes can be laid so that one starts at item k. */
  lemma WakeStartsAt(items: seq<Item>, k: nat) returns (u: State, q: nat)
    requires k < |items|
    ensures Wellformed(Empty) && Next(Empty, u, q, items, k)
  {
    if k % SYNC_BATCH_UNITS == 0 {
      q := 0;
      u := CapturedAlone(items);
      u := WholeWakes(Empty, u, 0, items, 0, k / SYNC_BATCH_UNITS);
    } else {
      var first := k % SYNC_BATCH_UNITS;
      q := 1;
      u := AfterFiller(items, SYNC_BATCH_UNITS - first);
      u := WholeWakes(Empty, u, 1, items, first, k / SYNC_BATCH_UNITS);
    }
  }

  /** Main result, for a payload anywhere in the queue, where earlier ones take a part of the wake: the
      items applied are at every point of every run its first `cursor` ones but those that throw, each once
      and in order, exactly when no item that would be applied comes fewer than 200 items after a refusal. */
  lemma AppliedIsThePrefix(items: seq<Item>)
    ensures AlwaysExact(items) <==> NoClash(items)
  {
    if NoClash(items) {
      forall steps, k: nat | Run(Empty, steps) && k < |After(Empty, steps).payloads| && After(Empty, steps).payloads[k].items == items
        ensures ExactAt(After(Empty, steps), k)
      {
        RunKeepsExact(Empty, steps);
      }
    } else {
      var k: nat, j: nat :| Clash(items, k, j);
      var u, q := WakeStartsAt(items, k);
      u := WakePassesOver(Empty, u, q, items, k, k, j);
      var steps :| Run(Empty, steps) && After(Empty, steps) == u;
      assert !ExactAt(After(Empty, steps), q);
    }
  }

  // ---- It ends ------------------------------------------------------------------------------

  predicate InRange(p: Payload) { p.cursor <= |p.items| && p.attempts <= SYNC_MAX_ATTEMPTS }

  /** Items left, then attempts left: what a payload still has to go through. */
  function WorkLeft(p: Payload): nat
    requires InRange(p)
  {
    if p.open then 6 * (|p.items| - p.cursor) + (SYNC_MAX_ATTEMPTS - p.attempts) + 1 else 0
  }

  predicate AllInRange(ps: seq<Payload>) {
    forall k :: 0 <= k < |ps| ==> InRange(ps[k])
  }

  function TotalLeft(ps: seq<Payload>): nat
    requires AllInRange(ps)
  {
    if ps == [] then 0 else WorkLeft(ps[0]) + TotalLeft(ps[1..])
  }

  /** Items passed by the cursors. */
  function TotalPassed(ps: seq<Payload>): nat {
    if ps == [] then 0 else ps[0].cursor + TotalPassed(ps[1..])
  }

  lemma {:induction false} OneChanged(ps: seq<Payload>, k: nat, p: Payload)
    requires k < |ps| && AllInRange(ps) && InRange(p)
    ensures AllInRange(ps[k := p])
    ensures TotalLeft(ps[k := p]) + WorkLeft(ps[k]) == TotalLeft(ps) + WorkLeft(p)
    ensures TotalPassed(ps[k := p]) + ps[k].cursor == TotalPassed(ps) + p.cursor
  {
    if k == 0 {
      assert ps[0 := p][1..] == ps[1..];
    } else {
      OneChanged(ps[1..], k - 1, p);
      assert ps[k := p][1..] == ps[1..][k - 1 := p];
    }
  }

  /** A visit parks the payload, finishes it or moves its cursor on; an aborted one uses up an attempt. */
  lemma VisitMakesProgress(p: Payload, budget: nat)
    requires p.open && InRange(p) && budget >= 1
    ensures InRange(Visit(p, budget))
    ensures WorkLeft(Visit(p, budget)) < WorkLeft(p)
    ensures p.cursor <= Visit(p, budget).cursor <= p.cursor + budget
    ensures Visit(p, budget).items == p.items
    ensures !Visit(p, budget).open ==> Visit(p, budget).parked || Visit(p, budget).cursor == |p.items|
  {
  }

  lemma VisitTakesWork(s: State, step: Step)
    requires Wellformed(s) && Possible(s, step) && (step.YVisit? || step.YAbort?)
    ensures Wellformed(Apply(s, step)) && TotalLeft(Apply(s, step).payloads) < TotalLeft(s.payloads)
  {
    var k := step.k;
    if step.YVisit? {
      VisitMakesProgress(s.payloads[k], s.wake.value);
      OneChanged(s.payloads, k, Visit(s.payloads[k], s.wake.value));
    } else {
      OneChanged(s.payloads, k, s.payloads[k].(attempts := s.payloads[k].attempts + 1));
    }
  }

  function VisitsIn(steps: seq<Step>): nat {
    if steps == [] then 0 else (if steps[0].YVisit? || steps[0].YAbort? then 1 else 0) + VisitsIn(steps[1..])
  }

  /** Processing ends: between captures there are never more visits, aborted or not, than work was left,
      so the payloads end up finished or parked however the wakes go. */
  lemma {:induction false} VisitsAreBounded(s: State, steps: seq<Step>)
    requires Wellformed(s) && Run(s, steps) && forall k :: 0 <= k < |steps| ==> !steps[k].YCapture?
    ensures VisitsIn(steps) + TotalLeft(After(s, steps).payloads) <= TotalLeft(s.payloads)
    decreases |steps|
  {
    if steps != [] {
      if steps[0].YVisit? || steps[0].YAbort? {
        VisitTakesWork(s, steps[0]);
      } else {
        assert Apply(s, steps[0]).payloads == s.payloads;
      }
      assert forall k :: 0 <= k < |steps| - 1 ==> steps[1..][k] == steps[k + 1];
      VisitsAreBounded(Apply(s, steps[0]), steps[1..]);
    }
  }

  /** No work left means every payload was read to its end or parked. */
  ghost predicate ClosedOk(ps: seq<Payload>) {
    forall k :: 0 <= k < |ps| && !ps[k].open ==> ps[k].parked || ps[k].cursor == |ps[k].items|
  }

  lemma {:induction false} NoWorkLeftIsClosed(ps: seq<Payload>)
    requires AllInRange(ps)
    ensures TotalLeft(ps) == 0 <==> forall k :: 0 <= k < |ps| ==> !ps[k].open
  {
    if ps != [] {
      NoWorkLeftIsClosed(ps[1..]);
      assert forall k :: 0 < k < |ps| ==> ps[k] == ps[1..][k - 1];
      assert forall k :: 0 <= k < |ps| - 1 ==> ps[1..][k] == ps[k + 1];
    }
  }

  lemma VisitTotals(s: State, k: nat)
    requires Wellformed(s) && AllInRange(s.payloads) && ClosedOk(s.payloads) && Visits(s, k)
    ensures var before, after, p := s.payloads, Apply(s, YVisit(k)).payloads, s.payloads[k];
            && AllInRange(after) && ClosedOk(after) && TotalLeft(after) < TotalLeft(before)
            && TotalPassed(after) + p.cursor == TotalPassed(before) + after[k].cursor
            && p.cursor <= after[k].cursor <= p.cursor + s.wake.value
  {
    VisitMakesProgress(s.payloads[k], s.wake.value);
    OneChanged(s.payloads, k, Visit(s.payloads[k], s.wake.value));
  }

  /** A wake that has `budget` left has passed the rest of the 200 items, and done work if it took any turn. */
  predicate SoFar(before: seq<Payload>, now: seq<Payload>, budget: nat)
    requires AllInRange(before) && AllInRange(now)
  {
    && TotalPassed(now) + budget == TotalPassed(before) + SYNC_BATCH_UNITS
    && ((now == before && budget == SYNC_BATCH_UNITS) || TotalLeft(now) < TotalLeft(before))
  }

  // ---- The queue ----------------------------------------------------------------------------

  /** The `sync_payloads` table; `done` is what processing applied of each payload, `wake` what is left of
      the wake in progress. */
  class Queue {
    var payloads: seq<Payload>
    var sharingOff: bool
    var done: seq<seq<Item>>
    ghost var wake: Option<nat>

    ghost function Table(): State
      reads this
    {
      State(payloads, done, wake)
    }

    ghost predicate Valid()
      reads this
    {
      Wellformed(Table()) && ExactInv(Table()) && AllInRange(payloads) && ClosedOk(payloads)
    }

    constructor ()
      ensures Valid() && Table() == Empty
    {
      payloads, sharingOff, done, wake := [], false, [], None;
    }

    /** Stores a payload, to be processed after the ones before it. */
    method Capture(items: seq<Item>, byteSize: nat, readable: bool)
      requires Valid() && wake.None?
      modifies this
      ensures Valid() && sharingOff == old(sharingOff)
      ensures Table() == Apply(old(Table()), YCapture(items, byteSize, readable))
      ensures payloads == old(payloads) + [Payload(items, byteSize, readable, 0, 0, true, false)] && done == old(done) + [[]]
    {
      ghost var before := Table();
      payloads, done := payloads + [Captured(items, byteSize, readable)], done + [[]];
      StepKeepsExact(before, YCapture(items, byteSize, readable));
    }

    ghost method Wakes(budget: Option<nat>)
      requires Valid() && (budget.Some? ==> budget.value <= SYNC_BATCH_UNITS)
      modifies this`wake
      ensures Valid() && wake == budget
    {
      wake := budget;
    }

    /** One wake: oldest first, at most 200 items. `again` says whether another wake is needed. */
    method ProcessSyncBatch() returns (again: bool)
      requires Valid() && wake.None?
      modifies this
      ensures Valid() && wake.None? && |payloads| == |old(payloads)|
      ensures TotalLeft(old(payloads)) > 0 ==> TotalLeft(payloads) < TotalLeft(old(payloads))
      ensures TotalPassed(old(payloads)) <= TotalPassed(payloads) <= TotalPassed(old(payloads)) + SYNC_BATCH_UNITS
      ensures !again ==> forall k :: 0 <= k < |payloads| ==> !payloads[k].open
      ensures again ==> sharingOff || exists k :: 0 <= k < |payloads| && payloads[k].open
    {
      ghost var before := payloads;
      var budget := SYNC_BATCH_UNITS;
      var k := 0;
      Wakes(Some(budget));
      NoWorkLeftIsClosed(payloads);
      while k < |payloads|
        invariant k <= |payloads| && |payloads| == |before| && Valid() && wake == Some(budget)
        invariant forall j :: 0 <= j < k ==> !payloads[j].open
        invariant 0 <= budget <= SYNC_BATCH_UNITS && AllInRange(before) && SoFar(before, payloads, budget)
      {
        if payloads[k].open {
          if budget == 0 {
            Wakes(None);
            return true;
          }
          again, budget := Turn(before, k, budget);
          if again {
            return;
          }
        }
        k := k + 1;
      }
      NoWorkLeftIsClosed(payloads);
      Wakes(None);
      again := false;
    }

    /** One turn of a wake: whether it ends the wake, and the budget it leaves. */
    method Turn(ghost before: seq<Payload>, k: nat, budget: nat) returns (stop: bool, left: nat)
      requires Valid() && wake == Some(budget) && Visits(Table(), k)
      requires AllInRange(before) && SoFar(before, payloads, budget)
      modifies this
      ensures Valid() && |payloads| == |old(payloads)| && left <= SYNC_BATCH_UNITS && SoFar(before, payloads, left)
      ensures forall j :: 0 <= j < k ==> payloads[j] == old(payloads)[j]
      ensures TotalLeft(payloads) < TotalLeft(before)
      ensures k < |payloads| && (stop ==> sharingOff || payloads[k].open)
      ensures if stop then wake.None? else wake == Some(left) && !payloads[k].open
    {
      var cursor := payloads[k].cursor;
      var refused := VisitOne(k, budget);
      left := budget - (payloads[k].cursor - cursor);
      stop := refused || payloads[k].open;
    }

    /** Parks one payload, or applies its next slice. Returns whether it was refused. */
    method VisitOne(k: nat, budget: nat) returns (refused: bool)
      requires Valid() && wake == Some(budget) && Visits(Table(), k)
      modifies this
      ensures Valid() && Table() == Apply(old(Table()), YVisit(k))
      ensures TotalLeft(payloads) < TotalLeft(old(payloads))
      ensures TotalPassed(payloads) + old(payloads)[k].cursor == TotalPassed(old(payloads)) + payloads[k].cursor
      ensures old(payloads)[k].cursor <= payloads[k].cursor <= old(payloads)[k].cursor + budget
      ensures |payloads| == |old(payloads)| && forall j :: 0 <= j < |payloads| && j != k ==> payloads[j] == old(payloads)[j]
      ensures sharingOff == (old(sharingOff) || refused)
      ensures exists applied :: VisitDone(old(payloads)[k], payloads[k], budget, applied, refused)
                                && done == old(done)[k := old(done)[k] + applied]
      ensures wake == if refused || payloads[k].open then None else Some(budget - (payloads[k].cursor - old(payloads)[k].cursor))
    {
      ghost var before := Table();
      refused := WriteVisit(k, budget);
      VisitTotals(before, k);
      StepKeepsExact(before, YVisit(k));
    }

    method WriteVisit(k: nat, budget: nat) returns (refused: bool)
      requires Wellformed(Table()) && wake == Some(budget) && k < |payloads|
      modifies this
      ensures Table() == Visited(old(Table()), k, budget) && sharingOff == (old(sharingOff) || refused)
      ensures refused <==> Slices(old(payloads)[k]) && Refused(SliceOf(old(payloads)[k], budget))
      ensures exists applied :: VisitDone(old(payloads)[k], payloads[k], budget, applied, refused)
                                && done == old(done)[k := old(done)[k] + applied]
    {
      var p := payloads[k];
      var visited, applied, off := VisitPayload(p, budget);
      payloads, done := payloads[k := visited], done[k := done[k] + applied];
      wake := BudgetLeft(p, budget);
      sharingOff, refused := sharingOff || off, off;
    }
  }
}
