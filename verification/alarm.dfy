/** One alarm for five kinds of work (apps/gateway/src/gateway.ts `alarm`, `wakeNow`, `hold`,
    `putScheduled` and the calls that arm it directly).

    A run of `alarm()` collects wakes at several points with awaits between them, and RPCs add work at
    every one of those awaits. `hold` and `putScheduled` arm only after an await of their own. */
module Alarm {
  import opened Core

  const SWEEP_INTERVAL_MS: int := 3_600_000
  const MEDIA_RETRY_MS: int := 60_000
  const STEP_RETRY_MS: int := 30_000

  /** A pending delivery, an unprocessed sync payload, a held batch, a pending or sending scheduled
      send, a running broadcast. */
  datatype Kind = Delivery | Sync | Held | Scheduled | Broadcast

  /** The arming half of `hold` and `putScheduled`: before and after it read the alarm. */
  datatype Arming =
    | HoldAsks
    | HoldSaw(armed: Option<Time>)
    | PutAsks(at: Time)
    | PutSaw(at: Time, armed: Option<Time>)

  /** Where `alarm()` waits. `wakes` is what it collected so far. */
  datatype Phase =
    | Asleep
    | Draining
    | Syncing(wakes: seq<Time>)
    | Scheduling(wakes: seq<Time>)
    | Broadcasting(wakes: seq<Time>, retryAt: Option<Time>)
    | Purging(wakes: seq<Time>, retryAt: Option<Time>)

  datatype State = State(
    work: set<Kind>,
    armed: Option<Time>,
    wakeArrived: bool,
    phase: Phase,
    calls: multiset<Arming>,
    clock: Time)

  const Idle: State := State({}, None, false, Asleep, multiset{}, 0)

  function Pushed(wakes: seq<Time>, wake: Option<Time>): seq<Time> {
    if wake.Some? then wakes + [wake.value] else wakes
  }

  function MinOf(wakes: seq<Time>): (m: Time)
    requires wakes != []
    ensures m in wakes && forall w :: w in wakes ==> m <= w
  {
    if |wakes| == 1 then wakes[0]
    else
      assert wakes == wakes[..|wakes| - 1] + [wakes[|wakes| - 1]];
      Min(MinOf(wakes[..|wakes| - 1]), wakes[|wakes| - 1])
  }

  // ---- RPCs ---------------------------------------------------------------------------------

  function Add(s: State, kind: Kind, now: Time): State { s.(work := s.work + {kind}, clock := now) }

  /** Arms for now, and tells a run in progress. */
  function WakeNow(s: State, now: Time): State { s.(wakeArrived := true, armed := Some(now), clock := now) }

  function Hold(s: State, now: Time): State {
    Add(s, Held, now).(calls := s.calls + multiset{HoldAsks})
  }

  /** A send due now wakes at once; a later one first asks for the armed time. */
  function PutScheduled(s: State, at: Time, now: Time): State {
    var added := Add(s, Scheduled, now);
    if at <= now then WakeNow(added, now) else added.(calls := s.calls + multiset{PutAsks(at)})
  }

  function Saw(c: Arming, armed: Option<Time>): Arming {
    match c
    case HoldAsks => HoldSaw(armed)
    case PutAsks(at) => PutSaw(at, armed)
    case _ => c
  }

  predicate Asks(c: Arming) { c.HoldAsks? || c.PutAsks? }

  function ReadAlarm(s: State, c: Arming): State {
    s.(calls := s.calls - multiset{c} + multiset{Saw(c, s.armed)})
  }

  /** When the call arms the alarm after what it saw, or None. */
  function ArmsFor(c: Arming, now: Time): Option<Time> {
    match c
    case HoldSaw(armed) => if armed.None? then Some(now + SWEEP_INTERVAL_MS) else None
    case PutSaw(at, armed) => if armed.None? || armed.value > at then Some(at) else None
    case _ => None
  }

  function FinishCall(s: State, c: Arming, now: Time): State {
    var at := ArmsFor(c, now);
    s.(calls := s.calls - multiset{c}, armed := if at.Some? then at else s.armed, clock := now)
  }

  // ---- A run of alarm() ---------------------------------------------------------------------

  /** The fired alarm is gone; what arrives from here on is new. */
  function Start(s: State, now: Time): State {
    s.(armed := None, wakeArrived := false, phase := Draining, clock := now)
  }

  /** After the deliveries and the sweep: the delivery wake (slow while no target is set) and the sweep for held batches. */
  function Drained(s: State, hasTarget: bool, nextAttempt: Time, nextSweep: Time, now: Time): State {
    var delivery := if Delivery in s.work then Some(if hasTarget then nextAttempt else nextSweep) else None;
    var held := if Held in s.work then Some(nextSweep) else None;
    s.(phase := Syncing(Pushed(Pushed([], delivery), held)), clock := now)
  }

  /** The sync step asks for a wake while payloads are left, and to report a refusal of sharing again. */
  function SyncStepped(s: State, delay: int, report: bool, now: Time): State
    requires s.phase.Syncing?
  {
    s.(phase := Scheduling(Pushed(s.phase.wakes, if Sync in s.work || report then Some(now + delay) else None)), clock := now)
  }

  function ScheduledStepped(s: State, failed: bool, now: Time): State
    requires s.phase.Scheduling?
  {
    var retryAt := if failed then Some(now + STEP_RETRY_MS) else None;
    s.(phase := Broadcasting(Pushed(s.phase.wakes, retryAt), retryAt), clock := now)
  }

  function BroadcastStepped(s: State, next: Time, failed: bool, now: Time): State
    requires s.phase.Broadcasting?
  {
    var wake := if failed then Some(now + STEP_RETRY_MS)
                else if Broadcast in s.work then Some(Max(next, now + 250)) else None;
    s.(phase := Purging(Pushed(s.phase.wakes, wake), s.phase.retryAt), clock := now)
  }

  /** Everything from the last await to the end. */
  function Finish(s: State, media: Option<Time>, scheduledAt: Time, now: Time): State
    requires s.phase.Purging?
  {
    var withMedia := Pushed(s.phase.wakes, media);
    var withScheduled := Pushed(withMedia, if s.phase.retryAt.None? && Scheduled in s.work then Some(scheduledAt) else None);
    var wakes := Pushed(withScheduled, if s.wakeArrived then Some(now) else None);
    s.(phase := Asleep, armed := if wakes != [] then Some(MinOf(wakes)) else s.armed, clock := now)
  }

  /** The object dies. Its memory goes, and the platform runs a cut-off alarm again. */
  function Crash(s: State, now: Time): State {
    s.(phase := Asleep, armed := if s.phase.Asleep? then s.armed else Some(now), wakeArrived := false,
       calls := multiset{}, clock := now)
  }

  datatype Step =
    | Ingest(kind: Kind, now: Time)          // events or a sync payload, and a new broadcast
    | ArmDirectly(kind: Kind, now: Time)     // retried deliveries, a new target, reprocessing
    | ArmForMedia(now: Time)                 // an erasure whose media is still to be deleted
    | HoldBatch(now: Time)
    | Put(at: Time, now: Time)
    | AskAlarm(c: Arming)
    | EndCall(c: Arming, now: Time)
    | Clear(kind: Kind)                      // the last piece of one kind of work is done, deleted or cancelled
    | Fire(now: Time)
    | EndDrain(hasTarget: bool, nextAttempt: Time, nextSweep: Time, now: Time)
    | EndSync(delay: int, report: bool, now: Time)
    | EndScheduled(failed: bool, now: Time)
    | EndBroadcast(next: Time, failed: bool, now: Time)
    | EndRun(media: Option<Time>, scheduledAt: Time, now: Time)
    | Die(now: Time)

  predicate Possible(s: State, step: Step) {
    match step
    case Ingest(kind, now) => (kind.Delivery? || kind.Sync? || kind.Broadcast?) && now >= s.clock
    case ArmDirectly(kind, now) => (kind.Delivery? || kind.Sync?) && now >= s.clock
    case ArmForMedia(now) => now >= s.clock
    case HoldBatch(now) => now >= s.clock
    case Put(_, now) => now >= s.clock
    case AskAlarm(c) => c in s.calls && Asks(c)
    case EndCall(c, now) => c in s.calls && !Asks(c) && now >= s.clock
    case Clear(kind) => true
    case Fire(now) => s.phase.Asleep? && s.armed.Some? && s.armed.value <= now && now >= s.clock
    case EndDrain(_, _, _, now) => s.phase.Draining? && now >= s.clock
    case EndSync(_, _, now) => s.phase.Syncing? && now >= s.clock
    case EndScheduled(_, now) => s.phase.Scheduling? && now >= s.clock
    case EndBroadcast(_, _, now) => s.phase.Broadcasting? && now >= s.clock
    case EndRun(_, _, now) => s.phase.Purging? && now >= s.clock
    case Die(now) => now >= s.clock
  }

  function Apply(s: State, step: Step): State
    requires Possible(s, step)
  {
    match step
    case Ingest(kind, now) => WakeNow(Add(s, kind, now), now)
    case ArmDirectly(kind, now) => Add(s, kind, now).(armed := Some(now))
    case ArmForMedia(now) => s.(armed := Some(now + MEDIA_RETRY_MS), clock := now)
    case HoldBatch(now) => Hold(s, now)
    case Put(at, now) => PutScheduled(s, at, now)
    case AskAlarm(c) => ReadAlarm(s, c)
    case EndCall(c, now) => FinishCall(s, c, now)
    case Clear(kind) => s.(work := s.work - {kind})
    case Fire(now) => Start(s, now)
    case EndDrain(hasTarget, nextAttempt, nextSweep, now) => Drained(s, hasTarget, nextAttempt, nextSweep, now)
    case EndSync(delay, report, now) => SyncStepped(s, delay, report, now)
    case EndScheduled(failed, now) => ScheduledStepped(s, failed, now)
    case EndBroadcast(next, failed, now) => BroadcastStepped(s, next, failed, now)
    case EndRun(media, scheduledAt, now) => Finish(s, media, scheduledAt, now)
    case Die(now) => Crash(s, now)
  }

  predicate Run(s: State, steps: seq<Step>)
    decreases |steps|
  {
    steps == [] || (Possible(s, steps[0]) && Run(Apply(s, steps[0]), steps[1..]))
  }

  function After(s: State, steps: seq<Step>): State
    requires Run(s, steps)
    decreases |steps|
  {
    if steps == [] then s else After(Apply(s, steps[0]), steps[1..])
  }

  // ---- No lost wake-up ----------------------------------------------------------------------

  predicate WillArm(c: Arming) {
    match c
    case HoldSaw(armed) => armed.None?
    case PutSaw(at, armed) => armed.None? || armed.value > at
    case _ => true
  }

  ghost predicate CallWillArm(s: State) { exists c :: c in s.calls && WillArm(c) }

  function Wakes(s: State): seq<Time> {
    match s.phase
    case Asleep => []
    case Draining => []
    case Syncing(wakes) => wakes
    case Scheduling(wakes) => wakes
    case Broadcasting(wakes, _) => wakes
    case Purging(wakes, _) => wakes
  }

  /** The kinds of work the run in progress has already looked for. */
  function Checked(phase: Phase): set<Kind> {
    match phase
    case Asleep => {Delivery, Sync, Held, Scheduled, Broadcast}
    case Draining => {}
    case Syncing(_) => {Delivery, Held}
    case Scheduling(_) => {Delivery, Held, Sync}
    case Broadcasting(_, _) => {Delivery, Held, Sync}
    case Purging(_, _) => {Delivery, Held, Sync, Broadcast}
  }

  /** An alarm is set, or one of the run's wakes or a call in flight is going to set one. */
  ghost predicate Covered(s: State) {
    s.armed.Some? || Wakes(s) != [] || (!s.phase.Asleep? && s.wakeArrived) || CallWillArm(s)
  }

  ghost predicate Inv(s: State) {
    && (s.work * Checked(s.phase) != {} ==> Covered(s))
    && (s.phase.Broadcasting? && s.phase.retryAt.Some? ==> s.phase.wakes != [])
    && (s.phase.Purging? && s.phase.retryAt.Some? ==> s.phase.wakes != [])
  }

  lemma CallStays(s: State, s': State, c: Arming)
    requires c in s'.calls && WillArm(c)
    ensures CallWillArm(s')
  {
  }

  lemma ReadKeepsInv(s: State, c: Arming)
    requires Inv(s) && c in s.calls && Asks(c)
    ensures Inv(ReadAlarm(s, c))
  {
    var s' := ReadAlarm(s, c);
    if s.armed.None? && CallWillArm(s) {
      CallStays(s, s', Saw(c, s.armed));
    }
  }

  lemma EndKeepsInv(s: State, c: Arming, now: Time)
    requires Inv(s) && c in s.calls && !Asks(c)
    ensures Inv(FinishCall(s, c, now))
  {
    var s' := FinishCall(s, c, now);
    if CallWillArm(s) && !WillArm(c) {
      var d :| d in s.calls && WillArm(d);
      assert d in s'.calls;
    }
  }

  lemma AddCallKeepsInv(s: State, now: Time, kind: Kind, c: Arming)
    requires Inv(s) && WillArm(c)
    ensures Inv(Add(s, kind, now).(calls := s.calls + multiset{c}))
  {
    assert c in s.calls + multiset{c};
  }

  lemma SameCalls(s: State, s': State)
    requires s'.calls == s.calls
    ensures CallWillArm(s) <==> CallWillArm(s')
  {
  }

  lemma StepKeepsInv(s: State, step: Step)
    requires Inv(s) && Possible(s, step)
    requires step.Die? && s.phase.Asleep? && s.armed.None? ==> s.work == {}
    ensures Inv(Apply(s, step))
  {
    match step
    case HoldBatch(now) => AddCallKeepsInv(s, now, Held, HoldAsks);
    case Put(at, now) => if at > now { AddCallKeepsInv(s, now, Scheduled, PutAsks(at)); }
    case AskAlarm(c) => ReadKeepsInv(s, c);
    case EndCall(c, now) => EndKeepsInv(s, c, now);
    case Clear(kind) => SameCalls(s, Apply(s, step));
    case Ingest(kind, now) =>
    case ArmDirectly(kind, now) =>
    case ArmForMedia(now) =>
    case Fire(now) =>
    case EndDrain(_, _, _, _) => SameCalls(s, Apply(s, step));
    case EndSync(_, _, _) => SameCalls(s, Apply(s, step));
    case EndScheduled(_, _) => SameCalls(s, Apply(s, step));
    case EndBroadcast(_, _, _) => SameCalls(s, Apply(s, step));
    case EndRun(_, _, _) => SameCalls(s, Apply(s, step));
    case Die(now) =>
  }

  lemma EveryKindIsChecked(kind: Kind)
    ensures kind in Checked(Asleep)
  {
    match kind
    case Delivery => case Sync => case Held => case Scheduled => case Broadcast =>
  }

  /** No object dies asleep and unarmed with work stored: the one gap, between a store and its arming. */
  ghost predicate NeverDiesUnarmed(s: State, steps: seq<Step>)
    requires Run(s, steps)
    decreases |steps|
  {
    steps != [] ==>
      && (steps[0].Die? && s.phase.Asleep? && s.armed.None? ==> s.work == {})
      && NeverDiesUnarmed(Apply(s, steps[0]), steps[1..])
  }

  lemma {:induction false} RunKeepsInv(s: State, steps: seq<Step>)
    requires Inv(s) && Run(s, steps) && NeverDiesUnarmed(s, steps)
    ensures Inv(After(s, steps))
    decreases |steps|
  {
    if steps != [] {
      StepKeepsInv(s, steps[0]);
      RunKeepsInv(Apply(s, steps[0]), steps[1..]);
    }
  }

  /** Main result: whatever RPCs land at the awaits of `alarm()`, work of any kind has an alarm set
      whenever `alarm()` is not running and no `hold` or `putScheduled` is still about to set one. */
  lemma NoWakeUpIsLost(steps: seq<Step>)
    requires Run(Idle, steps) && NeverDiesUnarmed(Idle, steps)
    ensures var s := After(Idle, steps);
            s.phase.Asleep? && s.work != {} && (forall c :: c in s.calls ==> !WillArm(c)) ==> s.armed.Some?
  {
    RunKeepsInv(Idle, steps);
    var s := After(Idle, steps);
    if s.work != {} && s.phase.Asleep? {
      var kind :| kind in s.work;
      EveryKindIsChecked(kind);
      assert kind in s.work * Checked(s.phase);
    }
  }

  /** Work is stored, nothing runs and no call is still about to arm: then an alarm is set. */
  ghost predicate Armed(s: State) {
    s.phase.Asleep? && s.work != {} && !CallWillArm(s) ==> s.armed.Some?
  }

  ghost predicate AlwaysArmed(s: State, steps: seq<Step>)
    requires Run(s, steps)
    decreases |steps|
  {
    Armed(s) && (steps != [] ==> AlwaysArmed(Apply(s, steps[0]), steps[1..]))
  }

  lemma InvMeansArmed(s: State)
    requires Inv(s)
    ensures Armed(s)
  {
    if s.work != {} && s.phase.Asleep? {
      var kind :| kind in s.work;
      EveryKindIsChecked(kind);
      assert kind in s.work * Checked(s.phase);
    }
  }

  lemma {:induction false} ArmedExactly(s: State, steps: seq<Step>)
    requires Inv(s) && Run(s, steps)
    ensures AlwaysArmed(s, steps) <==> NeverDiesUnarmed(s, steps)
    decreases |steps|
  {
    InvMeansArmed(s);
    if steps != [] {
      var s' := Apply(s, steps[0]);
      if steps[0].Die? && s.phase.Asleep? && s.armed.None? && s.work != {} {
        assert !Armed(s');
      } else {
        StepKeepsInv(s, steps[0]);
        ArmedExactly(s', steps[1..]);
      }
    }
  }

  /** Main result: throughout a run stored work has an alarm set whenever nothing runs and no call is about to
      arm, exactly when the object never dies in the one gap, asleep and unarmed with work stored. */
  lemma WorkIsArmedExactly(steps: seq<Step>)
    requires Run(Idle, steps)
    ensures AlwaysArmed(Idle, steps) <==> NeverDiesUnarmed(Idle, steps)
  {
    ArmedExactly(Idle, steps);
  }

  /** A death loses the wake-up exactly when nothing was armed or running: then only a call that stored
      work and had not armed yet can have been covering it. */
  lemma DeathLosesOnlyUnarmedWork(s: State, now: Time)
    requires Inv(s) && now >= s.clock
    ensures !Inv(Crash(s, now)) <==> s.phase.Asleep? && s.armed.None? && s.work != {}
    ensures !Inv(Crash(s, now)) ==> CallWillArm(s)
  {
    var s' := Crash(s, now);
    if s.work != {} {
      var kind :| kind in s.work;
      EveryKindIsChecked(kind);
      assert kind in s.work * Checked(Asleep);
    }
  }

  /** It can happen: `hold` stores its batch, and the object dies before it arms. */
  lemma HeldBatchWithoutAlarm() returns (steps: seq<Step>)
    ensures Run(Idle, steps)
    ensures var s := After(Idle, steps); s.work == {Held} && s.phase.Asleep? && s.armed.None? && s.calls == multiset{}
  {
    steps := [HoldBatch(0), Die(0)];
    var s1 := Hold(Idle, 0);
    assert steps[1..] == [Die(0)];
    assert Run(Crash(s1, 0), steps[1..][1..]) && After(Crash(s1, 0), steps[1..][1..]) == Crash(s1, 0);
    assert Run(s1, steps[1..]) && After(s1, steps[1..]) == Crash(s1, 0);
  }

  // ---- Arrivals -----------------------------------------------------------------------------

  predicate KeepsRunning(step: Step) { !step.EndRun? && !step.Die? }

  lemma {:induction false} FlagStays(s: State, steps: seq<Step>)
    requires Run(s, steps) && s.wakeArrived && !s.phase.Asleep?
    requires forall k :: 0 <= k < |steps| ==> KeepsRunning(steps[k])
    ensures After(s, steps).wakeArrived && !After(s, steps).phase.Asleep?
    decreases |steps|
  {
    if steps != [] {
      assert forall k :: 0 <= k < |steps| - 1 ==> steps[1..][k] == steps[k + 1];
      FlagStays(Apply(s, steps[0]), steps[1..]);
    }
  }

  /** Work that arrives during a run is woken for at once when the run ends: the earlier wakes it collected
      never push the alarm back, whatever else lands before the end. */
  lemma ArrivalsWakeAtOnce(s: State, kind: Kind, at: Time, steps: seq<Step>, media: Option<Time>, scheduledAt: Time, now: Time)
    requires !s.phase.Asleep? && Possible(s, Ingest(kind, at)) && Run(Apply(s, Ingest(kind, at)), steps)
    requires forall k :: 0 <= k < |steps| ==> KeepsRunning(steps[k])
    requires Possible(After(Apply(s, Ingest(kind, at)), steps), EndRun(media, scheduledAt, now))
    ensures var ended := Apply(After(Apply(s, Ingest(kind, at)), steps), EndRun(media, scheduledAt, now));
            ended.armed.Some? && ended.armed.value <= now
  {
    FlagStays(Apply(s, Ingest(kind, at)), steps);
    var last := After(Apply(s, Ingest(kind, at)), steps);
    assert now in Pushed(Pushed(Pushed(last.phase.wakes, media),
                                if last.phase.retryAt.None? && Scheduled in last.work then Some(scheduledAt) else None), Some(now));
  }

  // ---- When a run arms ----------------------------------------------------------------------

  function Of(wake: Option<Time>): set<Time> { if wake.Some? then {wake.value} else {} }

  /** The times a step of a run asks to be woken at: a pending delivery's next attempt, or the next sweep while no
      target is set; the next sweep for held batches; the sync step's delay while payloads or a report are left;
      half a minute after a step that failed; the next broadcast tick, a quarter of a second away at least; and
      media and scheduled sends at the end, unless the scheduled step failed and is tried again anyway. */
  function Asked(work: set<Kind>, step: Step, failed: bool): set<Time> {
    match step
    case EndDrain(hasTarget, nextAttempt, nextSweep, _) =>
      (if Delivery !in work then {} else if hasTarget then {nextAttempt} else {nextSweep})
      + (if Held in work then {nextSweep} else {})
    case EndSync(delay, report, now) => if Sync in work || report then {now + delay} else {}
    case EndScheduled(failed', now) => if failed' then {now + 30_000} else {}
    case EndBroadcast(next, failed', now) =>
      if failed' then {now + 30_000} else if Broadcast in work then {Max(next, now + 250)} else {}
    case EndRun(media, scheduledAt, _) =>
      Of(media) + Of(if Scheduled in work && !failed then Some(scheduledAt) else None)
    case _ => {}
  }

  /** Whether the scheduled step of the run failed. */
  function HasFailed(step: Step, failed: bool): bool { if step.EndScheduled? then step.failed else failed }

  ghost function AskedIn(s: State, steps: seq<Step>, failed: bool): set<Time>
    requires Run(s, steps)
    decreases |steps|
  {
    if steps == [] then {}
    else Asked(s.work, steps[0], failed) + AskedIn(Apply(s, steps[0]), steps[1..], HasFailed(steps[0], failed))
  }

  function FailedIn(steps: seq<Step>, failed: bool): bool
    decreases |steps|
  {
    if steps == [] then failed else FailedIn(steps[1..], HasFailed(steps[0], failed))
  }

  function Elements(wakes: seq<Time>): set<Time> { set w | w in wakes }

  lemma PushedElements(wakes: seq<Time>, wake: Option<Time>)
    ensures Elements(Pushed(wakes, wake)) == Elements(wakes) + Of(wake)
  {
  }

  function WakeSet(s: State): set<Time> { Elements(Wakes(s)) }

  /** A run in progress remembers whether its scheduled step failed. */
  predicate RetriesWhenFailed(s: State, failed: bool) {
    && !s.phase.Asleep?
    && (s.phase.Broadcasting? ==> (s.phase.retryAt.Some? <==> failed))
    && (s.phase.Purging? ==> (s.phase.retryAt.Some? <==> failed))
  }

  lemma DrainAsks(s: State, step: Step, failed: bool)
    requires Possible(s, step) && step.EndDrain?
    ensures WakeSet(Apply(s, step)) == Asked(s.work, step, failed)
  {
    var delivery := if Delivery in s.work then Some(if step.hasTarget then step.nextAttempt else step.nextSweep) else None;
    var held := if Held in s.work then Some(step.nextSweep) else None;
    PushedElements([], delivery);
    PushedElements(Pushed([], delivery), held);
  }

  lemma WorkStepAsks(s: State, step: Step, failed: bool)
    requires Possible(s, step) && (step.EndSync? || step.EndScheduled? || step.EndBroadcast?) && RetriesWhenFailed(s, failed)
    ensures WakeSet(Apply(s, step)) == WakeSet(s) + Asked(s.work, step, failed)
    ensures RetriesWhenFailed(Apply(s, step), HasFailed(step, failed))
  {
    match step
    case EndSync(delay, report, now) =>
      PushedElements(s.phase.wakes, if Sync in s.work || report then Some(now + delay) else None);
    case EndScheduled(failed', now) =>
      PushedElements(s.phase.wakes, if failed' then Some(now + STEP_RETRY_MS) else None);
    case EndBroadcast(next, failed', now) =>
      PushedElements(s.phase.wakes, if failed' then Some(now + STEP_RETRY_MS)
                                    else if Broadcast in s.work then Some(Max(next, now + 250)) else None);
  }

  lemma OthersAskNothing(s: State, step: Step, failed: bool)
    requires Possible(s, step) && KeepsRunning(step) && RetriesWhenFailed(s, failed)
    requires !step.EndDrain? && !step.EndSync? && !step.EndScheduled? && !step.EndBroadcast?
    ensures Apply(s, step).phase == s.phase && Asked(s.work, step, failed) == {}
  {
  }

  lemma StepAsks(s: State, step: Step, failed: bool)
    requires Possible(s, step) && KeepsRunning(step) && RetriesWhenFailed(s, failed)
    ensures WakeSet(Apply(s, step)) == WakeSet(s) + Asked(s.work, step, failed)
    ensures RetriesWhenFailed(Apply(s, step), HasFailed(step, failed))
  {
    if step.EndDrain? {
      DrainAsks(s, step, failed);
    } else if step.EndSync? || step.EndScheduled? || step.EndBroadcast? {
      WorkStepAsks(s, step, failed);
    } else {
      OthersAskNothing(s, step, failed);
    }
  }

  lemma {:induction false} RunAsks(s: State, steps: seq<Step>, failed: bool)
    requires Run(s, steps) && RetriesWhenFailed(s, failed)
    requires forall k :: 0 <= k < |steps| ==> KeepsRunning(steps[k])
    ensures WakeSet(After(s, steps)) == WakeSet(s) + AskedIn(s, steps, failed)
    ensures RetriesWhenFailed(After(s, steps), FailedIn(steps, failed))
    decreases |steps|
  {
    if steps != [] {
      assert forall k :: 0 <= k < |steps| - 1 ==> steps[1..][k] == steps[k + 1];
      StepAsks(s, steps[0], failed);
      RunAsks(Apply(s, steps[0]), steps[1..], HasFailed(steps[0], failed));
    }
  }

  /** Armed for the earliest of the times asked for, or as before when none was. */
  predicate ArmedForEarliest(asked: set<Time>, was: Option<Time>, armed: Option<Time>) {
    if asked == {} then armed == was
    else armed.Some? && armed.value in asked && forall w :: w in asked ==> armed.value <= w
  }

  /** What the end of a run arms for. */
  function AskedAtEnd(phase: Phase, media: Option<Time>, scheduledAt: Option<Time>, wakeArrived: bool, now: Time): set<Time>
    requires phase.Purging?
  {
    Elements(phase.wakes) + Of(media) + Of(if phase.retryAt.None? then scheduledAt else None) + Of(if wakeArrived then Some(now) else None)
  }

  lemma EarliestOfAll(collected: seq<Time>, media: Option<Time>, scheduled: Option<Time>, arrived: Option<Time>, was: Option<Time>)
    ensures var wakes := Pushed(Pushed(Pushed(collected, media), scheduled), arrived);
            ArmedForEarliest(Elements(collected) + Of(media) + Of(scheduled) + Of(arrived), was,
                             if wakes != [] then Some(MinOf(wakes)) else was)
  {
    var withMedia := Pushed(collected, media);
    var withScheduled := Pushed(withMedia, scheduled);
    var wakes := Pushed(withScheduled, arrived);
    PushedElements(collected, media);
    PushedElements(withMedia, scheduled);
    PushedElements(withScheduled, arrived);
    if wakes != [] {
      assert wakes[0] in Elements(wakes) && MinOf(wakes) in Elements(wakes);
      assert forall w :: w in Elements(wakes) ==> w in wakes;
    }
  }

  lemma EndArms(s: State, media: Option<Time>, scheduledAt: Option<Time>, now: Time)
    requires s.phase.Purging? && (scheduledAt.Some? <==> Scheduled in s.work)
    ensures ArmedForEarliest(AskedAtEnd(s.phase, media, scheduledAt, s.wakeArrived, now), s.armed,
                             Finish(s, media, if scheduledAt.Some? then scheduledAt.value else 0, now).armed)
  {
    EarliestOfAll(s.phase.wakes, media, if s.phase.retryAt.None? then scheduledAt else None, if s.wakeArrived then Some(now) else None, s.armed);
  }

  lemma FinishArms(s: State, media: Option<Time>, scheduledAt: Time, now: Time, failed: bool)
    requires s.phase.Purging? && RetriesWhenFailed(s, failed)
    ensures var asked := WakeSet(s) + Asked(s.work, EndRun(media, scheduledAt, now), failed) + Of(if s.wakeArrived then Some(now) else None);
            var armed := Finish(s, media, scheduledAt, now).armed;
            ArmedForEarliest(asked, s.armed, armed)
  {
    var scheduled := if s.phase.retryAt.None? && Scheduled in s.work then Some(scheduledAt) else None;
    EarliestOfAll(s.phase.wakes, media, scheduled, if s.wakeArrived then Some(now) else None, s.armed);
    Together(WakeSet(s), Of(media), Of(scheduled));
  }

  lemma Together(a: set<Time>, b: set<Time>, c: set<Time>)
    ensures a + b + c == a + (b + c)
  {
  }

  /** Main result: whatever lands at its awaits, a run of the alarm ends armed for the earliest of the times its
      steps asked for, and for now when work arrived meanwhile; when nothing asked it leaves the alarm as others
      set it. */
  lemma RunArmsForTheEarliest(s: State, steps: seq<Step>, media: Option<Time>, scheduledAt: Time, now: Time)
    requires s.phase.Draining? && Run(s, steps) && forall k :: 0 <= k < |steps| ==> KeepsRunning(steps[k])
    requires Possible(After(s, steps), EndRun(media, scheduledAt, now))
    ensures var last := After(s, steps);
            var asked := AskedIn(s, steps, false) + Asked(last.work, EndRun(media, scheduledAt, now), FailedIn(steps, false))
                         + Of(if last.wakeArrived then Some(now) else None);
            var armed := Apply(last, EndRun(media, scheduledAt, now)).armed;
            ArmedForEarliest(asked, last.armed, armed)
  {
    RunAsks(s, steps, false);
    FinishArms(After(s, steps), media, scheduledAt, now, FailedIn(steps, false));
    assert WakeSet(s) == {};
  }

  /** What a call that had to look at the alarm first arms it for: a hold for the next sweep when nothing was armed,
      a later send for its time when nothing sooner was; anything else leaves the alarm as it is. */
  predicate ArmedAfter(c: Arming, now: Time, was: Option<Time>, armed: Option<Time>) {
    match c
    case HoldSaw(None) => armed == Some(now + 3600_000)
    case PutSaw(at, None) => armed == Some(at)
    case PutSaw(at, Some(sooner)) => armed == if sooner > at then Some(at) else was
    case _ => armed == was
  }

  lemma CallsArmWhatTheySaw(s: State, c: Arming, now: Time)
    requires Possible(s, EndCall(c, now))
    ensures var s' := Apply(s, EndCall(c, now));
            ArmedAfter(c, now, s.armed, s'.armed) && s'.calls == s.calls - multiset{c} && s'.work == s.work
            && s'.wakeArrived == s.wakeArrived && s'.phase == s.phase
  {
  }

  // ---- The object ---------------------------------------------------------------------------

  /** The earliest of the wakes a run collected. */
  method EarliestWake(wakes: seq<Time>) returns (earliest: Time)
    requires wakes != []
    ensures earliest == MinOf(wakes)
  {
    earliest := wakes[0];
    for i := 1 to |wakes|
      invariant earliest in wakes[..i] && forall w :: w in wakes[..i] ==> earliest <= w
    {
      assert wakes[..i + 1] == wakes[..i] + [wakes[i]];
      earliest := Min(earliest, wakes[i]);
    }
    assert wakes[..|wakes|] == wakes;
  }

  /** What the end of a run leaves armed: the earliest wake, or what was armed when there is none. */
  method NextWake(collected: seq<Time>, media: Option<Time>, scheduledAt: Option<Time>, arrived: Option<Time>, armed: Option<Time>)
    returns (next: Option<Time>)
    ensures var wakes := Pushed(Pushed(Pushed(collected, media), scheduledAt), arrived);
            next == if wakes != [] then Some(MinOf(wakes)) else armed
  {
    var wakes := collected;
    if media.Some? {
      wakes := wakes + [media.value];
    }
    if scheduledAt.Some? {
      wakes := wakes + [scheduledAt.value];
    }
    if arrived.Some? {
      wakes := wakes + [arrived.value];
    }
    next := armed;
    if wakes != [] {
      var earliest := EarliestWake(wakes);
      next := Some(earliest);
    }
  }

  /** The alarm, the run in progress and the `wakeArrived` flag of one gateway object. `work` and
      `calls` are ghost: the tables and the RPC continuations they stand for live elsewhere. */
  class GatewayAlarm {
    ghost var work: set<Kind>
    ghost var calls: multiset<Arming>
    ghost var clock: Time
    var armed: Option<Time>
    var wakeArrived: bool
    var phase: Phase

    ghost function View(): State
      reads this
    {
      State(work, armed, wakeArrived, phase, calls, clock)
    }

    ghost predicate Valid()
      reads this
    {
      Inv(View())
    }

    constructor ()
      ensures Valid() && View() == Idle
    {
      work, calls, clock, armed, wakeArrived, phase := {}, multiset{}, 0, None, false, Asleep;
    }

    /** Stores work of one kind and wakes: ingested events, a sync payload or a new broadcast. */
    method StoreAndWake(kind: Kind, now: Time)
      requires Valid() && Possible(View(), Ingest(kind, now))
      modifies this
      ensures Valid() && View() == WakeNow(Add(old(View()), kind, now), now)
      ensures armed == Some(now) && wakeArrived && work == old(work) + {kind} && phase == old(phase) && calls == old(calls)
    {
      ghost var before := View();
      work, clock := work + {kind}, now;
      wakeArrived := true;
      armed := Some(now);
      StepKeepsInv(before, Ingest(kind, now));
    }

    /** Stores a held batch; its arming is still to come. */
    method StoreHeld(now: Time)
      requires Valid() && now >= clock
      modifies this
      ensures Valid() && View() == Hold(old(View()), now)
      ensures work == old(work) + {Held} && calls == old(calls) + multiset{HoldAsks}
      ensures armed == old(armed) && wakeArrived == old(wakeArrived) && phase == old(phase)
    {
      ghost var before := View();
      work, calls, clock := work + {Held}, calls + multiset{HoldAsks}, now;
      StepKeepsInv(before, HoldBatch(now));
    }

    /** Stores a scheduled send: wakes at once when it is due, else has still to look at the alarm. */
    method StoreScheduled(at: Time, now: Time) returns (looks: bool)
      requires Valid() && now >= clock
      modifies this
      ensures Valid() && View() == PutScheduled(old(View()), at, now)
      ensures looks <==> at > now
      ensures work == old(work) + {Scheduled} && phase == old(phase)
      ensures at <= now ==> armed == Some(now) && wakeArrived && calls == old(calls)
      ensures at > now ==> armed == old(armed) && wakeArrived == old(wakeArrived) && calls == old(calls) + multiset{PutAsks(at)}
    {
      ghost var before := View();
      work, clock := work + {Scheduled}, now;
      looks := at > now;
      if looks {
        calls := calls + multiset{PutAsks(at)};
      } else {
        wakeArrived := true;
        armed := Some(now);
      }
      StepKeepsInv(before, Put(at, now));
    }

    /** Reads the alarm for a call that has still to arm. */
    method GetAlarm(ghost c: Arming) returns (at: Option<Time>)
      requires Valid() && c in calls && Asks(c)
      modifies this`calls
      ensures Valid() && View() == ReadAlarm(old(View()), c) && at == armed
      ensures calls == old(calls) - multiset{c} + multiset{if c.HoldAsks? then HoldSaw(at) else PutSaw(c.at, at)}
    {
      ghost var before := View();
      at := armed;
      calls := calls - multiset{c} + multiset{Saw(c, armed)};
      StepKeepsInv(before, AskAlarm(c));
    }

    /** The alarm fires: it is gone, and what arrives from here on is new. */
    method StartAlarm(now: Time)
      requires Valid() && Possible(View(), Fire(now))
      modifies this
      ensures Valid() && View() == Start(old(View()), now)
      ensures armed.None? && !wakeArrived && phase.Draining? && work == old(work) && calls == old(calls)
    {
      ghost var before := View();
      wakeArrived := false;
      armed := None;
      phase, clock := Draining, now;
      StepKeepsInv(before, Fire(now));
    }

    /** After the deliveries and the sweep. `next` is the earliest pending delivery's attempt. */
    method AfterDrain(hasTarget: bool, next: Option<Time>, hasHeld: bool, nextSweep: Time, now: Time)
      requires Valid() && phase.Draining? && now >= clock
      requires (next.Some? <==> Delivery in work) && (hasHeld <==> Held in work)
      modifies this
      ensures Valid() && View() == Drained(old(View()), hasTarget, if next.Some? then next.value else 0, nextSweep, now)
      ensures phase.Syncing? && armed == old(armed) && wakeArrived == old(wakeArrived) && work == old(work)
      ensures forall w :: w in phase.wakes <==>
                (next.Some? && w == if hasTarget then next.value else nextSweep) || (hasHeld && w == nextSweep)
    {
      ghost var before := View();
      var wakes: seq<Time> := [];
      if hasTarget {
        if next.Some? {
          wakes := wakes + [next.value];
        }
      } else if next.Some? {
        wakes := wakes + [nextSweep];
      }
      if hasHeld {
        wakes := wakes + [nextSweep];
      }
      phase, clock := Syncing(wakes), now;
      assert View() == Drained(before, hasTarget, if next.Some? then next.value else 0, nextSweep, now);
      StepKeepsInv(before, EndDrain(hasTarget, if next.Some? then next.value else 0, nextSweep, now));
    }

    /** The second half of `hold` and `putScheduled`, with the alarm time they read. */
    method ArmUnlessSooner(c: Arming, now: Time)
      requires Valid() && Possible(View(), EndCall(c, now))
      modifies this
      ensures Valid() && View() == FinishCall(old(View()), c, now)
      ensures ArmedAfter(c, now, old(armed), armed) && calls == old(calls) - multiset{c}
    {
      ghost var before := View();
      if c.HoldSaw? {
        if c.armed.None? {
          armed := Some(now + SWEEP_INTERVAL_MS);
        }
      } else if c.armed.None? || c.armed.value > c.at {
        armed := Some(c.at);
      }
      calls, clock := calls - multiset{c}, now;
      StepKeepsInv(before, EndCall(c, now));
    }

    /** The end of a run: arm the earliest wake. Work that arrived meanwhile was armed for now, and the
        wakes collected before would overwrite that. */
    method EndAlarm(media: Option<Time>, scheduledAt: Option<Time>, now: Time)
      requires Valid() && phase.Purging? && now >= clock && (scheduledAt.Some? <==> Scheduled in work)
      modifies this
      ensures Valid()
      ensures View() == Finish(old(View()), media, if scheduledAt.Some? then scheduledAt.value else 0, now)
      ensures ArmedForEarliest(AskedAtEnd(old(phase), media, scheduledAt, wakeArrived, now), old(armed), armed)
      ensures phase.Asleep? && wakeArrived == old(wakeArrived) && work == old(work)
    {
      ghost var before := View();
      ghost var at := if scheduledAt.Some? then scheduledAt.value else 0;
      EndArms(before, media, scheduledAt, now);
      FinishRun(media, scheduledAt, now);
      StepKeepsInv(before, EndRun(media, at, now));
    }

    method FinishRun(media: Option<Time>, scheduledAt: Option<Time>, now: Time)
      requires phase.Purging? && (scheduledAt.Some? <==> Scheduled in work)
      modifies this
      ensures View() == Finish(old(View()), media, if scheduledAt.Some? then scheduledAt.value else 0, now)
    {
      armed := NextWake(phase.wakes, media, if phase.retryAt.None? then scheduledAt else None, if wakeArrived then Some(now) else None, armed);
      phase, clock := Asleep, now;
    }
  }
}
