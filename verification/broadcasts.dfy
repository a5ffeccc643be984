/** One broadcast as a state machine: its row, its recipients, the tick the alarm is running on it and
    a log of the calls made to Meta (the broadcast half of apps/gateway/src/gateway.ts).

    Each function is one stretch of code with no `await` in it. A tick is: select the running
    broadcasts, claim recipients, look up the token, send, settle, finish. Cancels and erasures may
    land between any two stretches; a crash drops the tick and its sends and keeps the rows. */
module Broadcasts {
  import opened Core
  import opened MetaSend
  import opened BroadcastRequest

  const STALE_SENDING_MS: int := 60_000
  const MAX_THROTTLED_ATTEMPTS: nat := 8
  const FAILURE_BREAKER: nat := 20
  const TOKEN_RETRY_MS: int := 30_000

  datatype BroadcastStatus = Running | Completed | Stopped | Halted

  datatype Status = Queued | Sending | Sent | Failed | Uncertain | Cancelled

  datatype Row = Row(status: Status, attempts: nat, messageId: Option<string>, updatedAt: Time)

  /** `answer` is None while Meta has not answered, and stays None after a crash. */
  datatype Call = Call(seqNo: nat, to: string, answer: Option<SendResult>)

  /** A send in flight: the claimed recipient, the attempts it had, and its call once made. */
  datatype Task = Task(seqNo: nat, attempts: nat, call: Option<nat>)

  datatype Outcome = Done | Throttled(attempts: int) | Halt

  datatype Phase =
    | Idle
    | Selected(now: Time)
    | Looking(now: Time, due: set<nat>)
    | Sends(now: Time, results: seq<Outcome>)

  /** A tick that sent: when it started and how many recipients it claimed. */
  datatype Tick = Tick(start: Time, sends: nat)

  datatype State = State(
    recipients: seq<Recipient>,
    rate: int,
    status: BroadcastStatus,
    nextSendAt: Time,
    rows: map<nat, Row>,
    erased: nat,
    phase: Phase,
    tasks: set<Task>,
    calls: seq<Call>,
    ticks: seq<Tick>,
    clock: Time)

  /** What `createBroadcast` stores for an accepted request. */
  function Create(recipients: seq<Recipient>, rate: int, now: Time): State {
    State(recipients, rate, Running, now,
          map i: nat {:trigger recipients[i]} | 0 <= i < |recipients| :: Row(Queued, 0, None, now),
          0, Idle, {}, [], [], now)
  }

  function WithStatus(rows: map<nat, Row>, status: Status): set<nat> {
    set i | i in rows && rows[i].status == status
  }

  function OpenRows(rows: map<nat, Row>): set<nat> {
    set i | i in rows && (rows[i].status.Queued? || rows[i].status.Sending?)
  }

  /** The UPDATE that gives rows a new status. */
  function Moved(rows: map<nat, Row>, which: set<nat>, status: Status, now: Time): (moved: map<nat, Row>)
    ensures moved.Keys == rows.Keys && |moved| == |rows|
  {
    var moved := map i | i in rows :: if i in which then rows[i].(status := status, updatedAt := now) else rows[i];
    assert moved.Keys == rows.Keys;
    moved
  }

  // ---- Ending -------------------------------------------------------------------------------

  /** Ends a running broadcast as `status` (None: it already ended) and cancels what is still queued. */
  function EndBroadcast(s: State, status: Option<BroadcastStatus>, now: Time): State {
    var ended := if status.Some? && s.status.Running? then s.(status := status.value) else s;
    if ended.status.Running? then ended
    else ended.(rows := Moved(s.rows, WithStatus(s.rows, Queued), Cancelled, now))
  }

  function FinishIfDone(s: State): State {
    if OpenRows(s.rows) == {} && s.status.Running? then s.(status := Completed) else s
  }

  predicate BreakerTripped(rows: map<nat, Row>) {
    WithStatus(rows, Sent) == {} && |WithStatus(rows, Failed)| >= FAILURE_BREAKER
  }

  // ---- The tick -----------------------------------------------------------------------------

  function StaleRows(s: State, now: Time): set<nat> {
    set i | i in s.rows && s.rows[i].status.Sending? && s.rows[i].updatedAt < now - STALE_SENDING_MS
  }

  /** A tick begins: rows a dead run left `sending` may have reached their customers. */
  function Select(s: State, now: Time): State {
    s.(rows := Moved(s.rows, StaleRows(s, now), Uncertain, now), phase := Selected(now), clock := now)
  }

  function Share(s: State, reserved: nat): int { Pacing(s.rate).perTick - reserved }

  predicate Waits(s: State, reserved: nat)
    requires s.phase.Selected?
  {
    s.nextSendAt > s.phase.now || Share(s, reserved) <= 0
  }

  /** Not due, or scheduled sends took the whole tick. */
  function Skip(s: State): State
    requires s.phase.Selected?
  {
    if s.nextSendAt > s.phase.now then s.(phase := Idle)
    else s.(phase := Idle, nextSendAt := s.phase.now + Pacing(s.rate).tickMs)
  }

  /** The queued recipients with the lowest numbers, `limit` at most. */
  predicate FirstQueued(rows: map<nat, Row>, limit: int, due: set<nat>) {
    && due <= WithStatus(rows, Queued)
    && |due| <= Max(0, limit)
    && (forall d, i :: d in due && i in WithStatus(rows, Queued) - due ==> d < i)
    && (|due| < limit ==> due == WithStatus(rows, Queued))
  }

  function Claim(s: State, due: set<nat>, at: Time): State
    requires s.phase.Selected?
  {
    if due == {} then FinishIfDone(s).(phase := Idle, clock := at)
    else s.(rows := Moved(s.rows, due, Sending, at), phase := Looking(s.phase.now, due), clock := at)
  }

  datatype Token = Missing | Unavailable | Known

  /** Back to the queue: only rows still `sending`. */
  function Requeued(rows: map<nat, Row>, which: set<nat>, now: Time): map<nat, Row> {
    Moved(rows, which * WithStatus(rows, Sending), Queued, now)
  }

  function StartTasks(rows: map<nat, Row>, due: set<nat>): set<Task> {
    set i | i in due :: Task(i, if i in rows then rows[i].attempts else 0, None)
  }

  function AfterToken(s: State, token: Token, at: Time): State
    requires s.phase.Looking?
  {
    var idle := s.(phase := Idle, clock := at);
    match token
    case Missing => EndBroadcast(idle.(rows := Requeued(s.rows, s.phase.due, at)), Some(Halted), at)
    case Unavailable => idle.(rows := Requeued(s.rows, s.phase.due, at), nextSendAt := at + TOKEN_RETRY_MS)
    case Known =>
      idle.(nextSendAt := s.phase.now + Pacing(s.rate).tickMs,
            tasks := StartTasks(s.rows, s.phase.due),
            ticks := s.ticks + [Tick(s.phase.now, |s.phase.due|)],
            phase := Sends(s.phase.now, []))
  }

  function Ends(s: State, t: Task, outcome: Outcome, at: Time): State
    requires s.phase.Sends?
  {
    s.(tasks := s.tasks - {t}, clock := at, phase := s.phase.(results := s.phase.results + [outcome]))
  }

  function AfterRateCheck(s: State, t: Task, allowed: bool, at: Time): State
    requires s.phase.Sends? && t.seqNo < |s.recipients|
  {
    if !allowed then Ends(s, t, Throttled(1), at).(rows := Requeued(s.rows, {t.seqNo}, at))
    else s.(clock := at,
            tasks := s.tasks - {t} + {t.(call := Some(|s.calls|))},
            calls := s.calls + [Call(t.seqNo, s.recipients[t.seqNo].to, None)])
  }

  predicate Retries(t: Task, result: SendResult, own: bool)
    requires result.NotOk?
  {
    VerdictOf(result, own).VThrottled? && t.attempts + 1 < MAX_THROTTLED_ATTEMPTS
  }

  /** The recipient's row after Meta's answer to its send. */
  function Settled(row: Row, t: Task, result: SendResult, own: bool, at: Time): Row {
    if result.Accepted? then Row(Sent, t.attempts + 1, Some(result.id), at)
    else if Retries(t, result, own) then row.(status := Queued, attempts := t.attempts + 1, updatedAt := at)
    else Row(if VerdictOf(result, own).VUnknown? then Uncertain else Failed, t.attempts + 1, None, at)
  }

  function OutcomeOf(t: Task, result: SendResult, own: bool): Outcome {
    if result.Accepted? then Done
    else if Retries(t, result, own) then Throttled(t.attempts + 1)
    else if VerdictOf(result, own).VHalt? then Halt
    else Done
  }

  /** A recipient erased while its send was in flight has no row to settle. */
  function AfterAnswer(s: State, t: Task, result: SendResult, at: Time): State
    requires s.phase.Sends? && t.seqNo < |s.recipients| && t.call.Some? && t.call.value < |s.calls|
  {
    var own := s.recipients[t.seqNo].own.Some?;
    Ends(s, t, OutcomeOf(t, result, own), at).(
      calls := s.calls[t.call.value := s.calls[t.call.value].(answer := Some(result))],
      rows := if t.seqNo in s.rows then s.rows[t.seqNo := Settled(s.rows[t.seqNo], t, result, own, at)] else s.rows)
  }

  function MostThrottled(results: seq<Outcome>): Option<int> {
    if results == [] then None
    else
      var rest := MostThrottled(results[..|results| - 1]);
      match results[|results| - 1]
      case Throttled(attempts) => Some(if rest.Some? then Max(rest.value, attempts) else attempts)
      case _ => rest
  }

  /** The tick's outcome: a halt, a pause for what was throttled, or nothing. */
  function Paused(idle: State, results: seq<Outcome>, at: Time): State {
    var throttled := MostThrottled(results);
    if Halt in results || BreakerTripped(idle.rows) then EndBroadcast(idle, Some(Halted), at)
    else if throttled.Some? then idle.(nextSendAt := at + ThrottleDelayMs(throttled.value))
    else idle
  }

  /** Every send of the tick has ended. */
  function Finish(s: State, at: Time): State
    requires s.phase.Sends?
  {
    var stopped := Paused(s.(phase := Idle, clock := at), s.phase.results, at);
    var swept := if stopped.status.Running? then stopped else EndBroadcast(stopped, None, at);
    FinishIfDone(swept)
  }

  // ---- Runs ---------------------------------------------------------------------------------

  datatype Step =
    | BSelect(now: Time)
    | BSkip(reserved: nat)
    | BClaim(reserved: nat, due: set<nat>, at: Time)
    | BToken(token: Token, at: Time)
    | BRate(t: Task, allowed: bool, at: Time)
    | BAnswer(t: Task, result: SendResult, at: Time)
    | BFinish(at: Time)
    | BCancel(at: Time)
    | BErase(seqNo: nat)
    | BCrash

  predicate Possible(s: State, step: Step) {
    match step
    case BSelect(now) => s.phase.Idle? && s.status.Running? && now >= s.clock
    case BSkip(reserved) => s.phase.Selected? && Waits(s, reserved)
    case BClaim(reserved, due, at) =>
      s.phase.Selected? && !Waits(s, reserved) && at >= s.clock && FirstQueued(s.rows, Share(s, reserved), due)
    case BToken(_, at) => s.phase.Looking? && at >= s.clock
    case BRate(t, _, at) => s.phase.Sends? && t in s.tasks && t.call.None? && t.seqNo < |s.recipients| && at >= s.clock
    case BAnswer(t, _, at) =>
      s.phase.Sends? && t in s.tasks && t.call.Some? && t.call.value < |s.calls| && t.seqNo < |s.recipients| && at >= s.clock
    case BFinish(at) => s.phase.Sends? && s.tasks == {} && at >= s.clock
    case BCancel(at) => at >= s.clock
    case BErase(i) => i in s.rows
    case BCrash => true
  }

  function Apply(s: State, step: Step): State
    requires Possible(s, step)
  {
    match step
    case BSelect(now) => Select(s, now)
    case BSkip(_) => Skip(s)
    case BClaim(_, due, at) => Claim(s, due, at)
    case BToken(token, at) => AfterToken(s, token, at)
    case BRate(t, allowed, at) => AfterRateCheck(s, t, allowed, at)
    case BAnswer(t, result, at) => AfterAnswer(s, t, result, at)
    case BFinish(at) => Finish(s, at)
    case BCancel(at) => EndBroadcast(s, Some(Stopped), at).(clock := at)
    case BErase(i) => s.(rows := s.rows - {i}, erased := s.erased + 1)
    case BCrash => s.(phase := Idle, tasks := {})
  }

  predicate Run(s: State, steps: seq<Step>)
    decreases |steps|
  {
    steps == [] || (Possible(s, steps[0]) && Run(Apply(s, steps[0]), steps[1..]))
  }

  function After(s: State, steps: seq<Step>): State
    requires Run(s, steps)
    decreases |steps|
  {
    if steps == [] then s else After(Apply(s, steps[0]), steps[1..])
  }

  // ---- Safety -------------------------------------------------------------------------------

  predicate MayHaveReached(c: Call) {
    c.answer.None? || !DefinitelyRefused(c.answer.value)
  }

  predicate Reached(s: State, c: nat, i: nat)
    requires c < |s.calls|
  {
    s.calls[c].seqNo == i && MayHaveReached(s.calls[c])
  }

  ghost predicate RowsOk(s: State) {
    && (forall i :: i in s.rows ==> i < |s.recipients|)
    && |s.rows| + s.erased == |s.recipients|
    && (forall i :: i in s.rows ==> (s.rows[i].messageId.Some? <==> s.rows[i].status.Sent?))
  }

  /** Claimed recipients stay `sending` until their send ends, and have one send each. */
  ghost predicate TasksOk(s: State) {
    && (s.tasks != {} ==> s.phase.Sends?)
    && (s.phase.Looking? ==> forall i :: i in s.phase.due ==> i < |s.recipients| && (i in s.rows ==> s.rows[i].status.Sending?))
    && (forall t :: t in s.tasks ==>
          && t.seqNo < |s.recipients|
          && (t.seqNo in s.rows ==> s.rows[t.seqNo].status.Sending?)
          && (t.call.Some? ==> t.call.value < |s.calls| && s.calls[t.call.value].seqNo == t.seqNo
                               && s.calls[t.call.value].answer.None?))
    && (forall t, u :: t in s.tasks && u in s.tasks && t.seqNo == u.seqNo ==> t == u)
  }

  /** Calls that may have reached a customer: their rows can never be queued again. */
  ghost predicate CallsOk(s: State) {
    && (forall c :: 0 <= c < |s.calls| ==>
          s.calls[c].seqNo < |s.recipients| && s.calls[c].to == s.recipients[s.calls[c].seqNo].to)
    && (forall c, i :: 0 <= c < |s.calls| && Reached(s, c, i) && i in s.rows ==>
          s.rows[i].status.Sending? || s.rows[i].status.Sent? || s.rows[i].status.Uncertain?)
    && (forall c, t :: 0 <= c < |s.calls| && t in s.tasks && Reached(s, c, t.seqNo) ==> t.call.Some? && t.call.value == c)
    && (s.phase.Looking? ==> forall c, i :: 0 <= c < |s.calls| && i in s.phase.due ==> !Reached(s, c, i))
  }

  ghost predicate OncePerRow(s: State) {
    forall c, d :: 0 <= c < d < |s.calls| && s.calls[c].seqNo == s.calls[d].seqNo ==>
      !MayHaveReached(s.calls[c]) || !MayHaveReached(s.calls[d])
  }

  /** What ending a broadcast leaves behind. */
  ghost predicate EndingOk(s: State) {
    && (s.status.Running? ==> forall i :: i in s.rows ==> !s.rows[i].status.Cancelled?)
    && (s.status.Completed? ==> s.phase.Idle? && OpenRows(s.rows) == {} && forall i :: i in s.rows ==> !s.rows[i].status.Cancelled?)
    && (!s.status.Running? && (s.phase.Selected? || s.phase.Looking?) ==> WithStatus(s.rows, Queued) == {})
  }

  ghost predicate Safe(s: State) {
    TasksOk(s) && CallsOk(s) && OncePerRow(s)
  }

  ghost predicate Inv(s: State) {
    RowsOk(s) && Safe(s) && EndingOk(s)
  }

  predicate MayBeDelivered(status: Status) { status.Sending? || status.Sent? || status.Uncertain? }

  /** No call for this recipient may have reached it. */
  ghost predicate Clear(s: State, i: nat) {
    forall c :: 0 <= c < |s.calls| ==> !Reached(s, c, i)
  }

  /** A step that makes no call is safe when only rows proved clear leave the statuses that may be delivered. */
  lemma SameCallsAreSafe(s: State, s': State)
    requires CallsOk(s) && OncePerRow(s) && s'.calls == s.calls && s'.recipients == s.recipients
    requires forall i :: i in s'.rows ==>
               i in s.rows && (MayBeDelivered(s'.rows[i].status) || !MayBeDelivered(s.rows[i].status) || Clear(s, i))
    requires forall t :: t in s'.tasks ==> t in s.tasks || Clear(s, t.seqNo)
    requires s'.phase.Looking? ==> forall i :: i in s'.phase.due ==> Clear(s, i)
    ensures CallsOk(s') && OncePerRow(s')
  {
    assert forall c, i :: 0 <= c < |s.calls| && Reached(s', c, i) ==> Reached(s, c, i);
  }

  lemma UncalledIsClear(s: State, t: Task)
    requires CallsOk(s) && t in s.tasks && t.call.None?
    ensures Clear(s, t.seqNo)
  {
  }

  lemma QueuedAreClear(s: State, due: set<nat>)
    requires CallsOk(s) && due <= WithStatus(s.rows, Queued)
    ensures forall i :: i in due ==> Clear(s, i)
  {
  }

  lemma SelectIsSafe(s: State, now: Time)
    requires Safe(s) && s.phase.Idle?
    ensures Safe(Select(s, now))
  {
    SameCallsAreSafe(s, Select(s, now));
  }

  lemma ClaimIsSafe(s: State, due: set<nat>, at: Time)
    requires RowsOk(s) && Safe(s) && s.phase.Selected? && due <= WithStatus(s.rows, Queued)
    ensures Safe(Claim(s, due, at))
  {
    QueuedAreClear(s, due);
    SameCallsAreSafe(s, Claim(s, due, at));
  }

  lemma EndIsSafe(s: State, status: Option<BroadcastStatus>, now: Time)
    requires Safe(s)
    ensures Safe(EndBroadcast(s, status, now))
  {
    SameCallsAreSafe(s, EndBroadcast(s, status, now));
  }

  lemma CancelIsSafe(s: State, at: Time)
    requires Safe(s)
    ensures Safe(EndBroadcast(s, Some(Stopped), at).(clock := at))
  {
    SameCallsAreSafe(s, EndBroadcast(s, Some(Stopped), at).(clock := at));
  }

  lemma TokenIsSafe(s: State, token: Token, at: Time)
    requires Safe(s) && s.phase.Looking?
    ensures Safe(AfterToken(s, token, at))
  {
    assert forall i :: i in s.phase.due ==> Clear(s, i);
    if token.Known? {
      SameCallsAreSafe(s, AfterToken(s, token, at));
    } else {
      var back := s.(phase := Idle, clock := at, rows := Requeued(s.rows, s.phase.due, at));
      SameCallsAreSafe(s, back);
      EndIsSafe(back, Some(Halted), at);
      if token.Unavailable? {
        SameCallsAreSafe(s, AfterToken(s, token, at));
      }
    }
  }

  lemma RefusedCheckIsSafe(s: State, t: Task, at: Time)
    requires Safe(s)
    requires s.phase.Sends? && t in s.tasks && t.call.None? && t.seqNo < |s.recipients|
    ensures Safe(AfterRateCheck(s, t, false, at))
  {
    UncalledIsClear(s, t);
    SameCallsAreSafe(s, AfterRateCheck(s, t, false, at));
  }

  lemma RateCheckIsSafe(s: State, t: Task, allowed: bool, at: Time)
    requires Safe(s)
    requires s.phase.Sends? && t in s.tasks && t.call.None? && t.seqNo < |s.recipients|
    ensures Safe(AfterRateCheck(s, t, allowed, at))
  {
    if !allowed {
      RefusedCheckIsSafe(s, t, at);
    } else {
      UncalledIsClear(s, t);
      var s' := AfterRateCheck(s, t, true, at);
      assert forall c, i :: 0 <= c < |s.calls| && Reached(s', c, i) ==> Reached(s, c, i);
      forall c | 0 <= c < |s.calls| && s.calls[c].seqNo == t.seqNo
        ensures !MayHaveReached(s.calls[c])
      {
        assert !Reached(s, c, t.seqNo);
      }
    }
  }

  lemma AnswerIsSafe(s: State, t: Task, result: SendResult, at: Time)
    requires Safe(s)
    requires s.phase.Sends? && t in s.tasks && t.call.Some? && t.seqNo < |s.recipients|
    ensures Safe(AfterAnswer(s, t, result, at))
  {
    var s' := AfterAnswer(s, t, result, at);
    assert forall c, i :: 0 <= c < |s.calls| && Reached(s', c, i) ==> Reached(s, c, i);
  }

  lemma FinishIsSafe(s: State, at: Time)
    requires Safe(s) && s.phase.Sends? && s.tasks == {}
    ensures Safe(Finish(s, at))
  {
    SameCallsAreSafe(s, Finish(s, at));
  }

  lemma SkipIsSafe(s: State)
    requires Safe(s) && s.phase.Selected?
    ensures Safe(Skip(s))
  {
    SameCallsAreSafe(s, Skip(s));
  }

  lemma EraseIsSafe(s: State, i: nat)
    requires Safe(s) && i in s.rows
    ensures Safe(s.(rows := s.rows - {i}, erased := s.erased + 1))
  {
    SameCallsAreSafe(s, s.(rows := s.rows - {i}, erased := s.erased + 1));
  }

  lemma CrashIsSafe(s: State)
    requires Safe(s)
    ensures Safe(s.(phase := Idle, tasks := {}))
  {
    SameCallsAreSafe(s, s.(phase := Idle, tasks := {}));
  }

  lemma StepIsSafe(s: State, step: Step)
    requires RowsOk(s) && Safe(s) && Possible(s, step)
    ensures Safe(Apply(s, step))
  {
    match step
    case BSelect(now) => SelectIsSafe(s, now);
    case BClaim(_, due, at) => ClaimIsSafe(s, due, at);
    case BToken(token, at) => TokenIsSafe(s, token, at);
    case BRate(t, allowed, at) => RateCheckIsSafe(s, t, allowed, at);
    case BAnswer(t, result, at) => AnswerIsSafe(s, t, result, at);
    case BFinish(at) => FinishIsSafe(s, at);
    case BSkip(_) => SkipIsSafe(s);
    case BCancel(at) => CancelIsSafe(s, at);
    case BErase(i) => EraseIsSafe(s, i);
    case BCrash => CrashIsSafe(s);
  }

  lemma SameRecipients(s: State, s': State)
    requires RowsOk(s) && s'.recipients == s.recipients && s'.erased == s.erased && s'.rows.Keys == s.rows.Keys
    requires forall i :: i in s'.rows ==> (s'.rows[i].messageId.Some? <==> s'.rows[i].status.Sent?)
    ensures RowsOk(s')
  {
    assert |s.rows| == |s.rows.Keys| && |s'.rows| == |s'.rows.Keys|;
  }

  lemma OneRowLess(s: State, i: nat)
    requires RowsOk(s) && i in s.rows
    ensures RowsOk(s.(rows := s.rows - {i}, erased := s.erased + 1))
  {
    var less := s.rows - {i};
    assert s.rows.Keys == less.Keys + {i};
    assert |s.rows| == |s.rows.Keys| && |less| == |less.Keys|;
  }

  lemma AnswerKeepsRows(s: State, t: Task, result: SendResult, at: Time)
    requires RowsOk(s) && TasksOk(s) && s.phase.Sends? && t in s.tasks && t.call.Some? && t.call.value < |s.calls|
    ensures RowsOk(AfterAnswer(s, t, result, at))
  {
    SameRecipients(s, AfterAnswer(s, t, result, at));
  }

  lemma FinishKeepsRows(s: State, at: Time)
    requires RowsOk(s) && s.phase.Sends?
    ensures RowsOk(Finish(s, at))
  {
    SameRecipients(s, Finish(s, at));
  }

  lemma TokenKeepsRows(s: State, token: Token, at: Time)
    requires RowsOk(s) && s.phase.Looking?
    ensures RowsOk(AfterToken(s, token, at))
  {
    SameRecipients(s, AfterToken(s, token, at));
  }

  lemma SelectKeepsRows(s: State, now: Time)
    requires RowsOk(s) && s.phase.Idle?
    ensures RowsOk(Select(s, now))
  {
    SameRecipients(s, Select(s, now));
  }

  lemma ClaimKeepsRows(s: State, due: set<nat>, at: Time)
    requires RowsOk(s) && s.phase.Selected? && due <= WithStatus(s.rows, Queued)
    ensures RowsOk(Claim(s, due, at))
  {
    SameRecipients(s, Claim(s, due, at));
  }

  lemma RateKeepsRows(s: State, t: Task, allowed: bool, at: Time)
    requires RowsOk(s) && s.phase.Sends? && t.seqNo < |s.recipients|
    ensures RowsOk(AfterRateCheck(s, t, allowed, at))
  {
    SameRecipients(s, AfterRateCheck(s, t, allowed, at));
  }

  lemma EndKeepsRows(s: State, status: Option<BroadcastStatus>, now: Time)
    requires RowsOk(s)
    ensures RowsOk(EndBroadcast(s, status, now))
  {
    SameRecipients(s, EndBroadcast(s, status, now));
  }

  lemma StepKeepsRows(s: State, step: Step)
    requires RowsOk(s) && TasksOk(s) && Possible(s, step)
    ensures RowsOk(Apply(s, step))
  {
    match step
    case BToken(token, at) => TokenKeepsRows(s, token, at);
    case BAnswer(t, result, at) => AnswerKeepsRows(s, t, result, at);
    case BFinish(at) => FinishKeepsRows(s, at);
    case BSelect(now) => SelectKeepsRows(s, now);
    case BSkip(_) =>
    case BClaim(_, due, at) => ClaimKeepsRows(s, due, at);
    case BRate(t, allowed, at) => RateKeepsRows(s, t, allowed, at);
    case BCancel(at) => EndKeepsRows(s, Some(Stopped), at);
    case BErase(i) => OneRowLess(s, i);
    case BCrash =>
  }

  /** A running broadcast has no cancelled row, so finishing it leaves every row sent, failed or unknown. */
  lemma FinishIfDoneKeepsEnding(s: State)
    requires EndingOk(s) && s.phase.Idle?
    ensures EndingOk(FinishIfDone(s))
  {
  }

  lemma EndKeepsEnding(s: State, status: Option<BroadcastStatus>, now: Time)
    requires EndingOk(s) && (status.Some? ==> status.value.Stopped? || status.value.Halted?)
    ensures EndingOk(EndBroadcast(s, status, now))
    ensures EndBroadcast(s, status, now).phase == s.phase
  {
    assert s.status.Completed? ==> WithStatus(s.rows, Queued) <= OpenRows(s.rows);
  }

  lemma FinishKeepsEnding(s: State, at: Time)
    requires EndingOk(s) && s.phase.Sends?
    ensures EndingOk(Finish(s, at))
  {
    var idle := s.(phase := Idle, clock := at);
    EndKeepsEnding(idle, Some(Halted), at);
    EndKeepsEnding(EndBroadcast(idle, Some(Halted), at), None, at);
    EndKeepsEnding(idle, None, at);
    var throttled := MostThrottled(s.phase.results);
    if throttled.Some? {
      EndKeepsEnding(idle.(nextSendAt := at + ThrottleDelayMs(throttled.value)), None, at);
    }
    var stopped := Paused(idle, s.phase.results, at);
    FinishIfDoneKeepsEnding(if stopped.status.Running? then stopped else EndBroadcast(stopped, None, at));
  }

  lemma StepKeepsEnding(s: State, step: Step)
    requires Inv(s) && Possible(s, step)
    ensures EndingOk(Apply(s, step))
  {
    match step
    case BFinish(at) => FinishKeepsEnding(s, at);
    case BCancel(at) => EndKeepsEnding(s, Some(Stopped), at);
    case BClaim(_, due, at) => FinishIfDoneKeepsEnding(s.(phase := Idle));
    case _ =>
  }

  lemma CreateIsValid(recipients: seq<Recipient>, rate: int, now: Time)
    ensures Inv(Create(recipients, rate, now))
  {
    var s := Create(recipients, rate, now);
    NumbersBelow(|recipients|);
    assert forall i :: i in Below(|recipients|) ==> recipients[i] == s.recipients[i] && i in s.rows;
    assert forall i :: i in s.rows ==> Succ(i) > 0;
    assert s.rows.Keys == Below(|recipients|);
  }

  function Below(n: nat): set<nat> {
    set i: nat {:trigger Succ(i)} | 0 <= i < n && Succ(i) > 0
  }

  function Succ(i: nat): nat { i + 1 }

  lemma {:induction false} NumbersBelow(n: nat)
    ensures |Below(n)| == n
  {
    if n > 0 {
      NumbersBelow(n - 1);
      assert Below(n) == Below(n - 1) + {n - 1};
    }
  }

  lemma StepKeepsInv(s: State, step: Step)
    requires Inv(s) && Possible(s, step)
    ensures Inv(Apply(s, step))
    ensures Apply(s, step).recipients == s.recipients && Apply(s, step).rate == s.rate
  {
    StepIsSafe(s, step);
    StepKeepsRows(s, step);
    StepKeepsEnding(s, step);
    StepKeepsRequest(s, step);
  }

  lemma StepKeepsRequest(s: State, step: Step)
    requires Possible(s, step)
    ensures Apply(s, step).recipients == s.recipients && Apply(s, step).rate == s.rate
  {
  }

  lemma {:induction false} RunKeepsInv(s: State, steps: seq<Step>)
    requires Inv(s) && Run(s, steps)
    ensures Inv(After(s, steps)) && After(s, steps).recipients == s.recipients && After(s, steps).rate == s.rate
    decreases |steps|
  {
    if steps != [] {
      StepKeepsInv(s, steps[0]);
      RunKeepsInv(Apply(s, steps[0]), steps[1..]);
    }
  }

  /** Main result: over every run, with cancels, erasures, rate refusals, throttling, lost answers and
      crashes anywhere, no customer of the broadcast gets two calls that may have delivered. */
  lemma NobodyIsMessagedTwice(recipients: seq<Recipient>, rate: int, now: Time, steps: seq<Step>, c: nat, d: nat)
    requires Distinct(recipients) && Run(Create(recipients, rate, now), steps)
    requires var calls := After(Create(recipients, rate, now), steps).calls;
             c < d < |calls| && RecipientKey(calls[c].to) == RecipientKey(calls[d].to)
    ensures var calls := After(Create(recipients, rate, now), steps).calls;
            !MayHaveReached(calls[c]) || !MayHaveReached(calls[d])
  {
    var s := Create(recipients, rate, now);
    CreateIsValid(recipients, rate, now);
    RunKeepsInv(s, steps);
    var i, j := After(s, steps).calls[c].seqNo, After(s, steps).calls[d].seqNo;
    SameKeySameRecipient(recipients, i, j);
  }

  /** From the request on: whatever an accepted request's entries say, nobody it names is messaged twice. */
  lemma AcceptedRequestReachesNobodyTwice(entries: seq<Entry>, rate: int, now: Time, steps: seq<Step>, c: nat, d: nat)
    requires Run(Create(FirstsBelow(entries, |entries|), rate, now), steps)
    requires var calls := After(Create(FirstsBelow(entries, |entries|), rate, now), steps).calls;
             c < d < |calls| && RecipientKey(calls[c].to) == RecipientKey(calls[d].to)
    ensures var calls := After(Create(FirstsBelow(entries, |entries|), rate, now), steps).calls;
            !MayHaveReached(calls[c]) || !MayHaveReached(calls[d])
  {
    RecipientsAreDistinct(entries, |entries|);
    NobodyIsMessagedTwice(FirstsBelow(entries, |entries|), rate, now, steps, c, d);
  }

  lemma SameKeySameRecipient(recipients: seq<Recipient>, i: nat, j: nat)
    requires Distinct(recipients) && i < |recipients| && j < |recipients|
    requires RecipientKey(recipients[i].to) == RecipientKey(recipients[j].to)
    ensures i == j
  {
  }

  // ---- Conservation -------------------------------------------------------------------------

  /** The six status counts always add up to the recipients not erased. */
  lemma CountsAddUp(s: State)
    requires RowsOk(s)
    ensures |WithStatus(s.rows, Queued)| + |WithStatus(s.rows, Sending)| + |WithStatus(s.rows, Sent)|
            + |WithStatus(s.rows, Failed)| + |WithStatus(s.rows, Uncertain)| + |WithStatus(s.rows, Cancelled)|
            + s.erased == |s.recipients|
  {
    CountsAddUpTo(s.rows);
  }

  /** Over every run the counts add up to the request, a message id is set exactly on sent rows, and a
      completed broadcast has attempted everybody: each row is sent, failed or unknown. */
  lemma RunsAddUp(recipients: seq<Recipient>, rate: int, now: Time, steps: seq<Step>)
    requires Run(Create(recipients, rate, now), steps)
    ensures var s := After(Create(recipients, rate, now), steps);
            && |WithStatus(s.rows, Queued)| + |WithStatus(s.rows, Sending)| + |WithStatus(s.rows, Sent)|
               + |WithStatus(s.rows, Failed)| + |WithStatus(s.rows, Uncertain)| + |WithStatus(s.rows, Cancelled)|
               + s.erased == |recipients|
            && (forall i :: i in s.rows ==> (s.rows[i].messageId.Some? <==> s.rows[i].status.Sent?))
            && (s.status.Completed? ==> forall i :: i in s.rows ==>
                  s.rows[i].status.Sent? || s.rows[i].status.Failed? || s.rows[i].status.Uncertain?)
  {
    var s := After(Create(recipients, rate, now), steps);
    CreateIsValid(recipients, rate, now);
    RunKeepsInv(Create(recipients, rate, now), steps);
    CountsAddUp(s);
    assert forall i :: i in s.rows && (s.rows[i].status.Queued? || s.rows[i].status.Sending?) ==> i in OpenRows(s.rows);
  }

  lemma {:induction false} CountsAddUpTo(rows: map<nat, Row>)
    ensures |WithStatus(rows, Queued)| + |WithStatus(rows, Sending)| + |WithStatus(rows, Sent)|
            + |WithStatus(rows, Failed)| + |WithStatus(rows, Uncertain)| + |WithStatus(rows, Cancelled)| == |rows|
  {
    if rows != map[] {
      var i :| i in rows;
      var rest := rows - {i};
      CountsAddUpTo(rest);
      assert |rows| == |rest| + 1 by {
        assert rows.Keys == rest.Keys + {i};
        assert |rows| == |rows.Keys| && |rest| == |rest.Keys|;
      }
      OneMore(rows, i, Queued);
      OneMore(rows, i, Sending);
      OneMore(rows, i, Sent);
      OneMore(rows, i, Failed);
      OneMore(rows, i, Uncertain);
      OneMore(rows, i, Cancelled);
    }
  }

  lemma OneMore(rows: map<nat, Row>, i: nat, status: Status)
    requires i in rows
    ensures |WithStatus(rows, status)| == |WithStatus(rows - {i}, status)| + if rows[i].status == status then 1 else 0
  {
    if rows[i].status == status {
      assert WithStatus(rows, status) == WithStatus(rows - {i}, status) + {i};
    } else {
      assert WithStatus(rows, status) == WithStatus(rows - {i}, status);
    }
  }

  // ---- Ended broadcasts ---------------------------------------------------------------------

  /** An ended broadcast keeps the way it ended, and claims nobody any more. */
  lemma EndedNeverRunsAgain(s: State, step: Step)
    requires Inv(s) && Possible(s, step) && !s.status.Running?
    ensures Apply(s, step).status == s.status
    ensures Apply(s, step).phase.Looking? ==> s.phase == Apply(s, step).phase
  {
  }

  /** A recipient left `sending` by a run that died: nothing in the engine holds it any more. */
  ghost predicate Abandoned(s: State, i: nat) {
    && (i in s.rows ==> s.rows[i].status.Sending? || s.rows[i].status.Uncertain?)
    && (forall t :: t in s.tasks ==> t.seqNo != i)
    && (s.phase.Looking? ==> i !in s.phase.due)
  }

  /** Row writes that move only queued rows and `held` ones leave an abandoned row abandoned. */
  lemma AbandonedByWrites(s: State, s': State, i: nat)
    requires Abandoned(s, i)
    requires i in s'.rows ==> i in s.rows && (s'.rows[i].status == s.rows[i].status || s'.rows[i].status.Uncertain?)
    requires forall t :: t in s'.tasks ==> t.seqNo != i
    requires s'.phase.Looking? ==> i !in s'.phase.due
    ensures Abandoned(s', i)
  {
  }

  lemma FinishKeepsAbandoned(s: State, at: Time, i: nat)
    requires s.phase.Sends? && s.tasks == {} && Abandoned(s, i)
    ensures Abandoned(Finish(s, at), i)
  {
  }

  lemma TokenKeepsAbandoned(s: State, token: Token, at: Time, i: nat)
    requires s.phase.Looking? && Abandoned(s, i)
    ensures Abandoned(AfterToken(s, token, at), i)
  {
  }

  lemma ClaimKeepsAbandoned(s: State, due: set<nat>, at: Time, i: nat)
    requires s.phase.Selected? && due <= WithStatus(s.rows, Queued) && Abandoned(s, i)
    ensures Abandoned(Claim(s, due, at), i)
  {
  }

  lemma SendKeepsAbandoned(s: State, t: Task, at: Time, i: nat)
    requires s.phase.Sends? && t in s.tasks && t.seqNo < |s.recipients| && Abandoned(s, i)
    ensures t.call.None? ==> forall allowed :: Abandoned(AfterRateCheck(s, t, allowed, at), i)
    ensures t.call.Some? && t.call.value < |s.calls| ==> forall result :: Abandoned(AfterAnswer(s, t, result, at), i)
  {
  }

  lemma AbandonedStays(s: State, step: Step, i: nat)
    requires TasksOk(s) && Possible(s, step) && Abandoned(s, i)
    ensures Abandoned(Apply(s, step), i)
  {
    match step
    case BFinish(at) => FinishKeepsAbandoned(s, at, i);
    case BToken(token, at) => TokenKeepsAbandoned(s, token, at, i);
    case BRate(t, _, at) => SendKeepsAbandoned(s, t, at, i);
    case BAnswer(t, _, at) => SendKeepsAbandoned(s, t, at, i);
    case BClaim(_, due, at) => ClaimKeepsAbandoned(s, due, at, i);
    case BSelect(now) => AbandonedByWrites(s, Select(s, now), i);
    case BSkip(_) => AbandonedByWrites(s, Skip(s), i);
    case BCancel(at) => AbandonedByWrites(s, EndBroadcast(s, Some(Stopped), at).(clock := at), i);
    case BErase(_) =>
    case BCrash =>
  }

  /** A dead run's recipients are never claimed or called again. */
  lemma {:induction false} DeadRunIsNeverResumed(s: State, steps: seq<Step>, i: nat)
    requires Inv(s) && Run(s, steps) && Abandoned(s, i)
    ensures Abandoned(After(s, steps), i)
    ensures forall c :: |s.calls| <= c < |After(s, steps).calls| ==> After(s, steps).calls[c].seqNo != i
    decreases |steps|
  {
    if steps != [] {
      var s' := Apply(s, steps[0]);
      AbandonedStays(s, steps[0], i);
      StepKeepsInv(s, steps[0]);
      NewCallIsATask(s, steps[0], i);
      DeadRunIsNeverResumed(s', steps[1..], i);
      CallsGrow(s', steps[1..]);
    }
  }

  lemma NewCallIsATask(s: State, step: Step, i: nat)
    requires Possible(s, step) && Abandoned(s, i)
    ensures forall c :: |s.calls| <= c < |Apply(s, step).calls| ==> Apply(s, step).calls[c].seqNo != i
  {
  }

  /** The log only grows, and keeps whom each call was for. */
  lemma {:induction false} CallsGrow(s: State, steps: seq<Step>)
    requires Run(s, steps)
    ensures |s.calls| <= |After(s, steps).calls|
    ensures forall c :: 0 <= c < |s.calls| ==> After(s, steps).calls[c].seqNo == s.calls[c].seqNo
    decreases |steps|
  {
    if steps != [] {
      CallsGrow(Apply(s, steps[0]), steps[1..]);
    }
  }

  /** The step that ends a tick without a crash. */
  predicate EndsTick(s: State, step: Step)
    requires Possible(s, step)
  {
    !s.phase.Idle? && !step.BCrash? && Apply(s, step).phase.Idle?
  }

  /** Some part of the running tick holds the recipient. */
  ghost predicate Held(s: State, i: nat) {
    (exists t :: t in s.tasks && t.seqNo == i) || (s.phase.Looking? && i in s.phase.due)
  }

  /** Recipients left `sending` by a run that died. */
  ghost function LeftSending(s: State): set<nat> {
    set i | i in s.rows && s.rows[i].status.Sending? && !Held(s, i)
  }

  /** The broadcast ended while the token was being looked up, and the lookup failed: the claimed
      recipients go back to the queue of a broadcast that will never run. */
  predicate RequeuedTooLate(s: State, step: Step) {
    && step.BToken? && step.token.Unavailable? && s.phase.Looking? && !s.status.Running?
    && s.phase.due * s.rows.Keys != {}
  }

  lemma EndingLeavesOnlySending(s: State, status: Option<BroadcastStatus>, now: Time)
    requires !EndBroadcast(s, status, now).status.Running?
    ensures OpenRows(EndBroadcast(s, status, now).rows) == WithStatus(s.rows, Sending)
  {
  }

  lemma RequeueMovesSending(rows: map<nat, Row>, due: set<nat>, at: Time)
    ensures WithStatus(Requeued(rows, due, at), Sending) == WithStatus(rows, Sending) - due
    ensures WithStatus(Requeued(rows, due, at), Queued) == WithStatus(rows, Queued) + (due * WithStatus(rows, Sending))
    ensures OpenRows(Requeued(rows, due, at)) == OpenRows(rows)
  {
  }

  lemma FinishLeavesOnlySending(s: State, at: Time)
    requires EndingOk(s) && s.phase.Sends? && !Finish(s, at).status.Running?
    ensures OpenRows(Finish(s, at).rows) == WithStatus(s.rows, Sending)
  {
    var idle := s.(phase := Idle, clock := at);
    if Halt in s.phase.results || BreakerTripped(s.rows) {
      EndingLeavesOnlySending(idle, Some(Halted), at);
    } else if !s.status.Running? {
      var throttled := MostThrottled(s.phase.results);
      EndingLeavesOnlySending(if throttled.Some? then idle.(nextSendAt := at + ThrottleDelayMs(throttled.value)) else idle, None, at);
    } else {
      assert WithStatus(s.rows, Sending) <= OpenRows(s.rows);
    }
  }

  lemma OpenSplits(rows: map<nat, Row>)
    ensures OpenRows(rows) == WithStatus(rows, Queued) + WithStatus(rows, Sending)
  {
  }

  lemma LeftAtRest(s: State)
    requires s.tasks == {}
    ensures LeftSending(s) == WithStatus(s.rows, Sending) - (if s.phase.Looking? then s.phase.due else {})
  {
  }

  lemma MissingTokenLeaves(s: State, at: Time)
    requires s.tasks == {} && s.phase.Looking? && !AfterToken(s, Missing, at).status.Running?
    ensures OpenRows(AfterToken(s, Missing, at).rows) == LeftSending(s)
  {
    LeftAtRest(s);
    RequeueMovesSending(s.rows, s.phase.due, at);
    EndingLeavesOnlySending(s.(phase := Idle, clock := at, rows := Requeued(s.rows, s.phase.due, at)), Some(Halted), at);
  }

  lemma UnavailableTokenLeaves(s: State, at: Time)
    requires s.tasks == {} && s.phase.Looking? && WithStatus(s.rows, Queued) == {}
    requires forall i :: i in s.phase.due && i in s.rows ==> s.rows[i].status.Sending?
    ensures OpenRows(AfterToken(s, Unavailable, at).rows) == LeftSending(s) + (s.phase.due * s.rows.Keys)
  {
    LeftAtRest(s);
    RequeueMovesSending(s.rows, s.phase.due, at);
    OpenSplits(s.rows);
  }

  lemma ClaimLeaves(s: State, at: Time)
    requires s.tasks == {} && s.phase.Selected? && WithStatus(s.rows, Queued) == {}
    ensures OpenRows(Claim(s, {}, at).rows) == LeftSending(s)
  {
    LeftAtRest(s);
    OpenSplits(s.rows);
  }

  /** The design promises that a cancelled or halted broadcast keeps nobody queued or sending once its
      tick is over. The code keeps that promise exactly when no earlier run died mid-send and the
      broadcast did not end during a token lookup that then failed. */
  lemma TickLeavesNobodyOpen(s: State, step: Step)
    requires Inv(s) && Possible(s, step) && EndsTick(s, step) && !Apply(s, step).status.Running?
    ensures OpenRows(Apply(s, step).rows) == {} <==> LeftSending(s) == {} && !RequeuedTooLate(s, step)
  {
    match step
    case BToken(token, at) =>
      if token.Missing? {
        MissingTokenLeaves(s, at);
      } else {
        UnavailableTokenLeaves(s, at);
      }
    case BFinish(at) =>
      LeftAtRest(s);
      FinishLeavesOnlySending(s, at);
    case BClaim(reserved, due, at) =>
      EmptyClaimHasNobodyQueued(s, reserved, due, at);
      ClaimLeaves(s, at);
    case BSkip(_) =>
      LeftAtRest(s);
      OpenSplits(s.rows);
  }

  lemma EmptyClaimHasNobodyQueued(s: State, reserved: nat, due: set<nat>, at: Time)
    requires Possible(s, BClaim(reserved, due, at)) && Claim(s, due, at).phase.Idle?
    ensures due == {} && WithStatus(s.rows, Queued) == {}
  {
  }

  // ---- A cancel during the lookup -----------------------------------------------------------

  /** A tick claims the only recipient, the broadcast is cancelled, and the lookup fails. */
  function CancelledLookup(now: Time): seq<Step> {
    [BSelect(now), BClaim(0, {0}, now), BCancel(now), BToken(Unavailable, now)]
  }

  lemma ClaimTheOnlyOne(s: State, now: Time)
    requires s.phase == Selected(now) && s.nextSendAt <= now && s.clock == now
    requires s.rows.Keys == {0} && s.rows[0].status.Queued?
    ensures Possible(s, BClaim(0, {0}, now))
  {
    assert WithStatus(s.rows, Queued) == {0};
  }

  /** It does happen: a stopped broadcast is left with a queued recipient, and no tick will take it. */
  lemma CancelDuringLookupLeavesQueued(to: Recipient, rate: int, now: Time)
    ensures var s, steps := Create([to], rate, now), CancelledLookup(now);
            && Run(s, steps[..3]) && Run(s, steps)
            && RequeuedTooLate(After(s, steps[..3]), steps[3])
            && After(s, steps).status.Stopped? && 0 in After(s, steps).rows && After(s, steps).rows[0].status.Queued?
  {
    var s, steps := Create([to], rate, now), CancelledLookup(now);
    var s1 := Select(s, now);
    assert s1.rows.Keys == {0};
    ClaimTheOnlyOne(s1, now);
    var s2 := Claim(s1, {0}, now);
    var s3 := Apply(s2, steps[2]);
    assert s3.rows[0].status.Sending? && s3.status.Stopped? && s3.phase == Looking(now, {0});
    var s4 := Apply(s3, steps[3]);
    assert s4.rows[0].status.Queued?;
    StepsOf(s, steps, s1, s2, s3, s4);
  }

  lemma StepsOf(s: State, steps: seq<Step>, s1: State, s2: State, s3: State, s4: State)
    requires |steps| == 4
    requires Possible(s, steps[0]) && Apply(s, steps[0]) == s1
    requires Possible(s1, steps[1]) && Apply(s1, steps[1]) == s2
    requires Possible(s2, steps[2]) && Apply(s2, steps[2]) == s3
    requires Possible(s3, steps[3]) && Apply(s3, steps[3]) == s4
    ensures Run(s, steps[..3]) && After(s, steps[..3]) == s3
    ensures Run(s, steps) && After(s, steps) == s4
  {
    OneStep(s3, steps[3]);
    TwoSteps(s2, steps[2], steps[3]);
    OneStep(s2, steps[2]);
    assert steps[1..] == [steps[1], steps[2], steps[3]] && steps[1..][1..] == [steps[2], steps[3]];
    assert Run(s1, steps[1..]) && After(s1, steps[1..]) == s4;
    assert steps[..3][1..] == [steps[1], steps[2]] && steps[..3][1..][1..] == [steps[2]];
    assert Run(s1, steps[..3][1..]) && After(s1, steps[..3][1..]) == s3;
  }

  lemma OneStep(s: State, step: Step)
    requires Possible(s, step)
    ensures Run(s, [step]) && After(s, [step]) == Apply(s, step)
  {
    assert [step][1..] == [] && Run(Apply(s, step), []);
  }

  lemma TwoSteps(s: State, first: Step, second: Step)
    requires Possible(s, first) && Possible(Apply(s, first), second)
    ensures Run(s, [first, second]) && After(s, [first, second]) == Apply(Apply(s, first), second)
  {
    assert [first, second][1..] == [second];
    OneStep(Apply(s, first), second);
  }
}
