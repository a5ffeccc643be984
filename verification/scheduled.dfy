/** Scheduled sends as a state machine: the `scheduled_sends` table, the continuations of sends in
    flight, and a log of every call made to Meta (apps/gateway/src/scheduled.ts and the scheduled
    half of apps/gateway/src/gateway.ts).

    Each function below is one stretch of code with no `await` in it. Steps may interleave in any
    order; a crash drops continuations and keeps rows. */
module Scheduled {
  import opened Core
  import opened MetaSend

  const MAX_PENDING_SCHEDULED: nat := 50_000
  const MAX_SCHEDULE_AHEAD_MS: int := 90 * 24 * 3600_000
  const DEFAULT_EXPIRY_MS: int := 3600_000
  const MAX_EXPIRY_AFTER_SEND_MS: int := 7 * 24 * 3600_000
  const STALE_SENDING_MS: int := 60_000
  const MAX_THROTTLED_ATTEMPTS: nat := 8
  const TOKEN_RETRY_MS: int := 30_000

  datatype Key = Key(account: string, key: string)

  datatype Status = Pending | Sending | Sent | Failed | Uncertain | Cancelled

  datatype Reason = Expired | Rejected | OutcomeLost

  /** What a `PUT /scheduled/:key` asks for, already validated. */
  datatype Request = Request(phone: string, to: string, template: string, components: Option<string>,
                             sendAt: Time, expiresAt: Time)

  /** `request` is what the last PUT asked for; `components` is dropped when the row ends. */
  datatype Row = Row(request: Request, components: Option<string>, status: Status, nextAttemptAt: Time,
                     attempts: nat, messageId: Option<string>, reason: Option<Reason>, updatedAt: Time)

  /** One request that left for Meta. `life` tells apart the rows a key has had: deleting a row ends
      one life of its key. `answer` is None while Meta has not answered, and stays None after a crash. */
  datatype Call = Call(key: Key, life: nat, request: Request, answer: Option<SendResult>)

  /** A send in flight: the row as the claim of that `run` read it, the life of its key then, and its call
      once made. */
  datatype Task = Task(run: nat, key: Key, life: nat, row: Row, call: Option<nat>)

  datatype FailedEvent = FailedEvent(to: string, phone: string, reason: Reason, at: Time)

  datatype State = State(
    rows: map<Key, Row>,
    tasks: set<Task>,
    runs: nat,
    calls: seq<Call>,
    lives: map<Key, nat>,
    failed: map<Key, seq<FailedEvent>>)

  const Empty: State := State(map[], {}, 0, [], map[], map[])

  function Life(s: State, k: Key): nat {
    if k in s.lives then s.lives[k] else 0
  }

  function FailedEvents(s: State, k: Key): seq<FailedEvent> {
    if k in s.failed then s.failed[k] else []
  }

  predicate Open(r: Row) { r.status.Pending? || r.status.Sending? }

  function OpenKeys(rows: map<Key, Row>): set<Key> {
    set k | k in rows && Open(rows[k])
  }

  // ---- PUT and DELETE /scheduled/:key -------------------------------------------------------

  datatype Times = Times(sendAt: Time, expiresAt: Time) | TooFarAhead | ExpiryNotAfterSend | ExpiryTooLate | InThePast

  /** The time checks of a PUT body: what is accepted keeps both limits, and a body is refused exactly
      when its times break one, named by the first it breaks. */
  function ParseTimes(sendAt: Time, expiry: Option<Time>, now: Time): (t: Times)
    ensures t.Times? ==>
              t.sendAt == sendAt <= now + MAX_SCHEDULE_AHEAD_MS
              && Max(sendAt, now) < t.expiresAt <= sendAt + MAX_EXPIRY_AFTER_SEND_MS
              && (expiry.Some? ==> t.expiresAt == expiry.value)
              && (expiry.None? ==> t.expiresAt - sendAt == DEFAULT_EXPIRY_MS)
    ensures t.TooFarAhead? <==> sendAt > now + MAX_SCHEDULE_AHEAD_MS
    ensures expiry.Some? && !t.TooFarAhead? ==> (t.ExpiryNotAfterSend? <==> expiry.value <= sendAt)
    ensures expiry.Some? && !t.TooFarAhead? ==> (t.ExpiryTooLate? <==> expiry.value > sendAt + MAX_EXPIRY_AFTER_SEND_MS)
    ensures expiry.Some? && t.InThePast? ==> expiry.value <= now
    ensures expiry.None? ==> (t.InThePast? <==> sendAt + DEFAULT_EXPIRY_MS <= now) && !t.ExpiryNotAfterSend? && !t.ExpiryTooLate?
  {
    var expiresAt := if expiry.Some? then expiry.value else sendAt + DEFAULT_EXPIRY_MS;
    if sendAt > now + MAX_SCHEDULE_AHEAD_MS then TooFarAhead
    else if expiresAt <= sendAt then ExpiryNotAfterSend
    else if expiresAt > sendAt + MAX_EXPIRY_AFTER_SEND_MS then ExpiryTooLate
    else if expiresAt <= now then InThePast
    else Times(sendAt, expiresAt)
  }

  datatype PutResult = Created | Replaced | NotPending | Full

  function PutOutcome(s: State, k: Key): PutResult {
    if k in s.rows && (s.rows[k].status.Sending? || s.rows[k].status.Sent? || s.rows[k].status.Uncertain?) then NotPending
    else if k in s.rows && s.rows[k].status.Pending? then Replaced
    else if |OpenKeys(s.rows)| >= MAX_PENDING_SCHEDULED then Full
    else Created
  }

  function FreshRow(req: Request, now: Time): Row {
    Row(req, req.components, Pending, req.sendAt, 0, None, None, now)
  }

  function Put(s: State, k: Key, req: Request, now: Time): State {
    match PutOutcome(s, k)
    case NotPending => s
    case Full => s
    case Replaced =>
      s.(rows := s.rows[k := s.rows[k].(request := req, components := req.components,
                                        nextAttemptAt := req.sendAt, attempts := 0, updatedAt := now)])
    case Created => s.(rows := s.rows[k := FreshRow(req, now)])
  }

  datatype CancelResult = Missing | Unchanged | TooLate | CancelledNow

  function CancelOutcome(s: State, k: Key): CancelResult {
    if k !in s.rows then Missing
    else if s.rows[k].status.Cancelled? || s.rows[k].status.Failed? then Unchanged
    else if !s.rows[k].status.Pending? then TooLate
    else CancelledNow
  }

  function Cancel(s: State, k: Key, now: Time): State {
    if CancelOutcome(s, k).CancelledNow? then
      s.(rows := s.rows[k := s.rows[k].(status := Cancelled, components := None, updatedAt := now)])
    else s
  }

  // ---- The alarm's tick ---------------------------------------------------------------------

  /** Ends the rows of `ended` and emits one `scheduled_failed` for each, in one transaction. */
  function End(s: State, ended: set<Key>, status: Status, reason: Reason, now: Time): State
    requires ended <= s.rows.Keys
  {
    s.(rows := EndedRows(s.rows, ended, status, reason, now),
       failed := EndedEvents(s.failed, s.rows, ended, reason, now))
  }

  /** The UPDATE that ends rows. */
  function EndedRows(rows: map<Key, Row>, ended: set<Key>, status: Status, reason: Reason, now: Time): map<Key, Row> {
    map k | k in rows ::
      if k in ended then rows[k].(status := status, reason := Some(reason), components := None, updatedAt := now)
      else rows[k]
  }

  /** The event stream, by key, with one event more for each row that ended. */
  function EndedEvents(failed: map<Key, seq<FailedEvent>>, rows: map<Key, Row>, ended: set<Key>, reason: Reason, now: Time)
    : map<Key, seq<FailedEvent>>
    requires ended <= rows.Keys
  {
    map k | k in failed.Keys + ended ::
      (if k in failed then failed[k] else []) +
      (if k in ended then [FailedEvent(rows[k].request.to, rows[k].request.phone, reason, now)] else [])
  }

  function StaleKeys(s: State, now: Time): set<Key> {
    set k | k in s.rows && s.rows[k].status.Sending? && s.rows[k].updatedAt < now - STALE_SENDING_MS
  }

  /** Rows left `sending` by a run that died: Meta may have them. */
  function SweepStale(s: State, now: Time): State {
    End(s, StaleKeys(s, now), Uncertain, OutcomeLost, now)
  }

  /** The rows the due index finds: the query filters on `next_attempt_at` too. */
  function ExpiredKeys(s: State, now: Time): set<Key> {
    set k | k in s.rows && s.rows[k].status.Pending? && s.rows[k].nextAttemptAt <= now && s.rows[k].request.expiresAt <= now
  }

  function ExpireDue(s: State, now: Time): State {
    End(s, ExpiredKeys(s, now), Failed, Expired, now)
  }

  function DueKeys(s: State, now: Time): set<Key> {
    set k | k in s.rows && s.rows[k].status.Pending? && s.rows[k].nextAttemptAt <= now
  }

  /** No token: the due rows wait without spending an attempt. `at` is the clock after the lookup. */
  function Postpone(s: State, now: Time, at: Time): State {
    s.(rows := PostponedRows(s.rows, now, at))
  }

  function PostponedRows(rows: map<Key, Row>, now: Time, at: Time): map<Key, Row> {
    map k | k in rows ::
      if rows[k].status.Pending? && rows[k].nextAttemptAt <= now
      then rows[k].(nextAttemptAt := Min(now + TOKEN_RETRY_MS, rows[k].request.expiresAt), updatedAt := at)
      else rows[k]
  }

  /** `picked` is what `ORDER BY next_attempt_at LIMIT limit` may return over the due rows. */
  predicate EarliestDue(s: State, now: Time, limit: int, picked: set<Key>) {
    && picked <= DueKeys(s, now)
    && |picked| <= Max(0, limit)
    && (forall p, k :: p in picked && k in DueKeys(s, now) - picked ==> s.rows[p].nextAttemptAt <= s.rows[k].nextAttemptAt)
    && (|picked| < limit ==> picked == DueKeys(s, now))
  }

  function Claimed(r: Row, now: Time): Row { r.(status := Sending, updatedAt := now) }

  function Claim(s: State, now: Time, picked: set<Key>): State
    requires picked <= s.rows.Keys
  {
    s.(rows := ClaimedRows(s.rows, picked, now),
       tasks := s.tasks + ClaimTasks(s, picked, now),
       runs := s.runs + 1)
  }

  function ClaimedRows(rows: map<Key, Row>, picked: set<Key>, now: Time): map<Key, Row> {
    map k | k in rows :: if k in picked then Claimed(rows[k], now) else rows[k]
  }

  function ClaimTasks(s: State, picked: set<Key>, now: Time): set<Task>
    requires picked <= s.rows.Keys
  {
    set k | k in picked :: Task(s.runs, k, Life(s, k), Claimed(s.rows[k], now), None)
  }

  // ---- One send -----------------------------------------------------------------------------

  predicate IsSending(s: State, k: Key) { k in s.rows && s.rows[k].status.Sending? }

  /** The rate limiter said no (or failed): back to pending without spending an attempt. */
  function RateRefused(s: State, t: Task, now: Time): State {
    var left := s.(tasks := s.tasks - {t});
    if IsSending(s, t.key) then
      left.(rows := s.rows[t.key := s.rows[t.key].(status := Pending, updatedAt := now,
                             nextAttemptAt := Min(now + ThrottleDelayMs(1), t.row.request.expiresAt))])
    else left
  }

  /** After the rate check: the row is read again, and either the send stops, the row expires, or the
      call leaves for Meta. */
  function Proceed(s: State, t: Task, now: Time): State {
    var left := s.(tasks := s.tasks - {t});
    if !IsSending(s, t.key) then left
    else if s.rows[t.key].request.expiresAt <= now then
      var row := s.rows[t.key];
      left.(rows := s.rows[t.key := row.(status := Failed, reason := Some(Expired), components := None, updatedAt := now)],
            failed := s.failed[t.key := FailedEvents(s, t.key) + [FailedEvent(t.row.request.to, t.row.request.phone, Expired, now)]])
    else
      left.(tasks := left.tasks + {t.(call := Some(|s.calls|))},
            calls := s.calls + [Call(t.key, Life(s, t.key), t.row.request, None)])
  }

  /** The row after Meta's answer to an attempt on it. */
  function Settled(row: Row, t: Task, result: SendResult, now: Time): Row {
    var attempts := t.row.attempts + 1;
    if result.Accepted? then
      row.(status := Sent, messageId := Some(result.id), reason := None, attempts := attempts, components := None, updatedAt := now)
    else
      var verdict := VerdictOf(result, true);
      if verdict.VThrottled? && attempts < MAX_THROTTLED_ATTEMPTS then
        row.(status := Pending, attempts := attempts, updatedAt := now,
             nextAttemptAt := Min(now + ThrottleDelayMs(attempts), t.row.request.expiresAt))
      else if verdict.VUnknown? then
        row.(status := Uncertain, messageId := None, reason := Some(OutcomeLost), attempts := attempts, components := None, updatedAt := now)
      else
        row.(status := Failed, messageId := None, reason := Some(Rejected), attempts := attempts, components := None, updatedAt := now)
  }

  function Answer(s: State, t: Task, result: SendResult, now: Time): State
    requires t.call.Some? && t.call.value < |s.calls|
  {
    var left := s.(tasks := s.tasks - {t}, calls := s.calls[t.call.value := s.calls[t.call.value].(answer := Some(result))]);
    if !IsSending(s, t.key) then left
    else
      var row := Settled(s.rows[t.key], t, result, now);
      var emitted := if row.status.Failed? || row.status.Uncertain?
                     then FailedEvents(s, t.key) + [FailedEvent(t.row.request.to, t.row.request.phone, row.reason.value, now)]
                     else FailedEvents(s, t.key);
      left.(rows := s.rows[t.key := row],
            failed := if row.status.Failed? || row.status.Uncertain? then s.failed[t.key := emitted] else s.failed)
  }

  /** Erasure, or retention of an ended row. */
  function Delete(s: State, k: Key): State {
    s.(rows := s.rows - {k}, lives := s.lives[k := Life(s, k) + 1])
  }

  /** A send of the tick in progress. A tick waits for all of its sends. */
  predicate Current(s: State, t: Task) { t.run + 1 == s.runs }

  /** No tick is in progress. One alarm runs the ticks, and never two at a time. */
  predicate Free(s: State) { forall t :: t in s.tasks ==> !Current(s, t) }

  /** Where a send throws: before its row is settled, between the settle and the event, which are separate
      writes, or after both. */
  datatype ThrowPoint = Unsettled | Unreported(result: SendResult) | Reported(result: SendResult)

  /** A send throws. The wait of its tick ends there, while the tick's other sends go on without it. */
  function Throw(s: State, t: Task, point: ThrowPoint, now: Time): State
    requires !point.Unsettled? ==> t.call.Some? && t.call.value < |s.calls|
  {
    var left := Dropped(s, t, point, now);
    if Current(s, t) then left.(runs := s.runs + 1) else left
  }

  function Dropped(s: State, t: Task, point: ThrowPoint, now: Time): State
    requires !point.Unsettled? ==> t.call.Some? && t.call.value < |s.calls|
  {
    match point
    case Unsettled => s.(tasks := s.tasks - {t})
    case Unreported(result) => Answer(s, t, result, now).(failed := s.failed)
    case Reported(result) => Answer(s, t, result, now)
  }

  // ---- Runs ---------------------------------------------------------------------------------

  datatype Step =
    | SPut(k: Key, req: Request, now: Time)
    | SCancel(k: Key, now: Time)
    | SSweep(now: Time)
    | SExpire(now: Time)
    | SPostpone(now: Time, at: Time)
    | SClaim(now: Time, limit: int, picked: set<Key>)
    | SRateRefused(t: Task, now: Time)
    | SProceed(t: Task, now: Time)
    | SAnswer(t: Task, result: SendResult, now: Time)
    | SThrow(t: Task, point: ThrowPoint, now: Time)
    | SDie
    | SDelete(k: Key)

  /** What the code itself lets happen in state `s`. */
  predicate Possible(s: State, step: Step) {
    match step
    case SPut(_, req, _) => req.sendAt < req.expiresAt
    case SSweep(_) => Free(s)
    case SExpire(_) => Free(s)
    case SPostpone(_, _) => Free(s)
    case SClaim(now, limit, picked) => Free(s) && EarliestDue(s, now, limit, picked)
    case SRateRefused(t, _) => t in s.tasks && t.call.None?
    case SProceed(t, _) => t in s.tasks && t.call.None?
    case SAnswer(t, _, _) => t in s.tasks && t.call.Some? && t.call.value < |s.calls|
    case SThrow(t, point, _) => t in s.tasks && (!point.Unsettled? ==> t.call.Some? && t.call.value < |s.calls|)
    case SCancel(_, _) => true
    case SDie => true
    case SDelete(_) => true
  }

  function Apply(s: State, step: Step): State
    requires Possible(s, step)
  {
    match step
    case SPut(k, req, now) => Put(s, k, req, now)
    case SCancel(k, now) => Cancel(s, k, now)
    case SSweep(now) => SweepStale(s, now)
    case SExpire(now) => ExpireDue(s, now)
    case SPostpone(now, at) => Postpone(s, now, at)
    case SClaim(now, _, picked) => Claim(s, now, picked)
    case SRateRefused(t, now) => RateRefused(s, t, now)
    case SProceed(t, now) => Proceed(s, t, now)
    case SAnswer(t, result, now) => Answer(s, t, result, now)
    case SThrow(t, point, now) => Throw(s, t, point, now)
    case SDie => s.(tasks := {})
    case SDelete(k) => Delete(s, k)
  }

  predicate Run(s: State, steps: seq<Step>)
    decreases |steps|
  {
    steps == [] || (Possible(s, steps[0]) && Run(Apply(s, steps[0]), steps[1..]))
  }

  function After(s: State, steps: seq<Step>): State
    requires Run(s, steps)
    decreases |steps|
  {
    if steps == [] then s else After(Apply(s, steps[0]), steps[1..])
  }

  // ---- Sends whose row was erased -------------------------------------------------------------

  /** The row the send was claimed for has been erased since. */
  predicate Erased(s: State, t: Task) { t.life != Life(s, t.key) }

  /** The send of an erased row outlives its tick: a later tick could claim a new row under its key. */
  predicate Stray(s: State, t: Task) { Erased(s, t) && !Current(s, t) }

  predicate NoStray(s: State) { forall t :: t in s.tasks ==> !Stray(s, t) }

  /** A throw that leaves the send of an erased row behind, or the erasure of a row whose send outlived its
      tick because of an earlier throw. Nothing else makes a send stray. */
  predicate MakesStray(s: State, step: Step)
    requires Possible(s, step)
  {
    match step
    case SThrow(t, _, _) => Current(s, t) && exists u :: u in s.tasks && u != t && Erased(s, u)
    case SDelete(k) => exists t :: t in s.tasks && t.key == k && !Current(s, t)
    case _ => false
  }

  /** No step of the run makes a send stray. */
  predicate Clean(s: State, steps: seq<Step>)
    requires Run(s, steps)
    decreases |steps|
  {
    steps != [] ==> !MakesStray(s, steps[0]) && Clean(Apply(s, steps[0]), steps[1..])
  }

  /** The claims of the run keep to the pace: none before `tickAt`, and then none within `tickMs` of the last. */
  predicate Paced(steps: seq<Step>, tickAt: Time, tickMs: nat)
    decreases |steps|
  {
    steps != [] ==>
      if steps[0].SClaim? then steps[0].now >= tickAt && Paced(steps[1..], steps[0].now + tickMs, tickMs)
      else Paced(steps[1..], tickAt, tickMs)
  }

  // ---- Safety -------------------------------------------------------------------------------

  /** No answer, or an answer that does not prove "not sent". */
  predicate MayHaveReached(c: Call) {
    c.answer.None? || !DefinitelyRefused(c.answer.value)
  }

  /** Calls made for the row a key has now, that may have reached the customer. */
  predicate Reached(s: State, c: nat, k: Key)
    requires c < |s.calls|
  {
    s.calls[c].key == k && s.calls[c].life == Life(s, k) && MayHaveReached(s.calls[c])
  }

  /** A row is attempted at most once unless Meta proved it was not sent. */
  ghost predicate AtMostOnce(s: State) {
    forall c, d :: 0 <= c < d < |s.calls| && s.calls[c].key == s.calls[d].key && s.calls[c].life == s.calls[d].life
      ==> !MayHaveReached(s.calls[c]) || !MayHaveReached(s.calls[d])
  }

  /** A send of a row that still exists: nothing else may claim the row, and the send carries its request. */
  predicate HoldsRow(s: State, t: Task) {
    && t.key in s.rows
    && (s.rows[t.key].status.Sending? || s.rows[t.key].status.Uncertain?)
    && t.row.request == s.rows[t.key].request
  }

  /** A row put under the key of an erased one waits while the old send is in flight. */
  predicate RowWaits(s: State, k: Key) {
    k in s.rows ==> s.rows[k].status.Pending? || s.rows[k].status.Cancelled? || s.rows[k].status.Failed?
  }

  /** The task's own call, not answered yet. */
  predicate CallOpen(s: State, t: Task) {
    t.call.Some? ==>
      t.call.value < |s.calls|
      && var c := s.calls[t.call.value]; c.key == t.key && c.life == t.life && c.answer.None?
  }

  ghost predicate TasksOk(s: State) {
    && (forall t :: t in s.tasks ==> t.run < s.runs && t.life <= Life(s, t.key) && CallOpen(s, t))
    && (forall t :: t in s.tasks ==> if Erased(s, t) then RowWaits(s, t.key) else HoldsRow(s, t))
    && (forall t, u :: t in s.tasks && u in s.tasks && t.key == u.key && t.life == u.life ==> t == u)
  }

  /** Only rows that can never be claimed again have calls that may have reached the customer, and those
      calls carried what the row still asks for. */
  ghost predicate CallsOk(s: State) {
    && (forall c :: 0 <= c < |s.calls| ==> s.calls[c].life <= Life(s, s.calls[c].key))
    && (forall c, k :: 0 <= c < |s.calls| && Reached(s, c, k) ==>
          && k in s.rows
          && (s.rows[k].status.Sending? || s.rows[k].status.Sent? || s.rows[k].status.Uncertain?)
          && s.calls[c].request == s.rows[k].request)
    && (forall c, t :: 0 <= c < |s.calls| && t in s.tasks && !Erased(s, t) && Reached(s, c, t.key) ==>
          t.call.Some? && t.call.value == c)
  }

  /** `next_attempt_at <= expires_at` on every pending row: the due index hides no expired row. */
  ghost predicate DueIndexOk(s: State) {
    forall k :: k in s.rows && s.rows[k].status.Pending? ==> s.rows[k].nextAttemptAt <= s.rows[k].request.expiresAt
  }

  ghost predicate BoundOk(s: State) { |OpenKeys(s.rows)| <= MAX_PENDING_SCHEDULED }

  ghost predicate Inv(s: State) {
    Safe(s) && NoStray(s) && DueIndexOk(s) && BoundOk(s)
  }

  ghost predicate Safe(s: State) { TasksOk(s) && CallsOk(s) && AtMostOnce(s) }

  /** Steps that write rows only are safe when they leave every row that may have reached the customer
      out of the claimable statuses, every row in flight with its request, and claim nothing. */
  lemma RowWritesAreSafe(s: State, s': State)
    requires Safe(s)
    requires s'.tasks == s.tasks && s'.calls == s.calls && s'.lives == s.lives && s'.runs == s.runs
    requires forall k :: k in s.rows && (s.rows[k].status.Sending? || s.rows[k].status.Uncertain?) ==>
               k in s'.rows && (s'.rows[k].status.Sending? || s'.rows[k].status.Uncertain?) && s'.rows[k].request == s.rows[k].request
    requires forall k :: k in s.rows && s.rows[k].status.Sent? ==>
               k in s'.rows && s'.rows[k].status.Sent? && s'.rows[k].request == s.rows[k].request
    requires forall k :: RowWaits(s, k) ==> RowWaits(s', k)
    ensures Safe(s')
  {
    assert forall c, k :: 0 <= c < |s.calls| && Reached(s', c, k) ==> Reached(s, c, k);
  }

  /** Without a stray send there is none at all of an erased row when a tick claims. */
  lemma ClaimKeepsTasks(s: State, now: Time, picked: set<Key>)
    requires Safe(s) && NoStray(s) && Free(s) && picked <= DueKeys(s, now)
    ensures TasksOk(Claim(s, now, picked))
  {
    var s' := Claim(s, now, picked);
    forall t | t in s'.tasks && t !in s.tasks
      ensures t.key in picked && t == Task(s.runs, t.key, Life(s, t.key), Claimed(s.rows[t.key], now), None)
    {
    }
    assert forall t :: t in s.tasks ==> !Erased(s, t) && HoldsRow(s, t) && t.key !in picked;
  }

  lemma ClaimKeepsCalls(s: State, now: Time, picked: set<Key>)
    requires Safe(s) && NoStray(s) && Free(s) && picked <= DueKeys(s, now)
    ensures CallsOk(Claim(s, now, picked)) && AtMostOnce(Claim(s, now, picked))
  {
    var s' := Claim(s, now, picked);
    assert forall c, k :: 0 <= c < |s.calls| && Reached(s', c, k) ==> Reached(s, c, k);
    assert forall t :: t in s'.tasks && t !in s.tasks ==> t.key in picked;
  }

  lemma ClaimIsSafe(s: State, now: Time, picked: set<Key>)
    requires Safe(s) && NoStray(s) && Free(s) && picked <= DueKeys(s, now)
    ensures Safe(Claim(s, now, picked))
  {
    ClaimKeepsTasks(s, now, picked);
    ClaimKeepsCalls(s, now, picked);
  }

  lemma DropIsSafe(s: State, dead: set<Task>)
    requires Safe(s)
    ensures Safe(s.(tasks := s.tasks - dead))
  {
    var s' := s.(tasks := s.tasks - dead);
    assert forall c, k :: 0 <= c < |s.calls| && Reached(s', c, k) ==> Reached(s, c, k);
  }

  /** A task of the row the key has now. */
  ghost predicate HasTask(s: State, k: Key) { exists t :: t in s.tasks && t.key == k && !Erased(s, t) }

  /** A row with nothing in flight and no call that may have reached the customer is free to wait or end. */
  lemma FreeRowIsSafe(s: State, k: Key, row: Row, failed: map<Key, seq<FailedEvent>>)
    requires Safe(s) && !HasTask(s, k)
    requires row.status.Pending? || row.status.Cancelled? || row.status.Failed?
    requires forall c :: 0 <= c < |s.calls| ==> !Reached(s, c, k)
    ensures Safe(s.(rows := s.rows[k := row], failed := failed))
  {
    var s' := s.(rows := s.rows[k := row], failed := failed);
    assert forall c, j :: 0 <= c < |s.calls| && Reached(s', c, j) ==> Reached(s, c, j);
  }

  lemma UncalledTaskReachedNobody(s: State, t: Task)
    requires Safe(s) && t in s.tasks && t.call.None? && IsSending(s, t.key)
    ensures var left := s.(tasks := s.tasks - {t});
            && !Erased(s, t) && HoldsRow(s, t)
            && Safe(left) && !HasTask(left, t.key) && forall c :: 0 <= c < |s.calls| ==> !Reached(left, c, t.key)
  {
    DropIsSafe(s, {t});
    assert forall c :: 0 <= c < |s.calls| ==> !Reached(s, c, t.key);
    assert forall c :: 0 <= c < |s.calls| && Reached(s.(tasks := s.tasks - {t}), c, t.key) ==> Reached(s, c, t.key);
  }

  lemma RateRefusedIsSafe(s: State, t: Task, now: Time)
    requires Safe(s) && t in s.tasks && t.call.None?
    ensures Safe(RateRefused(s, t, now))
  {
    if IsSending(s, t.key) {
      UncalledTaskReachedNobody(s, t);
      FreeRowIsSafe(s.(tasks := s.tasks - {t}), t.key, RateRefused(s, t, now).rows[t.key], s.failed);
    } else {
      DropIsSafe(s, {t});
    }
  }

  lemma ProceedIsSafe(s: State, t: Task, now: Time)
    requires Safe(s) && t in s.tasks && t.call.None?
    ensures Safe(Proceed(s, t, now))
  {
    var s' := Proceed(s, t, now);
    var left := s.(tasks := s.tasks - {t});
    if !IsSending(s, t.key) {
      DropIsSafe(s, {t});
    } else {
      UncalledTaskReachedNobody(s, t);
      if s.rows[t.key].request.expiresAt <= now {
        FreeRowIsSafe(left, t.key, s'.rows[t.key], s'.failed);
      } else {
        CallIsSafe(left, t);
      }
    }
  }

  /** The call leaves: the row's only one that may reach the customer. */
  lemma CallIsSafe(s: State, t: Task)
    requires Safe(s) && !HasTask(s, t.key) && t.run < s.runs && IsSending(s, t.key)
    requires !Erased(s, t) && t.row.request == s.rows[t.key].request
    requires forall c :: 0 <= c < |s.calls| ==> !Reached(s, c, t.key)
    ensures Safe(s.(tasks := s.tasks + {t.(call := Some(|s.calls|))},
                    calls := s.calls + [Call(t.key, Life(s, t.key), t.row.request, None)]))
  {
    var s' := s.(tasks := s.tasks + {t.(call := Some(|s.calls|))},
                 calls := s.calls + [Call(t.key, Life(s, t.key), t.row.request, None)]);
    forall c, k | 0 <= c < |s.calls| && Reached(s', c, k)
      ensures Reached(s, c, k)
    {
    }
    forall c | 0 <= c < |s.calls| && s.calls[c].key == t.key && s.calls[c].life == Life(s, t.key)
      ensures !MayHaveReached(s.calls[c])
    {
      assert !Reached(s, c, t.key);
    }
  }

  /** Another task's call is another call. */
  lemma OwnCall(s: State, t: Task, u: Task)
    requires TasksOk(s) && t in s.tasks && u in s.tasks && t != u && t.call.Some? && u.call.Some?
    ensures t.call.value != u.call.value
  {
  }

  lemma AnswerKeepsTasks(s: State, t: Task, result: SendResult, now: Time)
    requires Safe(s) && t in s.tasks && t.call.Some?
    ensures TasksOk(Answer(s, t, result, now))
  {
    var s' := Answer(s, t, result, now);
    forall u | u in s'.tasks ensures CallOpen(s', u) {
      if u.call.Some? { OwnCall(s, t, u); }
    }
    forall u | u in s'.tasks && u.key == t.key ensures if Erased(s', u) then RowWaits(s', u.key) else HoldsRow(s', u) {
      assert if Erased(s, u) then RowWaits(s, u.key) else HoldsRow(s, u);
    }
  }

  lemma AnswerKeepsOnce(s: State, t: Task, result: SendResult, now: Time)
    requires Safe(s) && t in s.tasks && t.call.Some?
    ensures AtMostOnce(Answer(s, t, result, now))
  {
    var s' := Answer(s, t, result, now);
    assert CallOpen(s, t);
    assert forall c :: 0 <= c < |s.calls| && MayHaveReached(s'.calls[c]) ==> MayHaveReached(s.calls[c]);
  }

  /** A refusal frees the row, any other answer ends it where it stays out of reach. */
  lemma AnswerLeavesRow(s: State, t: Task, result: SendResult, now: Time)
    requires Safe(s) && t in s.tasks && t.call.Some? && IsSending(s, t.key)
    ensures var s' := Answer(s, t, result, now);
            && t.key in s'.rows && s'.rows[t.key].request == s.rows[t.key].request
            && (DefinitelyRefused(result) || s'.rows[t.key].status.Sent? || s'.rows[t.key].status.Uncertain?)
  {
  }

  lemma AnswerKeepsCalls(s: State, t: Task, result: SendResult, now: Time)
    requires Safe(s) && t in s.tasks && t.call.Some?
    ensures CallsOk(Answer(s, t, result, now))
  {
    if IsSending(s, t.key) {
      AnswerLeavesRow(s, t, result, now);
    }
    var s' := Answer(s, t, result, now);
    assert forall c, k :: 0 <= c < |s.calls| && Reached(s', c, k) ==> Reached(s, c, k);
    assert CallOpen(s, t);
  }

  lemma AnswerIsSafe(s: State, t: Task, result: SendResult, now: Time)
    requires Safe(s) && t in s.tasks && t.call.Some?
    ensures Safe(Answer(s, t, result, now))
  {
    AnswerKeepsTasks(s, t, result, now);
    AnswerKeepsCalls(s, t, result, now);
    AnswerKeepsOnce(s, t, result, now);
  }

  lemma DeleteKeepsTasks(s: State, k: Key)
    requires TasksOk(s)
    ensures TasksOk(Delete(s, k))
    ensures forall t :: t in s.tasks ==> (Erased(Delete(s, k), t) <==> Erased(s, t) || t.key == k)
  {
    var s' := Delete(s, k);
    forall t | t in s.tasks ensures Erased(s', t) <==> Erased(s, t) || t.key == k {
      assert t.life <= Life(s, t.key);
    }
    assert forall t :: t in s.tasks && t.key != k && !Erased(s, t) ==> HoldsRow(s, t);
  }

  /** Erasure is safe at any time: a send in flight then has no row to act on. */
  lemma DeleteIsSafe(s: State, k: Key)
    requires Safe(s)
    ensures Safe(Delete(s, k))
  {
    var s' := Delete(s, k);
    DeleteKeepsTasks(s, k);
    assert forall c, j :: 0 <= c < |s.calls| && Reached(s', c, j) ==> Reached(s, c, j) && j != k;
  }

  lemma LaterRunIsSafe(s: State)
    requires Safe(s)
    ensures Safe(s.(runs := s.runs + 1))
  {
    var s' := s.(runs := s.runs + 1);
    assert forall c, k :: 0 <= c < |s.calls| && Reached(s', c, k) ==> Reached(s, c, k);
  }

  lemma EventsAreSafe(s: State, failed: map<Key, seq<FailedEvent>>)
    requires Safe(s)
    ensures Safe(s.(failed := failed))
  {
    var s' := s.(failed := failed);
    assert forall c, k :: 0 <= c < |s.calls| && Reached(s', c, k) ==> Reached(s, c, k);
  }

  lemma DroppedIsSafe(s: State, t: Task, point: ThrowPoint, now: Time)
    requires Safe(s) && Possible(s, SThrow(t, point, now))
    ensures Safe(Dropped(s, t, point, now)) && Dropped(s, t, point, now).runs == s.runs
  {
    if point.Unsettled? {
      DropIsSafe(s, {t});
    } else {
      AnswerIsSafe(s, t, point.result, now);
      EventsAreSafe(Answer(s, t, point.result, now), s.failed);
    }
  }

  lemma ThrowIsSafe(s: State, t: Task, point: ThrowPoint, now: Time)
    requires Safe(s) && Possible(s, SThrow(t, point, now))
    ensures Safe(Throw(s, t, point, now))
  {
    DroppedIsSafe(s, t, point, now);
    LaterRunIsSafe(Dropped(s, t, point, now));
  }

  lemma RequestStepIsSafe(s: State, step: Step)
    requires Safe(s) && Possible(s, step) && (step.SPut? || step.SCancel?)
    ensures Safe(Apply(s, step))
  {
    RowWritesAreSafe(s, Apply(s, step));
  }

  lemma TickStepIsSafe(s: State, step: Step)
    requires Safe(s) && Possible(s, step) && (step.SSweep? || step.SExpire? || step.SPostpone?)
    ensures Safe(Apply(s, step))
  {
    RowWritesAreSafe(s, Apply(s, step));
  }

  /** Every step keeps the promise; only a claim needs that no send is stray. */
  lemma StepIsSafe(s: State, step: Step)
    requires Safe(s) && Possible(s, step) && (step.SClaim? ==> NoStray(s))
    ensures Safe(Apply(s, step))
  {
    match step
    case SClaim(now, _, picked) => ClaimIsSafe(s, now, picked);
    case SRateRefused(t, now) => RateRefusedIsSafe(s, t, now);
    case SProceed(t, now) => ProceedIsSafe(s, t, now);
    case SAnswer(t, result, now) => AnswerIsSafe(s, t, result, now);
    case SThrow(t, point, now) => ThrowIsSafe(s, t, point, now);
    case SDie => DropIsSafe(s, s.tasks); assert s.tasks - s.tasks == {};
    case SDelete(k) => DeleteIsSafe(s, k);
    case SPut(_, _, _) => RequestStepIsSafe(s, step);
    case SCancel(_, _) => RequestStepIsSafe(s, step);
    case SSweep(_) => TickStepIsSafe(s, step);
    case SExpire(_) => TickStepIsSafe(s, step);
    case SPostpone(_, _) => TickStepIsSafe(s, step);
  }

  lemma ThrowLeavesOthers(s: State, t: Task, point: ThrowPoint, now: Time)
    requires Possible(s, SThrow(t, point, now))
    ensures var s' := Throw(s, t, point, now);
            s'.tasks == s.tasks - {t} && s'.lives == s.lives && s'.runs == if Current(s, t) then s.runs + 1 else s.runs
  {
  }

  lemma ThrowStrays(s: State, t: Task, point: ThrowPoint, now: Time)
    requires TasksOk(s) && NoStray(s) && Possible(s, SThrow(t, point, now))
    ensures NoStray(Throw(s, t, point, now)) <==> !MakesStray(s, SThrow(t, point, now))
  {
    var s' := Throw(s, t, point, now);
    ThrowLeavesOthers(s, t, point, now);
    assert forall u :: u in s'.tasks ==> (Erased(s', u) <==> Erased(s, u));
    if Current(s, t) {
      assert forall u :: u in s'.tasks ==> !Current(s', u);
      if u :| u in s.tasks && u != t && Erased(s, u) {
        assert u in s'.tasks && Stray(s', u);
      }
    } else {
      assert forall u :: u in s'.tasks ==> u in s.tasks && !Stray(s, u);
    }
  }

  lemma DeleteStrays(s: State, k: Key)
    requires TasksOk(s) && NoStray(s)
    ensures NoStray(Delete(s, k)) <==> !MakesStray(s, SDelete(k))
  {
    var s' := Delete(s, k);
    assert forall t :: t in s.tasks && t.key == k ==> Erased(s', t);
    assert forall t :: t in s.tasks && t.key != k ==> (Erased(s', t) <==> Erased(s, t));
    if t :| t in s.tasks && t.key == k && !Current(s, t) {
      assert !Stray(s, t);
      assert Stray(s', t);
    }
  }

  /** A step whose sends were all there before, in the same tick and life, makes none stray. */
  lemma NoNewStray(s: State, s': State)
    requires NoStray(s) && s'.lives == s.lives && s'.runs == s.runs
    requires forall t :: t in s'.tasks ==> exists u :: u in s.tasks && u.run == t.run && u.life == t.life && u.key == t.key
    ensures NoStray(s')
  {
  }

  lemma ClaimMakesNoStray(s: State, now: Time, picked: set<Key>)
    requires NoStray(s) && Free(s) && picked <= s.rows.Keys
    ensures NoStray(Claim(s, now, picked))
  {
    assert forall t :: t in s.tasks ==> !Erased(s, t);
  }

  /** A step leaves no stray send exactly when it does not make one. */
  lemma OnlyTheseMakeStrays(s: State, step: Step)
    requires TasksOk(s) && NoStray(s) && Possible(s, step)
    ensures NoStray(Apply(s, step)) <==> !MakesStray(s, step)
  {
    if step.SThrow? {
      ThrowStrays(s, step.t, step.point, step.now);
    } else if step.SDelete? {
      DeleteStrays(s, step.k);
    } else if step.SClaim? {
      ClaimMakesNoStray(s, step.now, step.picked);
    } else {
      NoNewStray(s, Apply(s, step));
    }
  }

  lemma SendKeepsDueIndex(s: State, t: Task, result: SendResult, now: Time)
    requires Safe(s) && DueIndexOk(s) && t in s.tasks && t.call.Some?
    ensures DueIndexOk(Answer(s, t, result, now))
  {
  }

  lemma RefusalKeepsDueIndex(s: State, t: Task, now: Time)
    requires Safe(s) && DueIndexOk(s) && t in s.tasks && t.call.None?
    ensures DueIndexOk(RateRefused(s, t, now))
  {
  }

  lemma StepKeepsDueIndex(s: State, step: Step)
    requires Safe(s) && DueIndexOk(s) && Possible(s, step)
    ensures DueIndexOk(Apply(s, step))
  {
    match step
    case SAnswer(t, result, now) => SendKeepsDueIndex(s, t, result, now);
    case SThrow(t, point, now) => if !point.Unsettled? { SendKeepsDueIndex(s, t, point.result, now); }
    case SRateRefused(t, now) => RefusalKeepsDueIndex(s, t, now);
    case _ =>
  }

  lemma PutKeepsBound(s: State, k: Key, req: Request, now: Time)
    requires BoundOk(s)
    ensures BoundOk(Put(s, k, req, now))
  {
    var s' := Put(s, k, req, now);
    if s' != s {
      assert OpenKeys(s'.rows) == OpenKeys(s.rows) + {k};
    }
  }

  /** Only a put opens a row. */
  lemma OthersOpenNone(s: State, step: Step)
    requires Possible(s, step) && !step.SPut?
    ensures OpenKeys(Apply(s, step).rows) <= OpenKeys(s.rows)
  {
  }

  lemma StepKeepsBound(s: State, step: Step)
    requires BoundOk(s) && Possible(s, step)
    ensures BoundOk(Apply(s, step))
  {
    if step.SPut? {
      PutKeepsBound(s, step.k, step.req, step.now);
    } else {
      OthersOpenNone(s, step);
      Subset(OpenKeys(Apply(s, step).rows), OpenKeys(s.rows));
    }
  }

  lemma StepKeepsInv(s: State, step: Step)
    requires Inv(s) && Possible(s, step) && !MakesStray(s, step)
    ensures Inv(Apply(s, step))
  {
    StepIsSafe(s, step);
    OnlyTheseMakeStrays(s, step);
    StepKeepsDueIndex(s, step);
    StepKeepsBound(s, step);
  }

  lemma {:induction false} RunKeepsInv(s: State, steps: seq<Step>)
    requires Inv(s) && Run(s, steps) && Clean(s, steps)
    ensures Inv(After(s, steps))
    decreases |steps|
  {
    if steps != [] {
      StepKeepsInv(s, steps[0]);
      RunKeepsInv(Apply(s, steps[0]), steps[1..]);
    }
  }

  /** Without a throw every send in flight is of the tick in progress. */
  predicate OneTick(s: State) { forall t :: t in s.tasks ==> Current(s, t) }

  lemma {:induction false} WithoutThrowsNothingStrays(s: State, steps: seq<Step>)
    requires OneTick(s) && Run(s, steps) && forall i :: 0 <= i < |steps| ==> !steps[i].SThrow?
    ensures Clean(s, steps) && OneTick(After(s, steps))
    decreases |steps|
  {
    if steps != [] {
      assert OneTick(Apply(s, steps[0]));
      assert forall i :: 0 <= i < |steps| - 1 ==> steps[1..][i] == steps[i + 1];
      WithoutThrowsNothingStrays(Apply(s, steps[0]), steps[1..]);
    }
  }

  /** Main result: in every run in which no send throws, whatever erasures (mid-send or not), cancels,
      replaced requests, rate refusals, sweeps and deaths cut in, each row has at most one call that may
      have reached the customer; every other call got a definite refusal. A row is sent, with that message
      id, exactly when Meta accepted a call for it with that id. The due index never hides an expired row, and the table never holds more
      open rows than its bound. */
  lemma ScheduledSendsAreAtMostOnce(steps: seq<Step>)
    requires Run(Empty, steps) && forall i :: 0 <= i < |steps| ==> !steps[i].SThrow?
    ensures AtMostOnce(After(Empty, steps)) && CallsOk(After(Empty, steps))
    ensures SentExactly(After(Empty, steps))
    ensures DueIndexOk(After(Empty, steps))
    ensures BoundOk(After(Empty, steps))
  {
    WithoutThrowsNothingStrays(Empty, steps);
    ThrowsKeepAtMostOnce(steps);
    assert OpenKeys(Empty.rows) == {};
    WithoutThrowsNoneIsLate(Empty, steps);
    SentExactlyWhenAccepted(steps);
    AlwaysMeansAtTheEnd(Empty, steps);
  }

  /** With throws at-most-once and the bounds hold, and a sent row has an accepted call, in every run in which none leaves the send of an erased row behind, and no
      row is erased whose send an earlier throw left behind. */
  lemma ThrowsKeepAtMostOnce(steps: seq<Step>)
    requires Run(Empty, steps) && Clean(Empty, steps)
    ensures AtMostOnce(After(Empty, steps)) && CallsOk(After(Empty, steps))
    ensures SentOk(After(Empty, steps))
    ensures DueIndexOk(After(Empty, steps))
    ensures BoundOk(After(Empty, steps))
  {
    assert OpenKeys(Empty.rows) == {};
    RunKeepsInv(Empty, steps);
    SentMeansAccepted(Empty, steps);
  }

  /** After the expiry pass no pending row is past its expiry, although the pass only looks at due rows. */
  lemma ExpiryPassMissesNothing(s: State, now: Time, k: Key)
    requires DueIndexOk(s)
    ensures var s' := ExpireDue(s, now);
            k in s'.rows && s'.rows[k].status.Pending? ==> s'.rows[k].request.expiresAt > now
  {
  }

  /** A row names a message exactly when it is `sent`, and then Meta accepted a call for it with that id. */
  ghost predicate SentOk(s: State) {
    forall k :: k in s.rows ==>
      && (s.rows[k].messageId.Some? <==> s.rows[k].status.Sent?)
      && (s.rows[k].status.Sent? ==> AcceptedAs(s, k, s.rows[k].messageId.value))
  }

  ghost predicate AcceptedAs(s: State, k: Key, id: string) {
    exists c: nat | c < |s.calls| :: Reached(s, c, k) && s.calls[c].answer == Some(Accepted(id))
  }

  /** Answers are never lost or rewritten, and a row that is sent stays as it is. */
  ghost predicate KeepsAnswers(s: State, s': State) {
    && |s.calls| <= |s'.calls|
    && (forall c :: 0 <= c < |s.calls| && s.calls[c].answer.Some? ==> s'.calls[c] == s.calls[c])
  }

  lemma StepKeepsAnswers(s: State, step: Step)
    requires Safe(s) && Possible(s, step)
    ensures KeepsAnswers(s, Apply(s, step))
  {
  }

  ghost predicate IdsOk(rows: map<Key, Row>) {
    forall j :: j in rows ==> (rows[j].messageId.Some? <==> rows[j].status.Sent?)
  }

  lemma SettledIsSentWhenAccepted(row: Row, t: Task, result: SendResult, now: Time)
    requires row.messageId.None?
    ensures var after := Settled(row, t, result, now);
            && (after.messageId.Some? <==> after.status.Sent?)
            && (after.status.Sent? ==> result == Accepted(after.messageId.value))
  {
  }

  /** Only Meta's acceptance makes a row sent, and it gives the row its message id. */
  lemma OnlyAcceptanceSends(s: State, t: Task, result: SendResult, now: Time, k: Key)
    requires IdsOk(s.rows) && t.call.Some? && t.call.value < |s.calls|
    requires k in Answer(s, t, result, now).rows
    ensures var row := Answer(s, t, result, now).rows[k];
            && (row.messageId.Some? <==> row.status.Sent?)
            && (row.status.Sent? ==>
                  || (k in s.rows && s.rows[k].status.Sent? && s.rows[k].messageId == row.messageId)
                  || (t.key == k && IsSending(s, k) && result == Accepted(row.messageId.value)))
  {
    if t.key == k && IsSending(s, k) {
      SettledIsSentWhenAccepted(s.rows[k], t, result, now);
    }
  }

  /** The answer a step brings. */
  function AnsweredBy(step: Step): Option<SendResult> {
    match step
    case SAnswer(_, result, _) => Some(result)
    case SThrow(_, point, _) => if point.Unsettled? then None else Some(point.result)
    case _ => None
  }

  /** The row was sent before, with the same message, or is not sent. */
  predicate NotNewlySent(s: State, s': State, k: Key)
    requires k in s'.rows
  {
    var row := s'.rows[k];
    && (row.messageId.Some? <==> row.status.Sent?)
    && (row.status.Sent? ==>
          k in s.rows && s.rows[k].status.Sent? && s.rows[k].messageId == row.messageId && Life(s', k) == Life(s, k))
  }

  lemma RequestsNeverSend(s: State, step: Step, k: Key)
    requires IdsOk(s.rows) && Possible(s, step) && k in Apply(s, step).rows
    requires step.SPut? || step.SCancel? || step.SDelete?
    ensures NotNewlySent(s, Apply(s, step), k)
  {
  }

  lemma TicksNeverSend(s: State, step: Step, k: Key)
    requires IdsOk(s.rows) && Possible(s, step) && k in Apply(s, step).rows
    requires step.SSweep? || step.SExpire? || step.SPostpone? || step.SClaim?
    ensures NotNewlySent(s, Apply(s, step), k)
  {
  }

  /** No other step makes a row sent, or touches one that is. */
  lemma OthersNeverSend(s: State, step: Step, k: Key)
    requires IdsOk(s.rows) && Possible(s, step) && AnsweredBy(step).None? && k in Apply(s, step).rows
    ensures NotNewlySent(s, Apply(s, step), k)
  {
    if step.SPut? || step.SCancel? || step.SDelete? {
      RequestsNeverSend(s, step, k);
    } else if step.SSweep? || step.SExpire? || step.SPostpone? || step.SClaim? {
      TicksNeverSend(s, step, k);
    }
  }

  /** A settle writes the same rows and calls whether its send goes on or throws. */
  lemma SettlesAlike(s: State, step: Step, result: SendResult)
    requires Possible(s, step) && AnsweredBy(step) == Some(result)
    ensures step.t in s.tasks && step.t.call.Some? && step.t.call.value < |s.calls|
    ensures var s', answered := Apply(s, step), Answer(s, step.t, result, step.now);
            s'.rows == answered.rows && s'.calls == answered.calls && s'.lives == s.lives && answered.lives == s.lives
  {
  }

  lemma SettleKeepsSent(s: State, t: Task, result: SendResult, now: Time, k: Key)
    requires Safe(s) && SentOk(s) && t in s.tasks && t.call.Some? && t.call.value < |s.calls| && k in Answer(s, t, result, now).rows
    ensures var s' := Answer(s, t, result, now);
            && (s'.rows[k].messageId.Some? <==> s'.rows[k].status.Sent?)
            && (s'.rows[k].status.Sent? ==> AcceptedAs(s', k, s'.rows[k].messageId.value))
  {
    var s' := Answer(s, t, result, now);
    OnlyAcceptanceSends(s, t, result, now, k);
    if s'.rows[k].status.Sent? {
      var id := s'.rows[k].messageId.value;
      if result == Accepted(id) && t.key == k && IsSending(s, k) {
        AnswerAccepted(s, t, id, now);
      } else {
        assert CallOpen(s, t);
        AcceptedStays(s, s', k, id);
      }
    }
  }

  lemma AnsweredRowKeepsSent(s: State, step: Step, result: SendResult, k: Key)
    requires Safe(s) && SentOk(s) && Possible(s, step) && k in Apply(s, step).rows
    requires AnsweredBy(step) == Some(result)
    ensures var s' := Apply(s, step);
            && (s'.rows[k].messageId.Some? <==> s'.rows[k].status.Sent?)
            && (s'.rows[k].status.Sent? ==> AcceptedAs(s', k, s'.rows[k].messageId.value))
  {
    var s' := Apply(s, step);
    SettlesAlike(s, step, result);
    SettleKeepsSent(s, step.t, result, step.now, k);
    if s'.rows[k].status.Sent? {
      SameCallsAccepted(Answer(s, step.t, result, step.now), s', k, s'.rows[k].messageId.value);
    }
  }

  lemma RowKeepsSent(s: State, step: Step, k: Key)
    requires Safe(s) && SentOk(s) && Possible(s, step) && KeepsAnswers(s, Apply(s, step)) && k in Apply(s, step).rows
    ensures var s' := Apply(s, step);
            && (s'.rows[k].messageId.Some? <==> s'.rows[k].status.Sent?)
            && (s'.rows[k].status.Sent? ==> AcceptedAs(s', k, s'.rows[k].messageId.value))
  {
    if AnsweredBy(step).Some? {
      AnsweredRowKeepsSent(s, step, AnsweredBy(step).value, k);
    } else {
      OthersNeverSend(s, step, k);
      if Apply(s, step).rows[k].status.Sent? {
        AcceptedStays(s, Apply(s, step), k, Apply(s, step).rows[k].messageId.value);
      }
    }
  }

  lemma StepKeepsSent(s: State, step: Step)
    requires Safe(s) && SentOk(s) && Possible(s, step)
    ensures SentOk(Apply(s, step))
  {
    StepKeepsAnswers(s, step);
    forall k | k in Apply(s, step).rows
      ensures var s' := Apply(s, step);
              && (s'.rows[k].messageId.Some? <==> s'.rows[k].status.Sent?)
              && (s'.rows[k].status.Sent? ==> AcceptedAs(s', k, s'.rows[k].messageId.value))
    {
      RowKeepsSent(s, step, k);
    }
  }

  lemma AnswerAccepted(s: State, t: Task, id: string, now: Time)
    requires Safe(s) && t in s.tasks && t.call.Some? && IsSending(s, t.key)
    ensures AcceptedAs(Answer(s, t, Accepted(id), now), t.key, id)
  {
    var s' := Answer(s, t, Accepted(id), now);
    assert CallOpen(s, t) && !Erased(s, t);
    assert Reached(s', t.call.value, t.key) && s'.calls[t.call.value].answer == Some(Accepted(id));
  }

  lemma SameCallsAccepted(s: State, s': State, k: Key, id: string)
    requires AcceptedAs(s, k, id) && s'.calls == s.calls && s'.lives == s.lives
    ensures AcceptedAs(s', k, id)
  {
    var c: nat :| c < |s.calls| && Reached(s, c, k) && s.calls[c].answer == Some(Accepted(id));
    assert Reached(s', c, k);
  }

  lemma AcceptedStays(s: State, s': State, k: Key, id: string)
    requires AcceptedAs(s, k, id) && KeepsAnswers(s, s') && Life(s', k) == Life(s, k)
    ensures AcceptedAs(s', k, id)
  {
    var c: nat :| c < |s.calls| && Reached(s, c, k) && s.calls[c].answer == Some(Accepted(id));
    assert Reached(s', c, k) && s'.calls[c] == s.calls[c];
  }

  lemma {:induction false} SentMeansAccepted(s: State, steps: seq<Step>)
    requires Inv(s) && SentOk(s) && Run(s, steps) && Clean(s, steps)
    ensures SentOk(After(s, steps))
    decreases |steps|
  {
    if steps != [] {
      StepKeepsInv(s, steps[0]);
      StepKeepsSent(s, steps[0]);
      SentMeansAccepted(Apply(s, steps[0]), steps[1..]);
    }
  }

  // ---- Accepted means sent ------------------------------------------------------------------

  /** A row whose call Meta accepted is sent, with that message id. */
  ghost predicate AcceptedIsSent(s: State) {
    forall k, id :: AcceptedAs(s, k, id) ==> k in s.rows && s.rows[k].status.Sent? && s.rows[k].messageId == Some(id)
  }

  /** A row is sent, with a message id, exactly when Meta accepted a call for it with that id. */
  ghost predicate SentExactly(s: State) { SentOk(s) && AcceptedIsSent(s) }

  /** A send that outlived its tick is accepted after a sweep ended its row as unknown. */
  predicate AcceptedLate(s: State, step: Step)
    requires Possible(s, step)
  {
    && AnsweredBy(step).Some? && AnsweredBy(step).value.Accepted?
    && !Current(s, step.t) && !Erased(s, step.t) && step.t.key in s.rows && s.rows[step.t.key].status.Uncertain?
  }

  /** A sweep runs between ticks, so the rows of the tick in progress are still `sending`. */
  ghost predicate TickHoldsRows(s: State) {
    forall t :: t in s.tasks && Current(s, t) && !Erased(s, t) ==> IsSending(s, t.key)
  }

  lemma OneSendEach(s: State, t: Task, u: Task)
    requires TasksOk(s) && t in s.tasks && u in s.tasks
    ensures t.key == u.key && !Erased(s, t) && !Erased(s, u) ==> t == u
  {
  }

  /** One send ended: the tick's others are on rows of their own. */
  lemma EndKeepsHeld(s: State, t: Task, s': State)
    requires TasksOk(s) && TickHoldsRows(s) && t in s.tasks && s'.lives == s.lives
    requires s'.tasks == s.tasks - {t} && s.runs <= s'.runs <= s.runs + 1
    requires IsSending(s, t.key) || s'.rows == s.rows
    requires forall k :: k != t.key && IsSending(s, k) ==> IsSending(s', k)
    ensures TickHoldsRows(s')
  {
    forall u | u in s'.tasks && Current(s', u) && !Erased(s', u) ensures IsSending(s', u.key) {
      assert u.run < s.runs && !Erased(s, u) && HoldsRow(s, u);
      assert IsSending(s, t.key) && Erased(s, t) ==> !RowWaits(s, t.key);
      OneSendEach(s, t, u);
    }
  }

  lemma ProceedKeepsHeld(s: State, t: Task, now: Time)
    requires TasksOk(s) && TickHoldsRows(s) && t in s.tasks && t.call.None?
    ensures TickHoldsRows(Proceed(s, t, now))
  {
    var s' := Proceed(s, t, now);
    forall u | u in s'.tasks && Current(s', u) && !Erased(s', u) ensures IsSending(s', u.key) {
      if u in s.tasks {
        assert Current(s, u) && HoldsRow(s, u);
        assert IsSending(s, t.key) && Erased(s, t) ==> !RowWaits(s, t.key);
        OneSendEach(s, t, u);
      }
    }
  }

  /** No tick is in progress, so nothing has to be held. */
  lemma FreeKeepsHeld(s: State, s': State)
    requires Free(s) && s'.tasks == s.tasks && s'.runs == s.runs
    ensures TickHoldsRows(s')
  {
  }

  lemma ClaimKeepsHeld(s: State, now: Time, picked: set<Key>)
    requires TasksOk(s) && picked <= s.rows.Keys
    ensures TickHoldsRows(Claim(s, now, picked))
  {
    forall t | t in s.tasks ensures t.run < s.runs {
    }
  }

  lemma RefusedKeepsHeld(s: State, t: Task, now: Time)
    requires TasksOk(s) && TickHoldsRows(s) && t in s.tasks && t.call.None?
    ensures TickHoldsRows(RateRefused(s, t, now))
  {
    EndKeepsHeld(s, t, RateRefused(s, t, now));
  }

  lemma AnswerKeepsHeld(s: State, t: Task, result: SendResult, now: Time)
    requires TasksOk(s) && TickHoldsRows(s) && t in s.tasks && t.call.Some? && t.call.value < |s.calls|
    ensures TickHoldsRows(Answer(s, t, result, now))
  {
    EndKeepsHeld(s, t, Answer(s, t, result, now));
  }

  lemma ThrowKeepsHeld(s: State, t: Task, point: ThrowPoint, now: Time)
    requires TasksOk(s) && TickHoldsRows(s) && Possible(s, SThrow(t, point, now))
    ensures TickHoldsRows(Throw(s, t, point, now))
  {
    EndKeepsHeld(s, t, Throw(s, t, point, now));
  }

  lemma RequestKeepsHeld(s: State, step: Step)
    requires TickHoldsRows(s) && Possible(s, step) && (step.SPut? || step.SCancel?)
    ensures TickHoldsRows(Apply(s, step))
  {
    var s' := Apply(s, step);
    assert s'.tasks == s.tasks && s'.lives == s.lives && s'.runs == s.runs;
    assert forall k :: IsSending(s, k) ==> IsSending(s', k);
  }

  lemma DeleteKeepsHeld(s: State, k: Key)
    requires TasksOk(s) && TickHoldsRows(s)
    ensures TickHoldsRows(Delete(s, k))
  {
    DeleteKeepsTasks(s, k);
  }

  lemma StepKeepsHeld(s: State, step: Step)
    requires Safe(s) && TickHoldsRows(s) && Possible(s, step)
    ensures TickHoldsRows(Apply(s, step))
  {
    match step
    case SPut(_, _, _) => RequestKeepsHeld(s, step);
    case SCancel(_, _) => RequestKeepsHeld(s, step);
    case SSweep(_) => FreeKeepsHeld(s, Apply(s, step));
    case SExpire(_) => FreeKeepsHeld(s, Apply(s, step));
    case SPostpone(_, _) => FreeKeepsHeld(s, Apply(s, step));
    case SClaim(now, _, picked) => ClaimKeepsHeld(s, now, picked);
    case SRateRefused(t, now) => RefusedKeepsHeld(s, t, now);
    case SProceed(t, now) => ProceedKeepsHeld(s, t, now);
    case SAnswer(t, result, now) => AnswerKeepsHeld(s, t, result, now);
    case SThrow(t, point, now) => ThrowKeepsHeld(s, t, point, now);
    case SDie =>
    case SDelete(k) => DeleteKeepsHeld(s, k);
  }

  /** A settle answers its own call and no other. */
  lemma SettleAnswersItsCall(s: State, step: Step, c: nat)
    requires Safe(s) && Possible(s, step) && AnsweredBy(step).Some? && c < |Apply(s, step).calls|
    ensures Apply(s, step).lives == s.lives && |Apply(s, step).calls| == |s.calls|
    ensures step.t.call != Some(c) ==> Apply(s, step).calls[c] == s.calls[c]
    ensures step.t.call == Some(c) ==>
              Apply(s, step).calls[c] == s.calls[c].(answer := AnsweredBy(step)) && step.t.key == s.calls[c].key && step.t.life == s.calls[c].life
  {
    SettlesAlike(s, step, AnsweredBy(step).value);
    assert CallOpen(s, step.t);
  }

  /** No other step answers a call. */
  lemma OthersAnswerNothing(s: State, step: Step, c: nat)
    requires Possible(s, step) && AnsweredBy(step).None? && c < |Apply(s, step).calls| && Apply(s, step).calls[c].answer.Some?
    ensures c < |s.calls| && Apply(s, step).calls[c] == s.calls[c]
  {
  }

  lemma OthersMoveLives(s: State, step: Step, k: Key)
    requires Possible(s, step) && AnsweredBy(step).None?
    ensures Life(Apply(s, step), k) == Life(s, k) || (step == SDelete(k) && Life(Apply(s, step), k) == Life(s, k) + 1)
  {
  }

  /** A step that brings no acceptance makes no call an accepted one. */
  lemma NoNewAcceptance(s: State, step: Step, k: Key, id: string)
    requires Safe(s) && Possible(s, step) && AcceptedAs(Apply(s, step), k, id)
    requires AnsweredBy(step) != Some(Accepted(id)) || step.t.key != k || Erased(s, step.t)
    ensures AcceptedAs(s, k, id) && Life(Apply(s, step), k) == Life(s, k)
  {
    var s' := Apply(s, step);
    var c: nat :| c < |s'.calls| && Reached(s', c, k) && s'.calls[c].answer == Some(Accepted(id));
    if AnsweredBy(step).Some? {
      SettleAnswersItsCall(s, step, c);
    } else {
      OthersAnswerNothing(s, step, c);
      OthersMoveLives(s, step, k);
      assert s.calls[c].life <= Life(s, s.calls[c].key);
    }
    assert Reached(s, c, k);
  }

  /** A row that is sent stays so, with its message. */
  predicate StaysSent(s: State, s': State, k: Key) {
    k in s.rows && s.rows[k].status.Sent? ==>
      k in s'.rows && s'.rows[k].status.Sent? && s'.rows[k].messageId == s.rows[k].messageId
  }

  lemma RequestsKeepSent(s: State, step: Step, k: Key)
    requires Possible(s, step) && (step.SPut? || step.SCancel?)
    ensures StaysSent(s, Apply(s, step), k)
  {
  }

  lemma TicksKeepSent(s: State, step: Step, k: Key)
    requires Possible(s, step) && (step.SSweep? || step.SExpire? || step.SPostpone? || step.SClaim?)
    ensures StaysSent(s, Apply(s, step), k)
  {
  }

  lemma SettlesKeepSent(s: State, step: Step, k: Key)
    requires Possible(s, step) && AnsweredBy(step).Some?
    ensures StaysSent(s, Apply(s, step), k)
  {
    SettlesAlike(s, step, AnsweredBy(step).value);
  }

  /** A sent row stays as it is, while it is there. */
  lemma SentRowStays(s: State, step: Step, k: Key)
    requires Possible(s, step) && Life(Apply(s, step), k) == Life(s, k)
    ensures StaysSent(s, Apply(s, step), k)
  {
    if step.SPut? || step.SCancel? {
      RequestsKeepSent(s, step, k);
    } else if step.SSweep? || step.SExpire? || step.SPostpone? || step.SClaim? {
      TicksKeepSent(s, step, k);
    } else if AnsweredBy(step).Some? {
      SettlesKeepSent(s, step, k);
    }
  }

  /** One step keeps "sent exactly when accepted" exactly when it is no late acceptance. */
  lemma StepKeepsSentExactly(s: State, step: Step)
    requires Inv(s) && TickHoldsRows(s) && SentExactly(s) && Possible(s, step)
    ensures SentExactly(Apply(s, step)) <==> !AcceptedLate(s, step)
  {
    var s' := Apply(s, step);
    StepKeepsSent(s, step);
    if AcceptedLate(s, step) {
      LateAcceptanceIsLost(s, step, AnsweredBy(step).value.id);
    } else {
      forall k, id | AcceptedAs(s', k, id)
        ensures k in s'.rows && s'.rows[k].status.Sent? && s'.rows[k].messageId == Some(id)
      {
        if AnsweredBy(step) == Some(Accepted(id)) && step.t.key == k && !Erased(s, step.t) {
          TimelyAcceptanceSends(s, step, id);
        } else {
          NoNewAcceptance(s, step, k, id);
          SentRowStays(s, step, k);
        }
      }
    }
  }

  lemma LateAcceptanceIsLost(s: State, step: Step, id: string)
    requires Safe(s) && Possible(s, step) && AcceptedLate(s, step) && AnsweredBy(step).value.id == id
    ensures !AcceptedIsSent(Apply(s, step))
  {
    var s', k := Apply(s, step), step.t.key;
    SettlesAlike(s, step, Accepted(id));
    assert CallOpen(s, step.t);
    assert Reached(s', step.t.call.value, k) && s'.calls[step.t.call.value].answer == Some(Accepted(id));
    assert AcceptedAs(s', k, id) && !s'.rows[k].status.Sent?;
  }

  lemma TimelyAcceptanceSends(s: State, step: Step, id: string)
    requires Safe(s) && TickHoldsRows(s) && Possible(s, step) && !AcceptedLate(s, step)
    requires AnsweredBy(step) == Some(Accepted(id)) && !Erased(s, step.t)
    ensures var s', k := Apply(s, step), step.t.key;
            k in s'.rows && s'.rows[k].status.Sent? && s'.rows[k].messageId == Some(id)
  {
    SettlesAlike(s, step, Accepted(id));
    assert HoldsRow(s, step.t);
    assert IsSending(s, step.t.key);
  }

  ghost predicate AlwaysSentExactly(s: State, steps: seq<Step>)
    requires Run(s, steps)
    decreases |steps|
  {
    SentExactly(s) && (steps != [] ==> AlwaysSentExactly(Apply(s, steps[0]), steps[1..]))
  }

  predicate NoneAcceptedLate(s: State, steps: seq<Step>)
    requires Run(s, steps)
    decreases |steps|
  {
    steps != [] ==> !AcceptedLate(s, steps[0]) && NoneAcceptedLate(Apply(s, steps[0]), steps[1..])
  }

  lemma {:induction false} SentHoldsExactly(s: State, steps: seq<Step>)
    requires Inv(s) && TickHoldsRows(s) && SentExactly(s) && Run(s, steps) && Clean(s, steps)
    ensures AlwaysSentExactly(s, steps) <==> NoneAcceptedLate(s, steps)
    decreases |steps|
  {
    if steps != [] {
      StepKeepsInv(s, steps[0]);
      StepKeepsHeld(s, steps[0]);
      StepKeepsSentExactly(s, steps[0]);
      if AcceptedLate(s, steps[0]) {
        assert !AlwaysSentExactly(Apply(s, steps[0]), steps[1..]);
      } else {
        SentHoldsExactly(Apply(s, steps[0]), steps[1..]);
      }
    }
  }

  /** Main result: throughout a run a row is sent, with a message id, exactly when Meta accepted a call for it
      with that id, if and only if no send that outlived its tick is accepted after a sweep ended its row. */
  lemma SentExactlyWhenAccepted(steps: seq<Step>)
    requires Run(Empty, steps) && Clean(Empty, steps)
    ensures AlwaysSentExactly(Empty, steps) <==> NoneAcceptedLate(Empty, steps)
  {
    assert OpenKeys(Empty.rows) == {};
    SentHoldsExactly(Empty, steps);
  }

  lemma {:induction false} AlwaysMeansAtTheEnd(s: State, steps: seq<Step>)
    requires Run(s, steps) && AlwaysSentExactly(s, steps)
    ensures SentExactly(After(s, steps))
    decreases |steps|
  {
    if steps != [] {
      AlwaysMeansAtTheEnd(Apply(s, steps[0]), steps[1..]);
    }
  }

  /** Without a throw no send outlives its tick. */
  lemma {:induction false} WithoutThrowsNoneIsLate(s: State, steps: seq<Step>)
    requires OneTick(s) && Run(s, steps) && forall i :: 0 <= i < |steps| ==> !steps[i].SThrow?
    ensures NoneAcceptedLate(s, steps)
    decreases |steps|
  {
    if steps != [] {
      assert OneTick(Apply(s, steps[0]));
      assert forall i :: 0 <= i < |steps| - 1 ==> steps[1..][i] == steps[i + 1];
      WithoutThrowsNoneIsLate(Apply(s, steps[0]), steps[1..]);
    }
  }

  // ---- What a stray send can do -------------------------------------------------------------

  lemma {:induction false} RunsJoin(s: State, a: seq<Step>, b: seq<Step>)
    requires Run(s, a) && Run(After(s, a), b) && Clean(s, a) && Clean(After(s, a), b)
    ensures Run(s, a + b) && Clean(s, a + b) && After(s, a + b) == After(After(s, a), b)
    decreases |a|
  {
    if a == [] {
      assert a + b == b;
    } else {
      RunsJoin(Apply(s, a[0]), a[1..], b);
      assert (a + b)[1..] == a[1..] + b;
    }
  }

  lemma OneStep(s: State, a: Step)
    requires Possible(s, a) && !MakesStray(s, a)
    ensures Run(s, [a]) && Clean(s, [a]) && After(s, [a]) == Apply(s, a)
  {
    assert [a][1..] == [];
    assert Run(Apply(s, a), []) && Clean(Apply(s, a), []);
    assert After(s, [a]) == After(Apply(s, a), []);
  }

  lemma TwoSteps(s: State, a: Step, b: Step)
    requires Possible(s, a) && !MakesStray(s, a)
    requires Possible(Apply(s, a), b) && !MakesStray(Apply(s, a), b)
    ensures Run(s, [a, b]) && Clean(s, [a, b]) && After(s, [a, b]) == Apply(Apply(s, a), b)
  {
    OneStep(s, a);
    OneStep(Apply(s, a), b);
    RunsJoin(s, [a], [b]);
    assert [a] + [b] == [a, b];
  }

  /** A state that a stray send of `k` can be acted out from. */
  ghost predicate Ready(s: State, t: Task, k: Key) {
    Safe(s) && BoundOk(s) && t in s.tasks && t.key == k && Stray(s, t)
  }

  /** The end of one send of a tick: not sent, whichever way. */
  function EndStep(w: Task, now: Time): Step {
    if w.call.None? then SRateRefused(w, now) else SAnswer(w, NotOk(400, None), now)
  }

  lemma EndOne(s: State, w: Task, now: Time)
    requires Safe(s) && BoundOk(s) && w in s.tasks
    ensures Possible(s, EndStep(w, now)) && !MakesStray(s, EndStep(w, now))
    ensures var s' := Apply(s, EndStep(w, now));
            Safe(s') && BoundOk(s') && s'.tasks == s.tasks - {w} && s'.lives == s.lives && s'.runs == s.runs
  {
    assert CallOpen(s, w);
    StepIsSafe(s, EndStep(w, now));
    StepKeepsBound(s, EndStep(w, now));
  }

  function CurrentTasks(s: State): set<Task> { set t | t in s.tasks && Current(s, t) }

  lemma EndOneOfTick(s: State, t: Task, k: Key, w: Task, now: Time)
    requires Ready(s, t, k) && w in CurrentTasks(s)
    ensures Possible(s, EndStep(w, now)) && !MakesStray(s, EndStep(w, now))
    ensures Ready(Apply(s, EndStep(w, now)), t, k) && CurrentTasks(Apply(s, EndStep(w, now))) == CurrentTasks(s) - {w}
  {
    EndOne(s, w, now);
  }

  predicate NoClaims(steps: seq<Step>) { forall i :: 0 <= i < |steps| ==> !steps[i].SClaim? }

  lemma {:induction false} NoClaimsKeepPace(a: seq<Step>, b: seq<Step>, tickAt: Time, tickMs: nat)
    requires NoClaims(a)
    ensures Paced(a + b, tickAt, tickMs) <==> Paced(b, tickAt, tickMs)
    decreases |a|
  {
    if a == [] {
      assert a + b == b;
    } else {
      assert (a + b)[1..] == a[1..] + b;
      NoClaimsKeepPace(a[1..], b, tickAt, tickMs);
    }
  }

  lemma NoClaimsArePaced(a: seq<Step>, tickAt: Time, tickMs: nat)
    requires NoClaims(a)
    ensures Paced(a, tickAt, tickMs)
  {
    NoClaimsKeepPace(a, [], tickAt, tickMs);
    assert a + [] == a;
  }

  /** One claim, at `now`. */
  ghost predicate OneClaimAt(steps: seq<Step>, now: Time) {
    forall more, tickMs: nat :: Paced(more, now + tickMs, tickMs) ==> Paced(steps + more, now, tickMs)
  }

  /** The tick in progress can end with the stray send still in flight. */
  lemma {:induction false} TickEnds(s: State, t: Task, k: Key, now: Time) returns (steps: seq<Step>)
    requires Ready(s, t, k)
    ensures Run(s, steps) && Clean(s, steps) && Ready(After(s, steps), t, k) && Free(After(s, steps))
    ensures NoClaims(steps)
    decreases |CurrentTasks(s)|
  {
    if CurrentTasks(s) == {} {
      steps := [];
      assert forall u :: u in s.tasks && Current(s, u) ==> u in CurrentTasks(s);
    } else {
      var w :| w in CurrentTasks(s);
      EndOneOfTick(s, t, k, w, now);
      var s' := Apply(s, EndStep(w, now));
      var rest := TickEnds(s', t, k, now);
      OneStep(s, EndStep(w, now));
      RunsJoin(s, [EndStep(w, now)], rest);
      steps := [EndStep(w, now)] + rest;
    }
  }

  predicate HasRoom(s: State, k: Key) { |OpenKeys(s.rows)| < MAX_PENDING_SCHEDULED || k in OpenKeys(s.rows) }

  lemma OneOpenLess(s: State, s': State, j: Key)
    requires BoundOk(s) && j in OpenKeys(s.rows) && OpenKeys(s'.rows) == OpenKeys(s.rows) - {j}
    ensures |OpenKeys(s'.rows)| < MAX_PENDING_SCHEDULED
  {
  }

  lemma CancelMakesRoom(s: State, t: Task, k: Key, j: Key, now: Time) returns (steps: seq<Step>)
    requires Ready(s, t, k) && Free(s) && j != k && j in s.rows && s.rows[j].status.Pending?
    ensures Run(s, steps) && Clean(s, steps) && NoClaims(steps)
    ensures var s' := After(s, steps); Ready(s', t, k) && Free(s') && HasRoom(s', k)
  {
    steps := [SCancel(j, now)];
    OneStep(s, SCancel(j, now));
    StepIsSafe(s, SCancel(j, now));
    StepKeepsBound(s, SCancel(j, now));
    assert OpenKeys(Cancel(s, j, now).rows) == OpenKeys(s.rows) - {j};
    OneOpenLess(s, Cancel(s, j, now), j);
  }

  lemma DeleteMakesRoom(s: State, t: Task, k: Key, j: Key) returns (steps: seq<Step>)
    requires Ready(s, t, k) && Free(s) && j != k && j in OpenKeys(s.rows) && forall w :: w in s.tasks ==> w.key != j
    ensures Run(s, steps) && Clean(s, steps) && NoClaims(steps)
    ensures var s' := After(s, steps); Ready(s', t, k) && Free(s') && HasRoom(s', k)
  {
    steps := [SDelete(j)];
    OneStep(s, SDelete(j));
    StepIsSafe(s, SDelete(j));
    StepKeepsBound(s, SDelete(j));
    assert OpenKeys(Delete(s, j).rows) == OpenKeys(s.rows) - {j};
    OneOpenLess(s, Delete(s, j), j);
  }

  lemma EndMakesRoom(s: State, t: Task, k: Key, w: Task, now: Time) returns (steps: seq<Step>)
    requires Ready(s, t, k) && Free(s) && w in s.tasks && w.key != k && w.key in OpenKeys(s.rows) && s.rows[w.key].status.Sending?
    ensures Run(s, steps) && Clean(s, steps) && NoClaims(steps)
    ensures var s' := After(s, steps); Ready(s', t, k) && Free(s') && HasRoom(s', k)
  {
    var j := w.key;
    EndOne(s, w, now);
    OneStep(s, EndStep(w, now));
    var s1 := Apply(s, EndStep(w, now));
    if s1.rows[j].status.Pending? {
      var more := CancelMakesRoom(s1, t, k, j, now);
      RunsJoin(s, [EndStep(w, now)], more);
      steps := [EndStep(w, now)] + more;
    } else {
      steps := [EndStep(w, now)];
      assert OpenKeys(s1.rows) == OpenKeys(s.rows) - {j};
      OneOpenLess(s, s1, j);
    }
  }

  /** A full table can always lose an open row that is not in the way. */
  lemma MakeRoom(s: State, t: Task, k: Key, now: Time) returns (steps: seq<Step>)
    requires Ready(s, t, k) && Free(s)
    ensures Run(s, steps) && Clean(s, steps) && NoClaims(steps)
    ensures var s' := After(s, steps); Ready(s', t, k) && Free(s') && HasRoom(s', k)
  {
    if HasRoom(s, k) {
      steps := [];
    } else {
      assert OpenKeys(s.rows) != {};
      var j :| j in OpenKeys(s.rows);
      if s.rows[j].status.Pending? {
        steps := CancelMakesRoom(s, t, k, j, now);
      } else if w :| w in s.tasks && w.key == j {
        steps := EndMakesRoom(s, t, k, w, now);
      } else {
        steps := DeleteMakesRoom(s, t, k, j);
      }
    }
  }

  function Again(now: Time): Request { Request("", "", "", None, now, now + DEFAULT_EXPIRY_MS) }

  ghost predicate WaitsFor(s: State, t: Task, k: Key, now: Time) {
    t in s.tasks && t.key == k && t.call.None? && IsSending(s, k) && s.rows[k].request.expiresAt > now
  }

  lemma PutThenClaim(put: Step, claim: Step)
    requires put.SPut? && claim.SClaim?
    ensures OneClaimAt([put, claim], claim.now)
  {
    forall more, tickMs: nat | Paced(more, claim.now + tickMs, tickMs) ensures Paced([put, claim] + more, claim.now, tickMs) {
      assert ([put, claim] + more)[1..] == [claim] + more && ([claim] + more)[1..] == more;
    }
  }

  /** The key is put again and the next tick claims it, with every other row that is due. */
  lemma Resend(s: State, k: Key, now: Time) returns (steps: seq<Step>, v: Task, s': State)
    requires Free(s) && RowWaits(s, k) && HasRoom(s, k) && BoundOk(s)
    ensures Run(s, steps) && Clean(s, steps) && After(s, steps) == s' && OneClaimAt(steps, now)
    ensures && WaitsFor(s', v, k, now) && v.run == s.runs && s.tasks <= s'.tasks && s'.calls == s.calls && s'.lives == s.lives
            && BoundOk(s')
  {
    var put := Put(s, k, Again(now), now);
    assert k in put.rows && put.rows[k].status.Pending? && put.rows[k].nextAttemptAt == now && put.rows[k].request == Again(now);
    var due := DueKeys(put, now);
    v := Task(s.runs, k, Life(s, k), Claimed(put.rows[k], now), None);
    assert k in due && v in ClaimTasks(put, due, now);
    steps := [SPut(k, Again(now), now), SClaim(now, |due|, due)];
    s' := Claim(put, now, due);
    TwoSteps(s, SPut(k, Again(now), now), SClaim(now, |due|, due));
    StepKeepsBound(s, SPut(k, Again(now), now));
    StepKeepsBound(put, SClaim(now, |due|, due));
    PutThenClaim(steps[0], steps[1]);
  }

  /** Two calls for one life of a key, both still unanswered. */
  lemma TwoOpenCalls(s: State, c: nat, d: nat)
    requires c < d < |s.calls| && s.calls[c].key == s.calls[d].key && s.calls[c].life == s.calls[d].life
    requires s.calls[c].answer.None? && s.calls[d].answer.None?
    ensures !AtMostOnce(s)
  {
    assert MayHaveReached(s.calls[c]) && MayHaveReached(s.calls[d]);
  }

  lemma BothProceed(s: State, t: Task, u: Task, k: Key, now: Time)
    requires WaitsFor(s, t, k, now) && WaitsFor(s, u, k, now) && t != u
    ensures var steps := [SProceed(t, now), SProceed(u, now)];
            Run(s, steps) && Clean(s, steps) && !AtMostOnce(After(s, steps))
  {
    TwoSteps(s, SProceed(t, now), SProceed(u, now));
    TwoOpenCalls(Proceed(Proceed(s, t, now), u, now), |s.calls|, |s.calls| + 1);
  }

  /** The stray send is refused while the new one's call is open: the refusal ends the new row. */
  function RefusalEndsNewRow(t: Task, v: Task, now: Time): seq<Step> {
    [SProceed(v, now), SAnswer(t, NotOk(400, None), now)] + [SDie]
  }

  lemma RefusalFreesNewRow(s: State, t: Task, v: Task, k: Key, now: Time)
    requires WaitsFor(s, v, k, now) && t in s.tasks && t != v && t.key == k && t.call.Some? && t.call.value < |s.calls| && BoundOk(s)
    ensures var steps := RefusalEndsNewRow(t, v, now);
            Run(s, steps) && Clean(s, steps)
            && var s' := After(s, steps);
               && s'.tasks == {} && k in s'.rows && s'.rows[k].status.Failed? && |OpenKeys(s'.rows)| < MAX_PENDING_SCHEDULED
               && |s'.calls| == |s.calls| + 1 && s'.lives == s.lives
               && s'.calls[|s.calls|] == Call(k, Life(s, k), v.row.request, None)
  {
    var a, b := SProceed(v, now), SAnswer(t, NotOk(400, None), now);
    TwoSteps(s, a, b);
    var s1 := Apply(Apply(s, a), b);
    assert s1.rows == s.rows[k := s1.rows[k]];
    assert OpenKeys(s1.rows) == OpenKeys(s.rows) - {k};
    OneOpenLess(s, s1, k);
    OneStep(s1, SDie);
    RunsJoin(s, [a, b], [SDie]);
  }

  /** The stray send had called already: refused, it ends the new row under an open call. */
  lemma RefusedStrayEndsNewRow(s: State, t: Task, k: Key, now: Time) returns (steps: seq<Step>)
    requires Ready(s, t, k) && Free(s) && HasRoom(s, k) && t.call.Some?
    ensures Run(s, steps) && Clean(s, steps) && OneClaimAt(steps, now)
    ensures var s' := After(s, steps);
            && s'.tasks == {} && k in s'.rows && s'.rows[k].status.Failed? && HasRoom(s', k) && BoundOk(s')
            && |s'.calls| == |s.calls| + 1 && s'.lives == s.lives
            && s'.calls[|s.calls|].key == k && s'.calls[|s.calls|].life == Life(s, k) && s'.calls[|s.calls|].answer.None?
  {
    assert CallOpen(s, t);
    var again, v, s1 := Resend(s, k, now);
    RefusalFreesNewRow(s1, t, v, k, now);
    var refused := RefusalEndsNewRow(t, v, now);
    RunsJoin(s, again, refused);
    ClaimThenNoClaims(again, refused, now);
    steps := again + refused;
  }

  lemma ClaimThenNoClaims(a: seq<Step>, b: seq<Step>, now: Time)
    requires OneClaimAt(a, now) && NoClaims(b)
    ensures OneClaimAt(a + b, now)
  {
    forall more, tickMs: nat | Paced(more, now + tickMs, tickMs) ensures Paced(a + b + more, now, tickMs) {
      NoClaimsKeepPace(b, more, now + tickMs, tickMs);
      assert a + b + more == a + (b + more);
    }
  }

  lemma ProceedCallsAgain(s: State, u: Task, k: Key, c: nat, now: Time)
    requires WaitsFor(s, u, k, now)
    requires c < |s.calls| && s.calls[c].key == k && s.calls[c].life == Life(s, k) && s.calls[c].answer.None?
    ensures var steps := [SProceed(u, now)]; Run(s, steps) && Clean(s, steps) && !AtMostOnce(After(s, steps))
  {
    OneStep(s, SProceed(u, now));
    TwoOpenCalls(Proceed(s, u, now), c, |s.calls|);
  }

  /** The row is put and called once more. */
  lemma NewRowCalls(s: State, k: Key, c: nat, now: Time, tickMs: nat) returns (steps: seq<Step>)
    requires s.tasks == {} && RowWaits(s, k) && HasRoom(s, k) && BoundOk(s)
    requires c < |s.calls| && s.calls[c].key == k && s.calls[c].life == Life(s, k) && s.calls[c].answer.None?
    ensures Run(s, steps) && Clean(s, steps) && Paced(steps, now, tickMs) && !AtMostOnce(After(s, steps))
  {
    var again, u, s1 := Resend(s, k, now);
    ProceedCallsAgain(s1, u, k, c, now);
    RunsJoin(s, again, [SProceed(u, now)]);
    NoClaimsArePaced([SProceed(u, now)], now + tickMs, tickMs);
    steps := again + [SProceed(u, now)];
  }

  lemma CalledStrayResends(s: State, t: Task, k: Key, now: Time, tickMs: nat) returns (steps: seq<Step>)
    requires Ready(s, t, k) && Free(s) && HasRoom(s, k) && t.call.Some?
    ensures Run(s, steps) && Clean(s, steps) && Paced(steps, now, tickMs) && !AtMostOnce(After(s, steps))
  {
    var first := RefusedStrayEndsNewRow(s, t, k, now);
    var second := NewRowCalls(After(s, first), k, |s.calls|, now + tickMs, tickMs);
    RunsJoin(s, first, second);
    steps := first + second;
  }

  lemma UncalledStrayResends(s: State, t: Task, k: Key, now: Time, tickMs: nat) returns (steps: seq<Step>)
    requires Ready(s, t, k) && Free(s) && HasRoom(s, k) && t.call.None?
    ensures Run(s, steps) && Clean(s, steps) && Paced(steps, now, tickMs) && !AtMostOnce(After(s, steps))
  {
    var again, v, s1 := Resend(s, k, now);
    var calls := [SProceed(t, now), SProceed(v, now)];
    BothProceed(s1, t, v, k, now);
    RunsJoin(s, again, calls);
    NoClaimsArePaced(calls, now + tickMs, tickMs);
    steps := again + calls;
  }

  /** A send of an erased row that outlived its tick takes a row put again under the key for its own, and
      the customer can be called twice for that row, whatever the pace of the ticks. */
  lemma StrayCanResend(s: State, t: Task, tickAt: Time, tickMs: nat) returns (steps: seq<Step>)
    requires Safe(s) && BoundOk(s) && t in s.tasks && Stray(s, t)
    ensures Run(s, steps) && Clean(s, steps) && Paced(steps, tickAt, tickMs) && !AtMostOnce(After(s, steps))
  {
    var k := t.key;
    var ends := TickEnds(s, t, k, tickAt);
    var s1 := After(s, ends);
    var room := MakeRoom(s1, t, k, tickAt);
    RunsJoin(s, ends, room);
    var s2 := After(s1, room);
    var last: seq<Step>;
    if t.call.None? {
      last := UncalledStrayResends(s2, t, k, tickAt, tickMs);
    } else {
      last := CalledStrayResends(s2, t, k, tickAt, tickMs);
    }
    RunsJoin(s, ends + room, last);
    NoClaimsKeepPace(ends + room, last, tickAt, tickMs);
    steps := ends + room + last;
  }

  /** In every later run that keeps to the pace and makes no send stray. */
  ghost predicate StaysAtMostOnce(s: State, tickAt: Time, tickMs: nat) {
    forall steps :: Run(s, steps) && Clean(s, steps) && Paced(steps, tickAt, tickMs) ==> AtMostOnce(After(s, steps))
  }

  /** A step keeps the at-most-once promise in every later run that makes no send stray, at whatever pace,
      exactly when it makes none stray itself: it is no throw that leaves the send of an erased row behind,
      and no erasure of a row whose send an earlier throw left behind. */
  lemma OnlyStraySendsRepeat(s: State, step: Step, tickAt: Time, tickMs: nat)
    requires Inv(s) && Possible(s, step)
    ensures StaysAtMostOnce(Apply(s, step), tickAt, tickMs) <==> !MakesStray(s, step)
  {
    var s' := Apply(s, step);
    if MakesStray(s, step) {
      OnlyTheseMakeStrays(s, step);
      StepIsSafe(s, step);
      StepKeepsBound(s, step);
      var t :| t in s'.tasks && Stray(s', t);
      var steps := StrayCanResend(s', t, tickAt, tickMs);
    } else {
      StepKeepsInv(s, step);
      forall steps | Run(s', steps) && Clean(s', steps) && Paced(steps, tickAt, tickMs)
        ensures AtMostOnce(After(s', steps))
      {
        RunKeepsInv(s', steps);
      }
    }
  }

  const KEY_A := Key("acct", "a")
  const KEY_B := Key("acct", "b")

  lemma ClaimBetween(before: seq<Step>, claim: Step, last: Step)
    requires NoClaims(before) && claim.SClaim? && !last.SClaim?
    ensures OneClaimAt(before + [claim, last], claim.now)
  {
    forall more, tickMs: nat | Paced(more, claim.now + tickMs, tickMs) ensures Paced(before + [claim, last] + more, claim.now, tickMs) {
      assert ([claim, last] + more)[1..] == [last] + more && ([last] + more)[1..] == more;
      NoClaimsKeepPace(before, [claim, last] + more, claim.now, tickMs);
      assert before + [claim, last] + more == before + ([claim, last] + more);
    }
  }

  const TWO_ROWS: map<Key, Row> := map[KEY_A := FreshRow(Again(0), 0), KEY_B := FreshRow(Again(0), 0)]

  lemma TwoArePut() returns (steps: seq<Step>)
    ensures Run(Empty, steps) && Clean(Empty, steps) && NoClaims(steps) && After(Empty, steps) == Empty.(rows := TWO_ROWS)
  {
    assert OpenKeys(Empty.rows) == {};
    var s1 := Put(Empty, KEY_A, Again(0), 0);
    assert OpenKeys(s1.rows) == {KEY_A};
    assert Put(s1, KEY_B, Again(0), 0).rows == TWO_ROWS;
    TwoSteps(Empty, SPut(KEY_A, Again(0), 0), SPut(KEY_B, Again(0), 0));
    steps := [SPut(KEY_A, Again(0), 0), SPut(KEY_B, Again(0), 0)];
  }

  /** One tick claims two rows, and one of them is erased while both sends are in flight. */
  lemma ErasedInFlight() returns (steps: seq<Step>, t: Task, u: Task)
    ensures Run(Empty, steps) && Clean(Empty, steps) && OneClaimAt(steps, 0)
    ensures var s := After(Empty, steps);
            t in s.tasks && u in s.tasks && t != u && Current(s, t) && Erased(s, u) && t.call.None?
  {
    var puts := TwoArePut();
    var s2 := Empty.(rows := TWO_ROWS);
    assert DueKeys(s2, 0) == {KEY_A, KEY_B};
    var claim := SClaim(0, 2, {KEY_A, KEY_B});
    TwoSteps(s2, claim, SDelete(KEY_A));
    RunsJoin(Empty, puts, [claim, SDelete(KEY_A)]);
    ClaimBetween(puts, claim, SDelete(KEY_A));
    steps := puts + [claim, SDelete(KEY_A)];
    t := Task(0, KEY_B, 0, Claimed(FreshRow(Again(0), 0), 0), None);
    u := Task(0, KEY_A, 0, Claimed(FreshRow(Again(0), 0), 0), None);
  }

  function SendOf(k: Key): Task { Task(0, k, 0, Claimed(FreshRow(Again(0), 0), 0), None) }

  lemma ClaimTakesTwo(s: State)
    requires s == Empty.(rows := TWO_ROWS)
    ensures var claim := SClaim(0, 2, {KEY_A, KEY_B});
            && Possible(s, claim) && !MakesStray(s, claim)
            && Apply(s, claim).tasks == {SendOf(KEY_A), SendOf(KEY_B)} && Apply(s, claim).runs == 1
            && Apply(s, claim).calls == [] && Apply(s, claim).lives == map[]
            && KEY_A in Apply(s, claim).rows && Apply(s, claim).rows[KEY_A] == Claimed(FreshRow(Again(0), 0), 0)
  {
    assert DueKeys(s, 0) == {KEY_A, KEY_B};
    assert ClaimTasks(s, {KEY_A, KEY_B}, 0) == {SendOf(KEY_A), SendOf(KEY_B)};
  }

  lemma TwoAreClaimed() returns (steps: seq<Step>, t: Task, u: Task)
    ensures Run(Empty, steps) && Clean(Empty, steps)
    ensures var s := After(Empty, steps);
            && s.tasks == {t, u} && t.key == KEY_A && u.key == KEY_B && t.call.None? && Current(s, u) && t.run == u.run && !Erased(s, t) && !Erased(s, u)
            && s.calls == [] && KEY_A in s.rows && s.rows[KEY_A].status.Sending?
            && s.rows[KEY_A].updatedAt == 0 && s.rows[KEY_A].request.expiresAt == DEFAULT_EXPIRY_MS
  {
    var puts := TwoArePut();
    var s2, claim := Empty.(rows := TWO_ROWS), SClaim(0, 2, {KEY_A, KEY_B});
    ClaimTakesTwo(s2);
    OneStep(s2, claim);
    RunsJoin(Empty, puts, [claim]);
    steps := puts + [claim];
    t, u := SendOf(KEY_A), SendOf(KEY_B);
  }

  /** The other send throws, this one calls Meta late, and the next tick sweeps its row. */
  lemma CallsAndIsSwept(s: State, t: Task, u: Task) returns (steps: seq<Step>)
    requires s.tasks == {t, u} && t.key == KEY_A && u.key == KEY_B && t.call.None? && Current(s, u) && !Erased(s, t) && !Erased(s, u)
    requires s.calls == [] && KEY_A in s.rows && s.rows[KEY_A].status.Sending? && s.rows[KEY_A].updatedAt == 0
    requires s.rows[KEY_A].request.expiresAt == DEFAULT_EXPIRY_MS && t.run == u.run
    ensures Run(s, steps) && Clean(s, steps)
    ensures var s' := After(s, steps);
            && s'.tasks == {t.(call := Some(0))} && !Current(s', t.(call := Some(0))) && s'.lives == s.lives && |s'.calls| == 1
            && KEY_A in s'.rows && s'.rows[KEY_A].status.Uncertain?
            && s'.calls[0] == Call(KEY_A, Life(s, KEY_A), t.row.request, None)
  {
    var throws, calls := SThrow(u, Unsettled, 0), SProceed(t, 50_000);
    var s1 := Apply(s, throws);
    assert s1.tasks == {t};
    TwoSteps(s, throws, calls);
    var s2 := Proceed(s1, t, 50_000);
    assert s2.tasks == {t.(call := Some(0))};
    OneStep(s2, SSweep(60_001));
    assert KEY_A in StaleKeys(s2, 60_001);
    RunsJoin(s, [throws, calls], [SSweep(60_001)]);
    steps := [throws, calls] + [SSweep(60_001)];
  }

  /** It does happen, from the empty table: a send that outlived its tick is accepted after the sweep, and the
      row stays unknown. */
  lemma AcceptedAfterTheSweep(id: string) returns (steps: seq<Step>)
    ensures Run(Empty, steps) && Clean(Empty, steps)
    ensures var s := After(Empty, steps); AcceptedAs(s, KEY_A, id) && KEY_A in s.rows && s.rows[KEY_A].status.Uncertain?
  {
    var before, t, u := TwoAreClaimed();
    var s := After(Empty, before);
    var middle := CallsAndIsSwept(s, t, u);
    RunsJoin(Empty, before, middle);
    var s2, called := After(s, middle), t.(call := Some(0));
    OneStep(s2, SAnswer(called, Accepted(id), 60_001));
    RunsJoin(Empty, before + middle, [SAnswer(called, Accepted(id), 60_001)]);
    steps := before + middle + [SAnswer(called, Accepted(id), 60_001)];
    var s3 := Answer(s2, called, Accepted(id), 60_001);
    assert Reached(s3, 0, KEY_A) && s3.calls[0].answer == Some(Accepted(id));
  }

  /** From the empty table, with ticks a second apart: the other send of the tick throws, the erased row is
      put again, and the customer can be called twice for it. */
  lemma ErasedSendRepeats() returns (steps: seq<Step>)
    ensures Run(Empty, steps) && Paced(steps, 0, 1_000) && !AtMostOnce(After(Empty, steps))
  {
    var before, t, u := ErasedInFlight();
    assert OpenKeys(Empty.rows) == {};
    RunKeepsInv(Empty, before);
    var s := After(Empty, before);
    var throws := SThrow(t, Unsettled, 0);
    assert MakesStray(s, throws);
    OnlyStraySendsRepeat(s, throws, 1_000, 1_000);
    var s' := Apply(s, throws);
    var rest :| Run(s', rest) && Clean(s', rest) && Paced(rest, 1_000, 1_000) && !AtMostOnce(After(s', rest));
    RunThenRest(s, throws, rest);
    PlainRunsJoin(Empty, before, [throws] + rest);
    NoClaimsKeepPace([throws], rest, 1_000, 1_000);
    assert Paced([throws] + rest, 0 + 1_000, 1_000);
    steps := before + ([throws] + rest);
  }

  lemma RunThenRest(s: State, step: Step, rest: seq<Step>)
    requires Possible(s, step) && Run(Apply(s, step), rest)
    ensures Run(s, [step] + rest) && After(s, [step] + rest) == After(Apply(s, step), rest)
  {
    assert ([step] + rest)[1..] == rest;
  }

  lemma {:induction false} PlainRunsJoin(s: State, a: seq<Step>, b: seq<Step>)
    requires Run(s, a) && Run(After(s, a), b)
    ensures Run(s, a + b) && After(s, a + b) == After(After(s, a), b)
    decreases |a|
  {
    if a == [] {
      assert a + b == b;
    } else {
      PlainRunsJoin(Apply(s, a[0]), a[1..], b);
      assert (a + b)[1..] == a[1..] + b;
    }
  }

  // ---- scheduled_failed events --------------------------------------------------------------

  predicate Ended(s: State, s': State, k: Key) {
    k in s.rows && Open(s.rows[k]) && k in s'.rows && (s'.rows[k].status.Failed? || s'.rows[k].status.Uncertain?)
  }

  /** Either the key's row ended and exactly one event naming its customer and reason was added, or nothing was. */
  ghost predicate EmitsExactly(s: State, s': State, k: Key) {
    if Ended(s, s', k) then
      && |FailedEvents(s', k)| == |FailedEvents(s, k)| + 1
      && FailedEvents(s, k) <= FailedEvents(s', k)
      && var e := FailedEvents(s', k)[|FailedEvents(s, k)|];
         && s'.rows[k].reason == Some(e.reason)
         && e.to == s'.rows[k].request.to
         && e.phone == s'.rows[k].request.phone
    else FailedEvents(s', k) == FailedEvents(s, k)
  }

  lemma AnswerEmitsExactly(s: State, t: Task, result: SendResult, now: Time, k: Key)
    requires TasksOk(s) && t in s.tasks && t.call.Some? && t.call.value < |s.calls|
    ensures EmitsExactly(s, Answer(s, t, result, now), k)
  {
  }

  lemma ProceedEmitsExactly(s: State, t: Task, now: Time, k: Key)
    requires TasksOk(s) && t in s.tasks
    ensures EmitsExactly(s, Proceed(s, t, now), k)
  {
  }

  lemma EndEmitsExactly(s: State, ended: set<Key>, status: Status, reason: Reason, now: Time, k: Key)
    requires forall j :: j in ended ==> j in s.rows && Open(s.rows[j])
    requires status.Failed? || status.Uncertain?
    ensures EmitsExactly(s, End(s, ended, status, reason, now), k)
  {
  }

  /** Meta's answer ends the attempt without a send: no acceptance, and no throttle that may be tried again. */
  predicate EndsAttempt(t: Task, result: SendResult) {
    result.NotOk? && !(VerdictOf(result, true).VThrottled? && t.row.attempts + 1 < MAX_THROTTLED_ATTEMPTS)
  }

  /** The send of `k` throws between the settle that ends its row and the event. */
  predicate LosesEvent(s: State, step: Step, k: Key) {
    step.SThrow? && step.point.Unreported? && step.t.key == k && IsSending(s, k) && EndsAttempt(step.t, step.point.result)
  }

  lemma ThrowEmitsExactly(s: State, t: Task, point: ThrowPoint, now: Time, k: Key)
    requires TasksOk(s) && Possible(s, SThrow(t, point, now))
    ensures EmitsExactly(s, Throw(s, t, point, now), k) <==> !LosesEvent(s, SThrow(t, point, now), k)
  {
    if !point.Unsettled? {
      AnswerEmitsExactly(s, t, point.result, now, k);
    }
  }

  /** A step emits one event for a key if it ends that key's row without a send, and none if it does not,
      exactly when it is no throw between the settle and the event. */
  lemma StepEmitsExactly(s: State, step: Step, k: Key)
    requires Safe(s) && Possible(s, step)
    ensures EmitsExactly(s, Apply(s, step), k) <==> !LosesEvent(s, step, k)
  {
    match step
    case SSweep(now) => EndEmitsExactly(s, StaleKeys(s, now), Uncertain, OutcomeLost, now, k);
    case SExpire(now) => EndEmitsExactly(s, ExpiredKeys(s, now), Failed, Expired, now, k);
    case SProceed(t, now) => ProceedEmitsExactly(s, t, now, k);
    case SAnswer(t, result, now) => AnswerEmitsExactly(s, t, result, now, k);
    case SThrow(t, point, now) => ThrowEmitsExactly(s, t, point, now, k);
    case _ =>
  }

  /** How many times a run ended the key's row without a send. */
  ghost function TimesEnded(s: State, steps: seq<Step>, k: Key): nat
    requires Run(s, steps)
    decreases |steps|
  {
    if steps == [] then 0
    else (if Ended(s, Apply(s, steps[0]), k) then 1 else 0) + TimesEnded(Apply(s, steps[0]), steps[1..], k)
  }

  /** How many times a send of the key threw between the settle and the event. */
  ghost function TimesLost(s: State, steps: seq<Step>, k: Key): nat
    requires Run(s, steps)
    decreases |steps|
  {
    if steps == [] then 0
    else (if LosesEvent(s, steps[0], k) then 1 else 0) + TimesLost(Apply(s, steps[0]), steps[1..], k)
  }

  /** No send of the key throws between the settle and the event. */
  ghost predicate NoneLost(s: State, steps: seq<Step>, k: Key)
    requires Run(s, steps)
    decreases |steps|
  {
    steps != [] ==> !LosesEvent(s, steps[0], k) && NoneLost(Apply(s, steps[0]), steps[1..], k)
  }

  /** What one step adds. */
  predicate CountsAs(s: State, s': State, lost: bool, k: Key) {
    |FailedEvents(s', k)| + (if lost then 1 else 0) == |FailedEvents(s, k)| + (if Ended(s, s', k) then 1 else 0)
  }

  lemma AnswerCounts(s: State, t: Task, result: SendResult, now: Time, k: Key)
    requires t.call.Some? && t.call.value < |s.calls|
    ensures CountsAs(s, Answer(s, t, result, now), false, k)
    ensures Ended(s, Answer(s, t, result, now), k) <==> t.key == k && IsSending(s, k) && EndsAttempt(t, result)
  {
  }

  lemma ThrowCounts(s: State, t: Task, point: ThrowPoint, now: Time, k: Key)
    requires Possible(s, SThrow(t, point, now))
    ensures CountsAs(s, Throw(s, t, point, now), LosesEvent(s, SThrow(t, point, now), k), k)
  {
    if !point.Unsettled? {
      AnswerCounts(s, t, point.result, now, k);
    }
  }

  /** Whatever sends are stray. */
  lemma StepCounts(s: State, step: Step, k: Key)
    requires Possible(s, step)
    ensures CountsAs(s, Apply(s, step), LosesEvent(s, step, k), k)
  {
    match step
    case SSweep(now) => EndEmitsExactly(s, StaleKeys(s, now), Uncertain, OutcomeLost, now, k);
    case SExpire(now) => EndEmitsExactly(s, ExpiredKeys(s, now), Failed, Expired, now, k);
    case SAnswer(t, result, now) => AnswerCounts(s, t, result, now, k);
    case SThrow(t, point, now) => ThrowCounts(s, t, point, now, k);
    case _ =>
  }

  lemma {:induction false} RunCounts(s: State, steps: seq<Step>, k: Key)
    requires Run(s, steps)
    ensures |FailedEvents(After(s, steps), k)| + TimesLost(s, steps, k) == |FailedEvents(s, k)| + TimesEnded(s, steps, k)
    ensures TimesLost(s, steps, k) == 0 <==> NoneLost(s, steps, k)
    decreases |steps|
  {
    if steps != [] {
      StepCounts(s, steps[0], k);
      RunCounts(Apply(s, steps[0]), steps[1..], k);
    }
  }

  /** Main result: over every run, whatever is erased or throws, there is one `scheduled_failed` per row that
      ended without a send, and no other, exactly when no send of the run throws between the settle that ends
      its row and the event. What such a throw loses, nothing in the run makes up for. */
  lemma OneEventPerFailure(steps: seq<Step>, k: Key)
    requires Run(Empty, steps)
    ensures |FailedEvents(After(Empty, steps), k)| == TimesEnded(Empty, steps, k) <==> NoneLost(Empty, steps, k)
    ensures |FailedEvents(After(Empty, steps), k)| + TimesLost(Empty, steps, k) == TimesEnded(Empty, steps, k)
  {
    RunCounts(Empty, steps, k);
  }

  lemma {:induction false} NoThrowLosesNone(s: State, steps: seq<Step>, k: Key)
    requires Run(s, steps) && forall i :: 0 <= i < |steps| ==> !steps[i].SThrow?
    ensures TimesLost(s, steps, k) == 0
    decreases |steps|
  {
    if steps != [] {
      NoThrowLosesNone(Apply(s, steps[0]), steps[1..], k);
    }
  }

  /** The only row is claimed and its call has left. */
  lemma OneCallLeaves() returns (steps: seq<Step>, t: Task)
    ensures Run(Empty, steps)
    ensures var s := After(Empty, steps);
            && t in s.tasks && t.key == KEY_A && t.row.attempts == 0 && t.call == Some(0) && |s.calls| == 1
            && s.failed == map[] && KEY_A in s.rows && s.rows[KEY_A].status.Sending?
            && TimesLost(Empty, steps, KEY_A) == 0
  {
    assert OpenKeys(Empty.rows) == {};
    var put, claim := SPut(KEY_A, Again(0), 0), SClaim(0, 1, {KEY_A});
    var s1 := Put(Empty, KEY_A, Again(0), 0);
    assert DueKeys(s1, 0) == {KEY_A};
    TwoSteps(Empty, put, claim);
    var waiting := Task(0, KEY_A, 0, Claimed(FreshRow(Again(0), 0), 0), None);
    var s2 := Claim(s1, 0, {KEY_A});
    assert waiting in s2.tasks;
    OneStep(s2, SProceed(waiting, 0));
    RunsJoin(Empty, [put, claim], [SProceed(waiting, 0)]);
    steps := [put, claim] + [SProceed(waiting, 0)];
    t := waiting.(call := Some(0));
    NoThrowLosesNone(Empty, steps, KEY_A);
  }

  /** It does happen: Meta refuses the only send there is, and it throws once its row has been settled. The
      row has failed, and there is no event. */
  lemma RefusedWithoutEvent() returns (steps: seq<Step>)
    ensures Run(Empty, steps)
    ensures var s := After(Empty, steps);
            && KEY_A in s.rows && s.rows[KEY_A].status.Failed? && FailedEvents(s, KEY_A) == []
            && TimesEnded(Empty, steps, KEY_A) == 1
  {
    var before, t := OneCallLeaves();
    var s, refusal := After(Empty, before), NotOk(400, None);
    var throws := SThrow(t, Unreported(refusal), 0);
    RunThenRest(s, throws, []);
    assert [throws] + [] == [throws];
    PlainRunsJoin(Empty, before, [throws]);
    steps := before + [throws];
    assert LosesEvent(s, throws, KEY_A) && [throws][1..] == [];
    LostJoin(Empty, before, [throws], KEY_A);
    RunCounts(Empty, steps, KEY_A);
  }

  lemma {:induction false} LostJoin(s: State, a: seq<Step>, b: seq<Step>, k: Key)
    requires Run(s, a) && Run(After(s, a), b) && Run(s, a + b)
    ensures TimesLost(s, a + b, k) == TimesLost(s, a, k) + TimesLost(After(s, a), b, k)
    decreases |a|
  {
    if a == [] {
      assert a + b == b;
    } else {
      assert (a + b)[1..] == a[1..] + b;
      LostJoin(Apply(s, a[0]), a[1..], b, k);
    }
  }
}
