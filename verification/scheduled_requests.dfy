/** What each operation on scheduled sends owes its caller, case by case over the rows before and after it,
    and what that comes to over runs: which request a call carries, and when it may leave
    (apps/gateway/src/scheduled.ts:211-286, apps/gateway/src/gateway.ts:1583-1737). */
module ScheduledRequests {
  import opened Core
  import opened MetaSend
  import opened Scheduled

  // ---- Operation by operation -----------------------------------------------------------------

  predicate MayHaveLeft(r: Row) { r.status.Sending? || r.status.Sent? || r.status.Uncertain? }

  predicate IsPending(s: State, k: Key) { k in s.rows && s.rows[k].status.Pending? }

  predicate IsFull(s: State) { |(set k | k in s.rows && (s.rows[k].status.Pending? || s.rows[k].status.Sending?))| >= 50_000 }

  /** A PUT of `k` is taken: its row is waiting, or there is room and nothing under the key may have left. */
  predicate TakesPut(s: State, k: Key) {
    IsPending(s, k) || (!IsFull(s) && !(k in s.rows && MayHaveLeft(s.rows[k])))
  }

  /** The row waits for exactly what was asked, from the start. */
  predicate AsksFor(r: Row, req: Request, now: Time) {
    && r.request == req && r.components == req.components
    && r.status.Pending? && r.nextAttemptAt == req.sendAt && r.attempts == 0 && r.updatedAt == now
  }

  /** Only the row of `k` is written, and nothing but rows. */
  predicate OnlyRow(s: State, s': State, k: Key) {
    s' == s.(rows := s'.rows) && s'.rows - {k} == s.rows - {k}
  }

  predicate PutDone(s: State, s': State, k: Key, req: Request, now: Time, state: PutResult) {
    && (state.NotPending? <==> k in s.rows && MayHaveLeft(s.rows[k]))
    && (state.Replaced? <==> IsPending(s, k))
    && (state.Full? <==> IsFull(s) && (k in s.rows ==> s.rows[k].status.Cancelled? || s.rows[k].status.Failed?))
    && OnlyRow(s, s', k)
    && (if state.Created? || state.Replaced? then k in s'.rows && AsksFor(s'.rows[k], req, now) else s' == s)
    && (state.Created? ==> s'.rows[k].messageId.None? && s'.rows[k].reason.None?)
  }

  predicate CancelDone(s: State, s': State, k: Key, now: Time, state: CancelResult) {
    && (state.Missing? <==> k !in s.rows)
    && (state.CancelledNow? <==> IsPending(s, k))
    && (state.TooLate? <==> k in s.rows && MayHaveLeft(s.rows[k]))
    && OnlyRow(s, s', k)
    && if IsPending(s, k) then
         && k in s'.rows && s'.rows[k].status.Cancelled? && s'.rows[k].components.None? && s'.rows[k].updatedAt == now
         && s'.rows[k].request == s.rows[k].request && s'.rows[k].attempts == s.rows[k].attempts
       else s' == s
  }

  predicate IsStale(s: State, k: Key, now: Time) { k in s.rows && s.rows[k].status.Sending? && now - s.rows[k].updatedAt > 60_000 }

  predicate IsExpired(s: State, k: Key, now: Time) {
    IsPending(s, k) && s.rows[k].nextAttemptAt <= now && s.rows[k].request.expiresAt <= now
  }

  /** The row of `k` ended without a send, its values are gone, and one event names its customer and why. */
  predicate EndsWith(s: State, s': State, k: Key, status: Status, reason: Reason, now: Time)
    requires k in s.rows
  {
    && k in s'.rows && s'.rows[k].status == status && s'.rows[k].reason == Some(reason)
    && s'.rows[k].components.None? && s'.rows[k].request == s.rows[k].request && s'.rows[k].updatedAt == now
    && FailedEvents(s', k) == FailedEvents(s, k) + [FailedEvent(s.rows[k].request.to, s.rows[k].request.phone, reason, now)]
  }

  predicate KeepsRow(s: State, s': State, k: Key) {
    && (k in s'.rows <==> k in s.rows) && (k in s.rows ==> s'.rows[k] == s.rows[k])
    && FailedEvents(s', k) == FailedEvents(s, k)
  }

  /** The start of a tick, row by row. */
  ghost predicate TickStartDone(s: State, s': State, now: Time) {
    && s' == s.(rows := s'.rows, failed := s'.failed)
    && forall k :: if IsStale(s, k, now) then EndsWith(s, s', k, Uncertain, OutcomeLost, now)
                   else if IsExpired(s, k, now) then EndsWith(s, s', k, Failed, Expired, now)
                   else KeepsRow(s, s', k)
  }

  /** Without a token every due row waits half a minute, or until it expires. */
  predicate PostponeDone(s: State, s': State, now: Time, at: Time) {
    && s' == s.(rows := s'.rows) && s'.rows.Keys == s.rows.Keys
    && forall k :: k in s.rows ==>
         if IsPending(s, k) && s.rows[k].nextAttemptAt <= now then
           && s'.rows[k].nextAttemptAt == Min(now + 30_000, s.rows[k].request.expiresAt)
           && s'.rows[k] == s.rows[k].(nextAttemptAt := s'.rows[k].nextAttemptAt, updatedAt := at)
         else s'.rows[k] == s.rows[k]
  }

  /** The rows picked are sending, each with one send in flight that carries it; no other row is touched. */
  ghost predicate ClaimDone(s: State, s': State, now: Time, picked: set<Key>) {
    && s'.calls == s.calls && s'.lives == s.lives && s'.failed == s.failed && s'.rows.Keys == s.rows.Keys
    && (forall k :: k in s.rows && k !in picked ==> s'.rows[k] == s.rows[k])
    && (forall k :: k in picked ==> k in s.rows && s'.rows[k] == s.rows[k].(status := Sending, updatedAt := now))
    && (forall t :: t in s'.tasks <==>
          t in s.tasks
          || (t.key in picked && t.run == s.runs && t.life == Life(s, t.key) && t.row == s'.rows[t.key] && t.call.None?))
  }

  /** The rate check said no: the row waits five seconds, or until it expires, and no attempt is spent. */
  predicate RefusalDone(s: State, s': State, t: Task, now: Time) {
    && s' == s.(rows := s'.rows, tasks := s.tasks - {t})
    && s'.rows - {t.key} == s.rows - {t.key}
    && if t.key in s.rows && s.rows[t.key].status.Sending? then
         && t.key in s'.rows
         && s'.rows[t.key].nextAttemptAt == Min(now + 5_000, t.row.request.expiresAt)
         && s'.rows[t.key] == s.rows[t.key].(status := Pending, nextAttemptAt := s'.rows[t.key].nextAttemptAt, updatedAt := now)
       else s'.rows == s.rows
  }

  /** The rate check said yes: a row no longer sending ends the send, an expired one fails, and for any other
      one call leaves with the request the send carries. */
  predicate ProceedDone(s: State, s': State, t: Task, now: Time) {
    if !(t.key in s.rows && s.rows[t.key].status.Sending?) then s' == s.(tasks := s.tasks - {t})
    else if s.rows[t.key].request.expiresAt <= now then
      && s' == s.(rows := s'.rows, failed := s'.failed, tasks := s.tasks - {t})
      && s'.rows - {t.key} == s.rows - {t.key} && s'.failed - {t.key} == s.failed - {t.key}
      && (t.row.request == s.rows[t.key].request ==> EndsWith(s, s', t.key, Failed, Expired, now))
    else
      && s' == s.(tasks := s'.tasks, calls := s'.calls)
      && s'.tasks == s.tasks - {t} + {t.(call := Some(|s.calls|))}
      && s'.calls == s.calls + [Call(t.key, Life(s, t.key), t.row.request, None)]
  }

  /** No answer, a server error, or a success without a message id. */
  predicate IsLost(r: SendResult) { r.NotOk? && (r.status < 300 || r.status >= 500) }

  /** The row of a send that is still wanted, by what Meta answered. */
  predicate AnswerSettles(s: State, s': State, t: Task, result: SendResult, now: Time)
    requires t.key in s.rows
  {
    && t.key in s'.rows
    && var row := s'.rows[t.key];
       && row.attempts == t.row.attempts + 1 && row.updatedAt == now && row.request == s.rows[t.key].request
       && if result.Accepted? then
            row.status.Sent? && row.messageId == Some(result.id) && row.reason.None? && row.components.None? && s'.failed == s.failed
          else if IsThrottle(result) && t.row.attempts + 1 < 8 then
            && row.status.Pending? && row.components == s.rows[t.key].components && s'.failed == s.failed
            && row.nextAttemptAt == Min(now + ThrottleDelayMs(t.row.attempts + 1), t.row.request.expiresAt)
          else
            && row.messageId.None?
            && (t.row.request == s.rows[t.key].request ==>
                  if IsLost(result) then EndsWith(s, s', t.key, Uncertain, OutcomeLost, now)
                  else EndsWith(s, s', t.key, Failed, Rejected, now))
  }

  predicate AnswerDone(s: State, s': State, t: Task, result: SendResult, now: Time)
    requires t.call.Some? && t.call.value < |s.calls|
  {
    && s' == s.(rows := s'.rows, failed := s'.failed, tasks := s.tasks - {t}, calls := s'.calls)
    && s'.calls == s.calls[t.call.value := s.calls[t.call.value].(answer := Some(result))]
    && s'.rows - {t.key} == s.rows - {t.key} && s'.failed - {t.key} == s.failed - {t.key}
    && if t.key in s.rows && s.rows[t.key].status.Sending? then AnswerSettles(s, s', t, result, now)
       else s'.rows == s.rows && s'.failed == s.failed
  }

  lemma PutKeepsItsWord(s: State, k: Key, req: Request, now: Time)
    ensures PutDone(s, Put(s, k, req, now), k, req, now, PutOutcome(s, k))
    ensures TakesPut(s, k) <==> PutOutcome(s, k).Created? || PutOutcome(s, k).Replaced?
  {
    assert OpenKeys(s.rows) == (set k | k in s.rows && (s.rows[k].status.Pending? || s.rows[k].status.Sending?));
  }

  lemma CancelKeepsItsWord(s: State, k: Key, now: Time)
    ensures CancelDone(s, Cancel(s, k, now), k, now, CancelOutcome(s, k))
  {
  }

  lemma TickStartKeepsItsWord(s: State, now: Time)
    ensures TickStartDone(s, ExpireDue(SweepStale(s, now), now), now)
  {
    var swept := SweepStale(s, now);
    assert forall k :: k in ExpiredKeys(swept, now) <==> IsExpired(s, k, now);
  }

  lemma PostponeKeepsItsWord(s: State, now: Time, at: Time)
    ensures PostponeDone(s, Postpone(s, now, at), now, at)
  {
  }

  lemma ClaimKeepsItsWord(s: State, now: Time, picked: set<Key>)
    requires picked <= s.rows.Keys
    ensures ClaimDone(s, Claim(s, now, picked), now, picked)
  {
  }

  lemma RefusalKeepsItsWord(s: State, t: Task, now: Time)
    ensures RefusalDone(s, RateRefused(s, t, now), t, now)
  {
  }

  lemma ProceedKeepsItsWord(s: State, t: Task, now: Time)
    ensures ProceedDone(s, Proceed(s, t, now), t, now)
  {
  }

  lemma AnswerKeepsItsWord(s: State, t: Task, result: SendResult, now: Time)
    requires t.call.Some? && t.call.value < |s.calls|
    ensures AnswerDone(s, Answer(s, t, result, now), t, result, now)
  {
    if result.NotOk? {
      VerdictsByCode(result, true);
    }
  }

  // ---- Over runs: the request a row and a call carry ------------------------------------------

  /** What the last PUT of `k` asked for, among those of the run that were taken. */
  ghost function LastPut(s: State, steps: seq<Step>, k: Key, was: Option<Request>): Option<Request>
    requires Run(s, steps)
    decreases |steps|
  {
    if steps == [] then was
    else
      var step := steps[0];
      LastPut(Apply(s, step), steps[1..], k, if step.SPut? && step.k == k && TakesPut(s, k) then Some(step.req) else was)
  }

  /** What the last PUT of `k` asked for that was taken before the claim of that `run`. */
  ghost function LastPutBefore(s: State, steps: seq<Step>, run: nat, k: Key, was: Option<Request>, found: Option<Request>)
    : Option<Request>
    requires Run(s, steps)
    decreases |steps|
  {
    if steps == [] then found
    else
      var step := steps[0];
      LastPutBefore(Apply(s, step), steps[1..], run, k,
                    if step.SPut? && step.k == k && TakesPut(s, k) then Some(step.req) else was,
                    if step.SClaim? && s.runs == run then was else found)
  }

  /** A row's values are those of its request until it ends, and gone then. */
  predicate ValuesOk(r: Row) { r.components == if Open(r) then r.request.components else None }

  ghost predicate Carries(s: State, k: Key, last: Option<Request>) {
    k in s.rows ==> last == Some(s.rows[k].request) && ValuesOk(s.rows[k])
  }

  ghost predicate SendsCarry(s: State, run: nat, k: Key, last: Option<Request>) {
    forall t :: t in s.tasks && t.run == run && t.key == k ==> last == Some(t.row.request)
  }

  ghost predicate RunsAhead(s: State) { forall t :: t in s.tasks ==> t.run < s.runs }

  /** A row is as it was but for its progress, or is the one just asked for, or is gone. */
  lemma RequestsCarry(s: State, step: Step, k: Key, last: Option<Request>)
    requires Possible(s, step) && Carries(s, k, last) && (step.SPut? || step.SCancel? || step.SDelete? || step.SDie?)
    ensures Carries(Apply(s, step), k, if step.SPut? && step.k == k && TakesPut(s, k) then Some(step.req) else last)
  {
    if step.SPut? {
      PutKeepsItsWord(s, step.k, step.req, step.now);
    }
  }

  lemma TicksCarry(s: State, step: Step, k: Key, last: Option<Request>)
    requires Possible(s, step) && Carries(s, k, last) && (step.SSweep? || step.SExpire? || step.SPostpone? || step.SClaim?)
    ensures Carries(Apply(s, step), k, last)
  {
  }

  lemma RateChecksCarry(s: State, step: Step, k: Key, last: Option<Request>)
    requires Possible(s, step) && Carries(s, k, last) && (step.SRateRefused? || step.SProceed?)
    ensures Carries(Apply(s, step), k, last)
  {
  }

  lemma AnswersCarry(s: State, t: Task, result: SendResult, now: Time, k: Key, last: Option<Request>)
    requires t.call.Some? && t.call.value < |s.calls| && Carries(s, k, last)
    ensures Carries(Answer(s, t, result, now), k, last)
  {
  }

  lemma ThrowsCarry(s: State, step: Step, k: Key, last: Option<Request>)
    requires Possible(s, step) && Carries(s, k, last) && step.SThrow?
    ensures Carries(Apply(s, step), k, last)
  {
    if !step.point.Unsettled? {
      AnswersCarry(s, step.t, step.point.result, step.now, k, last);
    }
  }

  lemma StepCarries(s: State, step: Step, k: Key, last: Option<Request>)
    requires Possible(s, step) && Carries(s, k, last)
    ensures Carries(Apply(s, step), k, if step.SPut? && step.k == k && TakesPut(s, k) then Some(step.req) else last)
  {
    if step.SPut? || step.SCancel? || step.SDelete? || step.SDie? {
      RequestsCarry(s, step, k, last);
    } else if step.SSweep? || step.SExpire? || step.SPostpone? || step.SClaim? {
      TicksCarry(s, step, k, last);
    } else if step.SAnswer? {
      AnswersCarry(s, step.t, step.result, step.now, k, last);
    } else if step.SThrow? {
      ThrowsCarry(s, step, k, last);
    } else {
      RateChecksCarry(s, step, k, last);
    }
  }

  /** A claim's sends carry the rows as it found them; no other step starts a send. */
  lemma ClaimsCarry(s: State, step: Step, run: nat, k: Key, last: Option<Request>, found: Option<Request>)
    requires step.SClaim? && Possible(s, step) && RunsAhead(s) && Carries(s, k, last) && SendsCarry(s, run, k, found)
    ensures RunsAhead(Apply(s, step)) && SendsCarry(Apply(s, step), run, k, if s.runs == run then last else found)
  {
  }

  lemma OthersStartNone(s: State, step: Step, run: nat, k: Key, found: Option<Request>)
    requires !step.SClaim? && Possible(s, step) && RunsAhead(s) && SendsCarry(s, run, k, found)
    ensures RunsAhead(Apply(s, step)) && SendsCarry(Apply(s, step), run, k, found)
  {
  }

  lemma {:induction false} RunCarries(s: State, steps: seq<Step>, run: nat, k: Key, last: Option<Request>, found: Option<Request>)
    requires Run(s, steps) && RunsAhead(s) && Carries(s, k, last) && SendsCarry(s, run, k, found)
    ensures Carries(After(s, steps), k, LastPut(s, steps, k, last))
    ensures SendsCarry(After(s, steps), run, k, LastPutBefore(s, steps, run, k, last, found))
    decreases |steps|
  {
    if steps != [] {
      var step := steps[0];
      var last' := if step.SPut? && step.k == k && TakesPut(s, k) then Some(step.req) else last;
      var found' := if step.SClaim? && s.runs == run then last else found;
      StepCarries(s, step, k, last);
      if step.SClaim? {
        ClaimsCarry(s, step, run, k, last, found);
      } else {
        OthersStartNone(s, step, run, k, found);
      }
      RunCarries(Apply(s, step), steps[1..], run, k, last', found');
    }
  }

  /** Main result: over every run, erasures and throws included, a row asks for what the last PUT of its key
      that was answered created or replaced asked for, recipient, template, values, phone and times alike;
      its values stay until it ends and are gone then. */
  lemma RowsCarryTheLastPut(steps: seq<Step>, k: Key)
    requires Run(Empty, steps)
    ensures var s := After(Empty, steps);
            k in s.rows ==>
              && LastPut(Empty, steps, k, None) == Some(s.rows[k].request)
              && s.rows[k].components == if Open(s.rows[k]) then s.rows[k].request.components else None
  {
    RunCarries(Empty, steps, 0, k, None, None);
  }

  /** A call leaves for a send whose row is still sending and not expired, and nothing else makes one. */
  lemma OnlyProceedCalls(s: State, step: Step)
    requires Possible(s, step)
    ensures step.SProceed? && IsSending(s, step.t.key) && step.now < s.rows[step.t.key].request.expiresAt ==>
              Apply(s, step).calls == s.calls + [Call(step.t.key, Life(s, step.t.key), step.t.row.request, None)]
    ensures !(step.SProceed? && IsSending(s, step.t.key) && step.now < s.rows[step.t.key].request.expiresAt) ==>
              |Apply(s, step).calls| == |s.calls|
  {
  }

  /** Main result: over every run, whatever step makes a call makes one, and it carries what the last PUT of
      its key asked for that was taken before the claim of its send. */
  lemma CallsCarryTheLastPut(steps: seq<Step>, step: Step)
    requires Run(Empty, steps) && Possible(After(Empty, steps), step)
    ensures var s := After(Empty, steps);
            |Apply(s, step).calls| != |s.calls| ==>
              && step.SProceed?
              && var c := Call(step.t.key, Life(s, step.t.key), step.t.row.request, None);
                 Apply(s, step).calls == s.calls + [c]
                 && LastPutBefore(Empty, steps, step.t.run, c.key, None, None) == Some(c.request)
  {
    OnlyProceedCalls(After(Empty, steps), step);
    if step.SProceed? {
      RunCarries(Empty, steps, step.t.run, step.t.key, None, None);
    }
  }

  // ---- Over runs: when a call may leave -------------------------------------------------------

  /** A send reads the clock where it is: never before the time of an earlier step. */
  ghost predicate Clocked(steps: seq<Step>, clock: Time)
    decreases |steps|
  {
    steps != [] ==>
      && ((steps[0].SRateRefused? || steps[0].SProceed? || steps[0].SAnswer? || steps[0].SThrow?) ==> clock <= steps[0].now)
      && Clocked(steps[1..], Tick(steps[0], clock))
  }

  function Tick(step: Step, clock: Time): Time {
    if step.SDie? || step.SDelete? then clock else Max(clock, step.now)
  }

  /** No row is due before its time, and only sends whose time has come are in flight. */
  ghost predicate TimesOk(s: State, clock: Time) {
    && (forall k :: IsPending(s, k) ==> s.rows[k].request.sendAt <= s.rows[k].nextAttemptAt)
    && (forall k :: k in s.rows ==> s.rows[k].request.sendAt < s.rows[k].request.expiresAt)
    && (forall t :: t in s.tasks ==> t.row.request.sendAt <= clock && t.row.request.sendAt < t.row.request.expiresAt)
  }

  lemma SendKeepsTimes(s: State, step: Step, clock: Time)
    requires Safe(s) && Possible(s, step) && TimesOk(s, clock) && (step.SRateRefused? || step.SAnswer?) && clock <= step.now
    ensures TimesOk(Apply(s, step), Tick(step, clock))
  {
    assert IsSending(s, step.t.key) ==> HoldsRow(s, step.t);
  }

  lemma ThrowKeepsTimes(s: State, step: Step, clock: Time)
    requires Safe(s) && Possible(s, step) && TimesOk(s, clock) && step.SThrow? && clock <= step.now
    ensures TimesOk(Apply(s, step), Tick(step, clock))
  {
    if !step.point.Unsettled? {
      SendKeepsTimes(s, SAnswer(step.t, step.point.result, step.now), clock);
    }
  }

  lemma TicksKeepTimes(s: State, step: Step, clock: Time)
    requires Possible(s, step) && TimesOk(s, clock) && (step.SSweep? || step.SExpire? || step.SPostpone?)
    ensures TimesOk(Apply(s, step), Tick(step, clock))
  {
  }

  lemma ClaimKeepsTimes(s: State, step: Step, clock: Time)
    requires Possible(s, step) && TimesOk(s, clock) && step.SClaim?
    ensures TimesOk(Apply(s, step), Tick(step, clock))
  {
  }

  lemma RequestsKeepTimes(s: State, step: Step, clock: Time)
    requires Possible(s, step) && TimesOk(s, clock) && (step.SPut? || step.SCancel? || step.SDie? || step.SDelete? || step.SProceed?)
    ensures TimesOk(Apply(s, step), Tick(step, clock))
  {
  }

  lemma StepKeepsTimes(s: State, step: Step, clock: Time)
    requires Safe(s) && Possible(s, step) && TimesOk(s, clock)
    requires (step.SRateRefused? || step.SProceed? || step.SAnswer? || step.SThrow?) ==> clock <= step.now
    ensures TimesOk(Apply(s, step), Tick(step, clock))
  {
    if step.SThrow? {
      ThrowKeepsTimes(s, step, clock);
    } else if step.SRateRefused? || step.SAnswer? {
      SendKeepsTimes(s, step, clock);
    } else if step.SSweep? || step.SExpire? || step.SPostpone? {
      TicksKeepTimes(s, step, clock);
    } else if step.SClaim? {
      ClaimKeepsTimes(s, step, clock);
    } else {
      RequestsKeepTimes(s, step, clock);
    }
  }

  ghost function ClockAfter(steps: seq<Step>, clock: Time): Time
    decreases |steps|
  {
    if steps == [] then clock else ClockAfter(steps[1..], Tick(steps[0], clock))
  }

  lemma {:induction false} RunKeepsTimes(s: State, steps: seq<Step>, clock: Time)
    requires Run(s, steps) && Clean(s, steps) && Inv(s) && Clocked(steps, clock) && TimesOk(s, clock)
    ensures TimesOk(After(s, steps), ClockAfter(steps, clock))
    decreases |steps|
  {
    if steps != [] {
      StepKeepsInv(s, steps[0]);
      StepKeepsTimes(s, steps[0], clock);
      RunKeepsTimes(Apply(s, steps[0]), steps[1..], Tick(steps[0], clock));
    }
  }

  lemma CallKeepsItsTimes(s: State, step: Step, clock: Time)
    requires TasksOk(s) && TimesOk(s, clock) && Possible(s, step) && (step.SProceed? ==> clock <= step.now)
    ensures |Apply(s, step).calls| != |s.calls| ==>
              step.SProceed? && step.t.row.request.sendAt <= step.now < step.t.row.request.expiresAt
  {
    OnlyProceedCalls(s, step);
  }

  /** Main result: in every run whose sends read a clock that does not go back, a call leaves at or after the
      time its row was asked for, and before the row expires. */
  lemma CallsKeepTheirTimes(steps: seq<Step>, step: Step, clock: Time)
    requires Run(Empty, steps) && Clean(Empty, steps) && Clocked(steps, clock)
    requires Possible(After(Empty, steps), step) && (step.SProceed? ==> ClockAfter(steps, clock) <= step.now)
    ensures var s := After(Empty, steps);
            |Apply(s, step).calls| != |s.calls| ==>
              step.SProceed? && step.t.row.request.sendAt <= step.now < step.t.row.request.expiresAt
  {
    assert OpenKeys(Empty.rows) == {};
    RunKeepsTimes(Empty, steps, clock);
    RunKeepsInv(Empty, steps);
    CallKeepsItsTimes(After(Empty, steps), step, ClockAfter(steps, clock));
  }

  // ---- Over runs: what was cancelled ----------------------------------------------------------

  /** No PUT of `k` is taken in the run. */
  ghost predicate NoPutTaken(s: State, steps: seq<Step>, k: Key)
    requires Run(s, steps)
    decreases |steps|
  {
    steps != [] ==> !(steps[0].SPut? && steps[0].k == k && TakesPut(s, k)) && NoPutTaken(Apply(s, steps[0]), steps[1..], k)
  }

  /** Nothing waits or leaves under the key. */
  predicate Still(s: State, k: Key) { k in s.rows ==> s.rows[k].status.Cancelled? }

  lemma RequestsKeepStill(s: State, step: Step, k: Key)
    requires Possible(s, step) && Still(s, k) && (step.SPut? || step.SCancel? || step.SDie? || step.SDelete?)
    requires !(step.SPut? && step.k == k && TakesPut(s, k))
    ensures Still(Apply(s, step), k)
  {
    if step.SPut? {
      PutKeepsItsWord(s, step.k, step.req, step.now);
    }
  }

  lemma TicksKeepStill(s: State, step: Step, k: Key)
    requires Possible(s, step) && Still(s, k) && (step.SSweep? || step.SExpire? || step.SPostpone? || step.SClaim?)
    ensures Still(Apply(s, step), k)
  {
  }

  lemma SendsKeepStill(s: State, step: Step, k: Key)
    requires Possible(s, step) && Still(s, k) && (step.SRateRefused? || step.SProceed? || step.SAnswer? || step.SThrow?)
    ensures Still(Apply(s, step), k)
  {
  }

  /** The calls stay those there were, in order, and so do the keys they were made for. */
  lemma NoCallWhileStill(s: State, step: Step, k: Key)
    requires Possible(s, step) && Still(s, k)
    ensures CallsFor(Apply(s, step), k) == CallsFor(s, k)
  {
    OnlyProceedCalls(s, step);
    var s' := Apply(s, step);
    assert |s.calls| <= |s'.calls| && forall c :: 0 <= c < |s.calls| ==> s'.calls[c].key == s.calls[c].key;
  }

  lemma CancelledStaysStill(s: State, step: Step, k: Key)
    requires Possible(s, step) && Still(s, k) && !(step.SPut? && step.k == k && TakesPut(s, k))
    ensures Still(Apply(s, step), k) && CallsFor(Apply(s, step), k) == CallsFor(s, k)
  {
    NoCallWhileStill(s, step, k);
    if step.SPut? || step.SCancel? || step.SDie? || step.SDelete? {
      RequestsKeepStill(s, step, k);
    } else if step.SSweep? || step.SExpire? || step.SPostpone? || step.SClaim? {
      TicksKeepStill(s, step, k);
    } else {
      SendsKeepStill(s, step, k);
    }
  }

  /** The calls made for a key. */
  function CallsFor(s: State, k: Key): set<nat> { set c | 0 <= c < |s.calls| && s.calls[c].key == k }

  lemma {:induction false} StillMeansNoCalls(s: State, steps: seq<Step>, k: Key)
    requires Run(s, steps) && Still(s, k) && NoPutTaken(s, steps, k)
    ensures CallsFor(After(s, steps), k) == CallsFor(s, k)
    decreases |steps|
  {
    if steps != [] {
      CancelledStaysStill(s, steps[0], k);
      StillMeansNoCalls(Apply(s, steps[0]), steps[1..], k);
    }
  }

  /** Main result: once a cancel is answered cancelled, no call leaves for the key, whatever throws or is
      erased, until another PUT of it is taken. */
  lemma CancelledIsNeverSent(s: State, k: Key, now: Time, steps: seq<Step>)
    requires IsPending(s, k) && Run(Apply(s, SCancel(k, now)), steps) && NoPutTaken(Apply(s, SCancel(k, now)), steps, k)
    ensures CallsFor(After(Apply(s, SCancel(k, now)), steps), k) == CallsFor(s, k)
  {
    StillMeansNoCalls(Apply(s, SCancel(k, now)), steps, k);
  }
}
