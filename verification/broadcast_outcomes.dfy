/** What each operation on a broadcast owes its caller, case by case over the tables before and after it, and
    what that comes to over runs: a halting answer halts, and the report says who was sent what
    (apps/gateway/src/gateway.ts:1752-1967). */
module BroadcastOutcomes {
  import opened Core
  import opened MetaSend
  import opened BroadcastRequest
  import opened Broadcasts

  // ---- Operation by operation -----------------------------------------------------------------

  predicate Has(s: State, i: nat, status: Status) { i in s.rows && s.rows[i].status == status }

  /** The row of `i` has a new status, and nothing else of it changed but its time. */
  predicate Turned(s: State, s': State, i: nat, status: Status, at: Time)
    requires i in s.rows
  {
    i in s'.rows && s'.rows[i] == s.rows[i].(status := status, updatedAt := at)
  }

  /** Whoever is queued is cancelled, everybody else stays as he is. */
  ghost predicate QueueCancelled(s: State, s': State, at: Time) {
    && s'.rows.Keys == s.rows.Keys
    && forall i :: i in s.rows ==> if s.rows[i].status.Queued? then Turned(s, s', i, Cancelled, at) else s'.rows[i] == s.rows[i]
  }

  /** Same request, same log. */
  predicate SameRequest(s: State, s': State) {
    s'.recipients == s.recipients && s'.rate == s.rate && s'.erased == s.erased && s'.ticks == s.ticks && s'.calls == s.calls
  }

  predicate NobodySent(s: State) { forall i :: i in s.rows ==> !s.rows[i].status.Sent? }

  function FailedRows(s: State): set<nat> { set i | i in s.rows && s.rows[i].status.Failed? }

  /** The sends of the tick stop a running broadcast: one met an error nobody of it can escape, or the first
      twenty all failed. */
  predicate MustHalt(s: State)
    requires s.phase.Sends?
  {
    s.status.Running? && (Halt in s.phase.results || (NobodySent(s) && |FailedRows(s)| >= 20))
  }

  predicate NobodyOpen(s: State) { forall i :: i in s.rows ==> !s.rows[i].status.Queued? && !s.rows[i].status.Sending? }

  /** The most attempts of a throttled send of the tick. */
  ghost predicate MostAttempts(results: seq<Outcome>, attempts: int) {
    && Throttled(attempts) in results
    && forall a :: Throttled(a) in results ==> a <= attempts
  }

  /** The end of a tick: halted exactly when it must, completed exactly when it goes on with nobody open, paused
      for its longest throttle, and cancelled through when it had ended. */
  ghost predicate FinishDone(s: State, s': State, at: Time)
    requires s.phase.Sends?
  {
    && SameRequest(s, s') && s'.phase.Idle? && s'.clock == at && s'.tasks == s.tasks
    && (s'.status.Halted? <==> s.status.Halted? || MustHalt(s))
    && (s'.status.Stopped? <==> s.status.Stopped?)
    && (s'.status.Completed? <==> s.status.Completed? || (s.status.Running? && !MustHalt(s) && NobodyOpen(s)))
    && (if s.status.Running? && !MustHalt(s) then s'.rows == s.rows else QueueCancelled(s, s', at))
    && (s.status.Running? && !MustHalt(s) ==>
          if exists a :: Throttled(a) in s.phase.results
          then exists a :: MostAttempts(s.phase.results, a) && s'.nextSendAt == at + ThrottleDelayMs(a)
          else s'.nextSendAt == s.nextSendAt)
  }

  /** A cancel stops a running broadcast, and in any case cancels the queue of one that has ended. */
  ghost predicate CancelDone(s: State, s': State, at: Time) {
    && SameRequest(s, s') && s'.phase == s.phase && s'.tasks == s.tasks && s'.nextSendAt == s.nextSendAt && s'.clock == at
    && s'.status == (if s.status.Running? then Stopped else s.status)
    && QueueCancelled(s, s', at)
  }

  /** A tick begins: who was left sending for more than a minute is unknown. */
  ghost predicate StartDone(s: State, s': State, now: Time) {
    && s' == s.(rows := s'.rows, phase := Selected(now), clock := now) && s'.rows.Keys == s.rows.Keys
    && forall i :: i in s.rows ==>
         if s.rows[i].status.Sending? && now - s.rows[i].updatedAt > 60_000 then Turned(s, s', i, Uncertain, now)
         else s'.rows[i] == s.rows[i]
  }

  /** A tick that does not claim: not due, or its share is used up and it tries again a tick later. */
  ghost predicate SkipDone(s: State, s': State, reserved: nat)
    requires s.phase.Selected?
  {
    if s.phase.now < s.nextSendAt then s' == s.(phase := Idle)
    else && Pacing(s.rate).perTick <= reserved
         && s' == s.(phase := Idle, nextSendAt := s.phase.now + Pacing(s.rate).tickMs)
  }

  /** A tick that is due and has a share left claims the queued rows with the lowest numbers that fit it. */
  ghost predicate ClaimDone(s: State, s': State, reserved: nat, due: set<nat>, at: Time)
    requires s.phase.Selected?
  {
    && s.nextSendAt <= s.phase.now && |due| <= Pacing(s.rate).perTick - reserved
    && (forall i :: i in due ==> Has(s, i, Queued))
    && (forall i, j: nat :: i in due && j !in due && Has(s, j, Queued) ==> i < j)
    && ((exists j: nat :: j !in due && Has(s, j, Queued)) ==> |due| == Pacing(s.rate).perTick - reserved)
    && SameRequest(s, s') && s'.tasks == s.tasks && s'.nextSendAt == s.nextSendAt && s'.clock == at
    && s'.rows.Keys == s.rows.Keys
    && (forall i :: i in s.rows ==> if i in due then Turned(s, s', i, Sending, at) else s'.rows[i] == s.rows[i])
    && s'.phase == (if due == {} then Idle else Looking(s.phase.now, due))
    && s'.status == (if due == {} && s.status.Running? && NobodyOpen(s) then Completed else s.status)
  }

  /** Of the rows `which` those still sending are queued again, and no other row changes. */
  predicate BackInQueue(rows: map<nat, Row>, rows': map<nat, Row>, which: set<nat>, at: Time) {
    && rows'.Keys == rows.Keys
    && forall i :: i in rows ==>
         rows'[i] == if i in which && rows[i].status.Sending? then rows[i].(status := Queued, updatedAt := at) else rows[i]
  }

  /** The token's lookup: without a WABA to send for the broadcast halts and its queue is cancelled, a failed
      lookup puts the claimed rows back and waits half a minute, and with a token each claimed row has one send. */
  ghost predicate LookupDone(s: State, s': State, token: Token, at: Time)
    requires s.phase.Looking?
  {
    && s'.recipients == s.recipients && s'.rate == s.rate && s'.erased == s.erased && s'.calls == s.calls && s'.clock == at
    && match token
       case Missing =>
         && s'.phase.Idle? && s'.tasks == s.tasks && s'.nextSendAt == s.nextSendAt && s'.ticks == s.ticks
         && s'.status == (if s.status.Running? then Halted else s.status) && s'.rows.Keys == s.rows.Keys
         && forall i :: i in s.rows ==>
              if s.rows[i].status.Queued? || (i in s.phase.due && s.rows[i].status.Sending?)
              then Turned(s, s', i, Cancelled, at) else s'.rows[i] == s.rows[i]
       case Unavailable =>
         && s'.phase.Idle? && s'.tasks == s.tasks && s'.status == s.status && s'.ticks == s.ticks
         && s'.nextSendAt == at + 30_000 && BackInQueue(s.rows, s'.rows, s.phase.due, at)
       case Known =>
         && s'.phase == Sends(s.phase.now, []) && s'.rows == s.rows && s'.status == s.status
         && s'.nextSendAt == s.phase.now + Pacing(s.rate).tickMs
         && s'.ticks == s.ticks + [Tick(s.phase.now, |s.phase.due|)]
         && (forall t :: t in s'.tasks ==> t.seqNo in s.phase.due && t.call.None? && (t.seqNo in s.rows ==> t.attempts == s.rows[t.seqNo].attempts))
         && (forall i :: i in s.phase.due ==> exists t :: t in s'.tasks && t.seqNo == i)
         && (forall t, u :: t in s'.tasks && u in s'.tasks && t.seqNo == u.seqNo ==> t == u)
  }

  /** The rate check: refused, the row goes back to the queue with its attempts as they were; allowed, one call
      leaves for the recipient. */
  ghost predicate RateDone(s: State, s': State, t: Task, allowed: bool, at: Time)
    requires s.phase.Sends? && t.seqNo < |s.recipients|
  {
    && s'.recipients == s.recipients && s'.rate == s.rate && s'.erased == s.erased && s'.ticks == s.ticks && s'.clock == at
    && s'.status == s.status && s'.nextSendAt == s.nextSendAt
    && if allowed then
         && s'.rows == s.rows && s'.phase == s.phase
         && s'.calls == s.calls + [Call(t.seqNo, s.recipients[t.seqNo].to, None)]
         && s'.tasks == s.tasks - {t} + {t.(call := Some(|s.calls|))}
       else
         && BackInQueue(s.rows, s'.rows, {t.seqNo}, at) && s'.calls == s.calls
         && s'.tasks == s.tasks - {t} && s'.phase == Sends(s.phase.now, s.phase.results + [Throttled(1)])
  }

  /** How a send's answer ends it: Meta took it; it came too fast and has attempts left; it may have arrived; or
      it was refused, and then the whole broadcast with it when the error is nobody's own. */
  predicate AnswerMeans(t: Task, result: SendResult, own: bool, status: Status, outcome: Outcome) {
    if result.Accepted? then status.Sent? && outcome.Done?
    else if IsThrottle(result) && t.attempts + 1 < 8 then status.Queued? && outcome == Throttled(t.attempts + 1)
    else if result.status < 300 || result.status >= 500 then status.Uncertain? && outcome.Done?
    else status.Failed? && outcome == (if IsHalt(result, own) && !IsThrottle(result) then Halt else Done)
  }

  /** Meta's answer: the row, unless it was erased meanwhile, says what became of the send, and so does the tick. */
  ghost predicate AnswerDone(s: State, s': State, t: Task, result: SendResult, at: Time)
    requires s.phase.Sends? && t.seqNo < |s.recipients| && t.call.Some? && t.call.value < |s.calls|
  {
    && s' == s.(rows := s'.rows, calls := s'.calls, tasks := s.tasks - {t}, phase := s'.phase, clock := at)
    && s'.calls == s.calls[t.call.value := s.calls[t.call.value].(answer := Some(result))]
    && s'.rows.Keys == s.rows.Keys && s'.rows - {t.seqNo} == s.rows - {t.seqNo}
    && s'.phase.Sends? && s'.phase.now == s.phase.now && |s'.phase.results| == |s.phase.results| + 1
    && s'.phase.results[..|s.phase.results|] == s.phase.results
    && var outcome := s'.phase.results[|s.phase.results|];
       && (exists status :: AnswerMeans(t, result, s.recipients[t.seqNo].own.Some?, status, outcome))
       && (t.seqNo in s.rows ==>
             && var row := s'.rows[t.seqNo];
                && AnswerMeans(t, result, s.recipients[t.seqNo].own.Some?, row.status, outcome)
                && row.attempts == t.attempts + 1 && row.updatedAt == at
                && (result.Accepted? ==> row.messageId == Some(result.id))
                && (row.status.Uncertain? || row.status.Failed? ==> row.messageId.None?)
                && (row.status.Queued? ==> row.messageId == s.rows[t.seqNo].messageId))
  }

  /** An accepted request: everybody it names is queued once, and the first tick is due. */
  predicate CreateDone(s: State, recipients: seq<Recipient>, now: Time) {
    && s.recipients == recipients && s.status.Running? && s.nextSendAt == now && s.calls == [] && s.tasks == {} && s.phase.Idle?
    && (forall i: nat :: i in s.rows ==> i < |recipients| && s.rows[i] == Row(Queued, 0, None, now))
    && (forall i: nat {:trigger recipients[i]} :: i < |recipients| ==> i in s.rows)
  }

  lemma CreateKeepsItsWord(recipients: seq<Recipient>, rate: int, now: Time)
    ensures CreateDone(Create(recipients, rate, now), recipients, now)
  {
  }

  lemma {:induction false} MostThrottledIsMost(results: seq<Outcome>)
    ensures MostThrottled(results).Some? <==> exists a :: Throttled(a) in results
    ensures MostThrottled(results).Some? ==> MostAttempts(results, MostThrottled(results).value)
  {
    if results != [] {
      var rest, last := results[..|results| - 1], results[|results| - 1];
      MostThrottledIsMost(rest);
      assert forall o :: o in results <==> o in rest || o == last;
    }
  }

  lemma MustHaltExactly(s: State)
    requires s.phase.Sends?
    ensures MustHalt(s) <==> s.status.Running? && (Halt in s.phase.results || BreakerTripped(s.rows))
  {
    assert WithStatus(s.rows, Failed) == FailedRows(s);
    assert WithStatus(s.rows, Sent) == {} <==> NobodySent(s) by {
      assert forall i :: i in WithStatus(s.rows, Sent) <==> i in s.rows && s.rows[i].status.Sent?;
    }
  }

  lemma NobodyOpenExactly(s: State)
    ensures NobodyOpen(s) <==> OpenRows(s.rows) == {}
  {
    assert forall i :: i in OpenRows(s.rows) <==> i in s.rows && (s.rows[i].status.Queued? || s.rows[i].status.Sending?);
  }

  lemma FinishKeepsItsWord(s: State, at: Time)
    requires s.phase.Sends?
    ensures FinishDone(s, Finish(s, at), at)
  {
    MostThrottledIsMost(s.phase.results);
    MustHaltExactly(s);
    NobodyOpenExactly(s);
    var throttled := MostThrottled(s.phase.results);
    assert throttled.Some? ==> MostAttempts(s.phase.results, throttled.value);
  }

  lemma CancelKeepsItsWord(s: State, at: Time)
    ensures CancelDone(s, EndBroadcast(s, Some(Stopped), at).(clock := at), at)
  {
  }

  lemma StartKeepsItsWord(s: State, now: Time)
    ensures StartDone(s, Select(s, now), now)
  {
  }

  lemma SkipKeepsItsWord(s: State, reserved: nat)
    requires s.phase.Selected? && Waits(s, reserved)
    ensures SkipDone(s, Skip(s), reserved)
  {
  }

  lemma ClaimKeepsItsWord(s: State, reserved: nat, due: set<nat>, at: Time)
    requires s.phase.Selected? && !Waits(s, reserved) && FirstQueued(s.rows, Share(s, reserved), due)
    ensures ClaimDone(s, Claim(s, due, at), reserved, due, at)
  {
    NobodyOpenExactly(s);
    forall i, j: nat | i in due && j !in due && Has(s, j, Queued) ensures i < j {
      assert j in WithStatus(s.rows, Queued) - due;
    }
    assert due == WithStatus(s.rows, Queued) ==> forall j: nat :: Has(s, j, Queued) ==> j in due;
  }

  lemma RequeueKeepsItsWord(rows: map<nat, Row>, which: set<nat>, at: Time)
    ensures BackInQueue(rows, Requeued(rows, which, at), which, at)
  {
  }

  lemma LookupKeepsItsWord(s: State, token: Token, at: Time)
    requires s.phase.Looking?
    ensures LookupDone(s, AfterToken(s, token, at), token, at)
  {
    RequeueKeepsItsWord(s.rows, s.phase.due, at);
    if token.Known? {
      SendsOfClaim(s.rows, s.phase.due);
    }
  }

  lemma SendsOfClaim(rows: map<nat, Row>, due: set<nat>)
    ensures forall t :: t in StartTasks(rows, due) ==> t.seqNo in due && t.call.None? && (t.seqNo in rows ==> t.attempts == rows[t.seqNo].attempts)
    ensures forall i :: i in due ==> exists t :: t in StartTasks(rows, due) && t.seqNo == i
    ensures forall t, u :: t in StartTasks(rows, due) && u in StartTasks(rows, due) && t.seqNo == u.seqNo ==> t == u
  {
    forall i | i in due ensures exists t :: t in StartTasks(rows, due) && t.seqNo == i {
      assert Task(i, if i in rows then rows[i].attempts else 0, None) in StartTasks(rows, due);
    }
  }

  lemma RateKeepsItsWord(s: State, t: Task, allowed: bool, at: Time)
    requires s.phase.Sends? && t.seqNo < |s.recipients|
    ensures RateDone(s, AfterRateCheck(s, t, allowed, at), t, allowed, at)
  {
    RequeueKeepsItsWord(s.rows, {t.seqNo}, at);
  }

  lemma SettledMeans(row: Row, t: Task, result: SendResult, own: bool, at: Time)
    ensures AnswerMeans(t, result, own, Settled(row, t, result, own, at).status, OutcomeOf(t, result, own))
  {
    if result.NotOk? {
      VerdictsByCode(result, own);
    }
  }

  lemma AnswerKeepsItsWord(s: State, t: Task, result: SendResult, at: Time)
    requires s.phase.Sends? && t.seqNo < |s.recipients| && t.call.Some? && t.call.value < |s.calls|
    ensures AnswerDone(s, AfterAnswer(s, t, result, at), t, result, at)
  {
    var own := s.recipients[t.seqNo].own.Some?;
    var row := if t.seqNo in s.rows then s.rows[t.seqNo] else Row(Queued, 0, None, at);
    SettledMeans(row, t, result, own, at);
    var results := AfterAnswer(s, t, result, at).phase.results;
    assert AnswerMeans(t, result, own, Settled(row, t, result, own, at).status, results[|s.phase.results|]);
  }

  // ---- Over runs: a halting answer halts -------------------------------------------------------

  /** The running tick met an error nobody of the broadcast can escape, or the broadcast has ended for good. */
  predicate HaltsOrEnded(s: State) {
    (s.phase.Sends? && Halt in s.phase.results) || (s.phase.Idle? && s.tasks == {} && !s.status.Running?)
  }

  /** Nobody is claimed any more, whatever happens but a death of the tick; and a death loses the answer: the
      broadcast goes on as if it had not come. */
  lemma HaltIsLostOnlyByDeath(s: State, step: Step)
    requires Possible(s, step) && HaltsOrEnded(s)
    ensures s.status.Running? ==> (HaltsOrEnded(Apply(s, step)) <==> !step.BCrash?)
    ensures s.phase.Idle? ==> HaltsOrEnded(Apply(s, step))
    ensures !step.BSelect? && !step.BClaim?
    ensures s.status.Running? && step.BCrash? ==> Apply(s, step).status.Running? && Apply(s, step).rows == s.rows
  {
    if step.BFinish? {
      FinishKeepsItsWord(s, step.at);
    } else if step.BAnswer? {
      AnswerKeepsItsWord(s, step.t, step.result, step.at);
    }
  }

  /** The tick lives to its end. */
  ghost predicate TickSurvives(steps: seq<Step>)
    decreases |steps|
  {
    steps != [] ==> steps[0].BFinish? || (!steps[0].BCrash? && TickSurvives(steps[1..]))
  }

  /** No step of the run begins a tick or claims anybody. */
  predicate ClaimsNobody(steps: seq<Step>) { forall i :: 0 <= i < |steps| ==> !steps[i].BSelect? && !steps[i].BClaim? }

  /** Whoever was queued is cancelled and stays so. */
  predicate NobodyQueued(s: State) { forall i :: i in s.rows ==> !s.rows[i].status.Queued? }

  lemma {:induction false} EndedClaimsNobody(s: State, steps: seq<Step>)
    requires Run(s, steps) && s.phase.Idle? && s.tasks == {} && !s.status.Running? && NobodyQueued(s)
    ensures ClaimsNobody(steps) && After(s, steps).status == s.status && NobodyQueued(After(s, steps))
    ensures After(s, steps).calls == s.calls
    decreases |steps|
  {
    if steps != [] {
      EndedClaimsNobody(Apply(s, steps[0]), steps[1..]);
      assert forall i :: 0 < i < |steps| ==> steps[i] == steps[1..][i - 1];
    }
  }

  lemma FinishEnds(s: State, at: Time)
    requires Possible(s, BFinish(at)) && Halt in s.phase.results
    ensures var s' := Finish(s, at);
            && s'.phase.Idle? && s'.tasks == {} && !s'.status.Running? && NobodyQueued(s')
            && (s.status.Running? ==> s'.status.Halted?)
  {
    FinishKeepsItsWord(s, at);
  }

  lemma {:induction false} HaltingTickEnds(s: State, steps: seq<Step>)
    requires Run(s, steps) && s.phase.Sends? && Halt in s.phase.results && TickSurvives(steps)
    ensures ClaimsNobody(steps)
    ensures !After(s, steps).phase.Sends? ==> !After(s, steps).status.Running? && NobodyQueued(After(s, steps))
    decreases |steps|
  {
    if steps != [] {
      HaltIsLostOnlyByDeath(s, steps[0]);
      var s' := Apply(s, steps[0]);
      if steps[0].BFinish? {
        FinishEnds(s, steps[0].at);
        EndedClaimsNobody(s', steps[1..]);
        StaysIdle(s', steps[1..]);
      } else {
        StaysSends(s, steps[0]);
        HaltingTickEnds(s', steps[1..]);
      }
      assert forall i :: 0 < i < |steps| ==> steps[i] == steps[1..][i - 1];
    }
  }

  lemma StaysSends(s: State, step: Step)
    requires Possible(s, step) && s.phase.Sends? && Halt in s.phase.results && !step.BFinish? && !step.BCrash?
    ensures Apply(s, step).phase.Sends? && Halt in Apply(s, step).phase.results
  {
  }

  lemma {:induction false} StaysIdle(s: State, steps: seq<Step>)
    requires Run(s, steps) && s.phase.Idle? && s.tasks == {} && !s.status.Running?
    ensures After(s, steps).phase.Idle?
    decreases |steps|
  {
    if steps != [] {
      StaysIdle(Apply(s, steps[0]), steps[1..]);
    }
  }

  /** Main result: after an answer with an error that nobody of the broadcast can escape, such as a revoked
      token, no run whose tick lives to its end claims anybody again; once the tick is over the broadcast has
      ended, halted unless it was stopped before, and nobody is queued. */
  lemma HaltingAnswerHalts(s: State, t: Task, result: SendResult, at: Time, steps: seq<Step>)
    requires Possible(s, BAnswer(t, result, at)) && Run(Apply(s, BAnswer(t, result, at)), steps) && TickSurvives(steps)
    requires IsHalt(result, s.recipients[t.seqNo].own.Some?) && !IsThrottle(result)
    ensures ClaimsNobody(steps)
    ensures var s' := After(Apply(s, BAnswer(t, result, at)), steps);
            !s'.phase.Sends? ==> !s'.status.Running? && NobodyQueued(s')
  {
    AnswerKeepsItsWord(s, t, result, at);
    HaltingTickEnds(Apply(s, BAnswer(t, result, at)), steps);
  }

  // ---- A death loses the answer ---------------------------------------------------------------

  const REVOKED: SendResult := NotOk(400, Some(190))

  /** The first recipient is sent to, and Meta answers that the token was revoked. */
  function UntilTheAnswer(now: Time): seq<Step> {
    [BSelect(now), BClaim(0, {0}, now), BToken(Known, now), BRate(Task(0, 0, None), true, now)]
  }

  /** The tick dies before its end, and the next one goes on to the second recipient. */
  function DeathAndNextTick(now: Time, later: Time): seq<Step> {
    [BAnswer(Task(0, 0, Some(0)), REVOKED, now), BCrash, BSelect(later), BClaim(0, {1}, later)]
  }

  lemma {:induction false} RunsJoin(s: State, a: seq<Step>, b: seq<Step>)
    requires Run(s, a) && Run(After(s, a), b)
    ensures Run(s, a + b) && After(s, a + b) == After(After(s, a), b)
    decreases |a|
  {
    if a == [] {
      assert a + b == b;
    } else {
      RunsJoin(Apply(s, a[0]), a[1..], b);
      assert (a + b)[1..] == a[1..] + b;
    }
  }

  lemma OneATick()
    ensures Pacing(60).perTick == 1
  {
    PaceIsTheFastest(60);
  }

  lemma ClaimsTheFirst(s: State, i: nat, at: Time)
    requires s.phase == Selected(at) && s.nextSendAt <= at && s.rate == 60 && s.clock <= at
    requires Has(s, i, Queued) && forall j: nat :: Has(s, j, Queued) ==> i <= j
    ensures Possible(s, BClaim(0, {i}, at))
  {
    OneATick();
    assert i in WithStatus(s.rows, Queued);
    forall j: nat | j in WithStatus(s.rows, Queued) - {i} ensures i < j {
      assert Has(s, j, Queued);
    }
  }

  lemma UntilTheCall(a: Recipient, b: Recipient, now: Time) returns (u: State)
    ensures var s := Create([a, b], 60, now);
            Run(s, UntilTheAnswer(now)) && After(s, UntilTheAnswer(now)) == u
    ensures u.phase == Sends(now, []) && u.tasks == {Task(0, 0, Some(0))} && u.status.Running? && u.clock == now
    ensures u.recipients == [a, b] && u.rate == 60 && |u.calls| == 1 && u.nextSendAt == now + Pacing(60).tickMs
    ensures u.rows.Keys == {0, 1} && u.rows[0].status.Sending? && u.rows[1].status.Queued?
  {
    var s, steps := Create([a, b], 60, now), UntilTheAnswer(now);
    var s1 := Select(s, now);
    assert s1.rows.Keys == {0, 1} && s1.rows[0] == s.rows[0] && s1.rows[1] == s.rows[1];
    ClaimsTheFirst(s1, 0, now);
    var s2 := Claim(s1, {0}, now);
    var s3 := AfterToken(s2, Known, now);
    assert s3.tasks == {Task(0, 0, None)};
    u := AfterRateCheck(s3, Task(0, 0, None), true, now);
    assert u.tasks == {Task(0, 0, Some(0))};
    StepsOf(s, steps, s1, s2, s3, u);
  }

  lemma RevokedFails(u: State, now: Time)
    requires Possible(u, BAnswer(Task(0, 0, Some(0)), REVOKED, now)) && u.rows.Keys == {0, 1}
    ensures var s := Apply(u, BAnswer(Task(0, 0, Some(0)), REVOKED, now));
            && s == u.(rows := s.rows, calls := s.calls, tasks := u.tasks - {Task(0, 0, Some(0))}, phase := s.phase, clock := now)
            && s.rows.Keys == {0, 1} && s.rows[0].status.Failed? && s.rows[1] == u.rows[1]
  {
    VerdictsByCode(REVOKED, u.recipients[0].own.Some?);
  }

  lemma NextTickGoesOn(s: State, later: Time)
    requires s.phase.Idle? && s.status.Running? && s.rate == 60 && s.nextSendAt <= later && s.clock <= later
    requires s.rows.Keys == {0, 1} && s.rows[0].status.Failed? && s.rows[1].status.Queued?
    ensures Possible(s, BSelect(later)) && Possible(Select(s, later), BClaim(0, {1}, later))
    ensures var s' := Claim(Select(s, later), {1}, later); s'.status.Running? && Has(s', 1, Sending)
  {
    var s1 := Select(s, later);
    assert Has(s1, 0, Failed) && Has(s1, 1, Queued);
    ClaimsTheFirst(s1, 1, later);
  }

  lemma DiesAndGoesOn(u: State, now: Time, later: Time)
    requires u.phase == Sends(now, []) && u.tasks == {Task(0, 0, Some(0))} && u.status.Running? && u.clock == now
    requires |u.recipients| == 2 && u.rate == 60 && |u.calls| == 1 && u.nextSendAt <= later && now <= later
    requires u.rows.Keys == {0, 1} && u.rows[0].status.Sending? && u.rows[1].status.Queued?
    ensures Run(u, DeathAndNextTick(now, later))
    ensures var s := After(u, DeathAndNextTick(now, later)); s.status.Running? && Has(s, 1, Sending)
  {
    var steps := DeathAndNextTick(now, later);
    RevokedFails(u, now);
    var s1 := Apply(u, steps[0]);
    var s2 := Apply(s1, BCrash);
    NextTickGoesOn(s2, later);
    StepsOf(u, steps, s1, s2, Select(s2, later), Claim(Select(s2, later), {1}, later));
  }

  /** It does happen, from the request on: Meta says the token was revoked, the tick dies before its end, and the
      next tick claims the second recipient. */
  lemma DeathLosesTheHalt(a: Recipient, b: Recipient, now: Time) returns (steps: seq<Step>)
    ensures Run(Create([a, b], 60, now), steps)
    ensures IsHalt(REVOKED, true) && exists k :: 0 <= k < |steps| && steps[k].BAnswer? && steps[k].result == REVOKED
    ensures var s := After(Create([a, b], 60, now), steps); s.status.Running? && Has(s, 1, Sending)
  {
    var u := UntilTheCall(a, b, now);
    var later := now + Pacing(60).tickMs;
    DiesAndGoesOn(u, now, later);
    RunsJoin(Create([a, b], 60, now), UntilTheAnswer(now), DeathAndNextTick(now, later));
    steps := UntilTheAnswer(now) + DeathAndNextTick(now, later);
    assert steps[4] == BAnswer(Task(0, 0, Some(0)), REVOKED, now);
  }

  // ---- Over runs: the report is right ----------------------------------------------------------

  ghost predicate AcceptedAs(s: State, i: nat, id: string) {
    exists c :: 0 <= c < |s.calls| && s.calls[c].seqNo == i && s.calls[c].answer == Some(SendResult.Accepted(id))
  }

  /** A recipient's message id is the one Meta accepted a call for it with. */
  ghost predicate SentExactly(s: State) {
    forall i, id :: i in s.rows ==> (s.rows[i].messageId == Some(id) <==> AcceptedAs(s, i, id))
  }

  /** Rows keep their message ids, and calls their answers; new calls have none. */
  ghost predicate KeepsIds(s: State, s': State) {
    && (forall i :: i in s'.rows ==> i in s.rows && s'.rows[i].messageId == s.rows[i].messageId)
    && |s.calls| <= |s'.calls| && s'.calls[..|s.calls|] == s.calls
    && forall c :: |s.calls| <= c < |s'.calls| ==> s'.calls[c].answer.None?
  }

  lemma SameIdsSameReport(s: State, s': State)
    requires SentExactly(s) && KeepsIds(s, s')
    ensures SentExactly(s')
  {
    assert forall c :: 0 <= c < |s.calls| ==> s'.calls[c] == s.calls[c];
    forall i, id | i in s'.rows ensures AcceptedAs(s', i, id) <==> AcceptedAs(s, i, id) {
      if AcceptedAs(s', i, id) {
        var c :| 0 <= c < |s'.calls| && s'.calls[c].seqNo == i && s'.calls[c].answer == Some(SendResult.Accepted(id));
        assert c < |s.calls| && s.calls[c] == s'.calls[c];
      }
      if AcceptedAs(s, i, id) {
        var c :| 0 <= c < |s.calls| && s.calls[c].seqNo == i && s.calls[c].answer == Some(SendResult.Accepted(id));
        assert s'.calls[c] == s.calls[c];
      }
    }
  }

  lemma TicksKeepIds(s: State, step: Step)
    requires Possible(s, step) && (step.BSelect? || step.BSkip? || step.BClaim? || step.BToken?)
    ensures KeepsIds(s, Apply(s, step))
  {
  }

  lemma EndsKeepIds(s: State, step: Step)
    requires Possible(s, step) && (step.BFinish? || step.BCancel?)
    ensures KeepsIds(s, Apply(s, step))
  {
  }

  lemma OthersKeepIds(s: State, step: Step)
    requires Possible(s, step) && (step.BRate? || step.BErase? || step.BCrash?)
    ensures KeepsIds(s, Apply(s, step))
  {
  }

  /** The send's own call is the only one that may have reached its recipient, so no other was accepted. */
  lemma NoneAcceptedBefore(s: State, t: Task, i: nat, id: string)
    requires Safe(s) && t in s.tasks && t.call.Some? && t.seqNo == i
    ensures !AcceptedAs(s, i, id)
  {
    if c :| 0 <= c < |s.calls| && s.calls[c].seqNo == i && s.calls[c].answer == Some(SendResult.Accepted(id)) {
      assert Reached(s, c, i);
    }
  }

  lemma AnswersOnce(s: State, t: Task, result: SendResult, at: Time, i: nat, id: string)
    requires Safe(s) && s.phase.Sends? && t in s.tasks && t.seqNo < |s.recipients| && t.call.Some?
    ensures AcceptedAs(AfterAnswer(s, t, result, at), i, id) <==>
              if i == t.seqNo then result == SendResult.Accepted(id) else AcceptedAs(s, i, id)
  {
    var s' := AfterAnswer(s, t, result, at);
    assert forall c :: 0 <= c < |s.calls| && c != t.call.value ==> s'.calls[c] == s.calls[c];
    assert s'.calls[t.call.value].answer == Some(result) && s'.calls[t.call.value].seqNo == t.seqNo;
    if i == t.seqNo {
      NoneAcceptedBefore(s, t, i, id);
    } else if AcceptedAs(s, i, id) {
      var c :| 0 <= c < |s.calls| && s.calls[c].seqNo == i && s.calls[c].answer == Some(SendResult.Accepted(id));
      assert c != t.call.value && s'.calls[c] == s.calls[c];
    }
  }

  lemma AnswerKeepsReport(s: State, t: Task, result: SendResult, at: Time)
    requires RowsOk(s) && Safe(s) && SentExactly(s) && Possible(s, BAnswer(t, result, at))
    ensures SentExactly(AfterAnswer(s, t, result, at))
  {
    var s' := AfterAnswer(s, t, result, at);
    forall i, id | i in s'.rows ensures s'.rows[i].messageId == Some(id) <==> AcceptedAs(s', i, id) {
      AnswersOnce(s, t, result, at, i, id);
      assert s.rows[i].messageId == Some(id) <==> AcceptedAs(s, i, id);
    }
  }

  lemma StepKeepsReport(s: State, step: Step)
    requires Inv(s) && SentExactly(s) && Possible(s, step)
    ensures SentExactly(Apply(s, step))
  {
    if step.BAnswer? {
      AnswerKeepsReport(s, step.t, step.result, step.at);
    } else {
      if step.BSelect? || step.BSkip? || step.BClaim? || step.BToken? {
        TicksKeepIds(s, step);
      } else if step.BFinish? || step.BCancel? {
        EndsKeepIds(s, step);
      } else {
        OthersKeepIds(s, step);
      }
      SameIdsSameReport(s, Apply(s, step));
    }
  }

  lemma {:induction false} RunKeepsReport(s: State, steps: seq<Step>)
    requires Inv(s) && SentExactly(s) && Run(s, steps)
    ensures Inv(After(s, steps)) && SentExactly(After(s, steps))
    decreases |steps|
  {
    if steps != [] {
      StepKeepsInv(s, steps[0]);
      StepKeepsReport(s, steps[0]);
      RunKeepsReport(Apply(s, steps[0]), steps[1..]);
    }
  }

  /** Main result: over every run from the request on, with cancels, erasures, throttling and deaths anywhere, a
      recipient not erased is reported sent, with a message id, exactly when Meta accepted a call for it with
      that id. */
  lemma SentExactlyWhenAccepted(recipients: seq<Recipient>, rate: int, now: Time, steps: seq<Step>)
    requires Run(Create(recipients, rate, now), steps)
    ensures var s := After(Create(recipients, rate, now), steps);
            forall i, id :: i in s.rows ==>
              (s.rows[i].status.Sent? && s.rows[i].messageId == Some(id) <==> AcceptedAs(s, i, id))
  {
    CreateIsValid(recipients, rate, now);
    RunKeepsReport(Create(recipients, rate, now), steps);
  }
}
