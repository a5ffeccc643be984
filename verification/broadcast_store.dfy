/** A broadcast's tables and the methods that write them in place. The row and its recipients are
    stored; the ghost fields are the tick in progress and the log of calls the proofs speak about. */
module BroadcastStore {
  import opened Core
  import opened MetaSend
  import opened BroadcastRequest
  import opened BroadcastOutcomes
  import opened Broadcasts

  class Store {
    const recipients: seq<Recipient>
    const rate: int
    var status: BroadcastStatus
    var nextSendAt: Time
    var rows: map<nat, Row>
    ghost var erased: nat
    ghost var phase: Phase
    ghost var tasks: set<Task>
    ghost var calls: seq<Call>
    ghost var ticks: seq<Tick>
    ghost var clock: Time

    ghost function Table(): State
      reads this
    {
      State(recipients, rate, status, nextSendAt, rows, erased, phase, tasks, calls, ticks, clock)
    }

    ghost predicate Valid()
      reads this
    {
      Inv(Table())
    }

    /** Stores an accepted request: one queued row a recipient. */
    constructor (recipients: seq<Recipient>, rate: int, now: Time)
      ensures Valid() && Table() == Create(recipients, rate, now)
      ensures CreateDone(Table(), recipients, now)
    {
      this.recipients, this.rate := recipients, rate;
      status, nextSendAt := Running, now;
      rows := map i: nat {:trigger recipients[i]} | 0 <= i < |recipients| :: Row(Queued, 0, None, now);
      erased, phase, tasks, calls, ticks, clock := 0, Idle, {}, [], [], now;
      new;
      CreateIsValid(recipients, rate, now);
      CreateKeepsItsWord(recipients, rate, now);
    }

    /** The lemmas' step invariant, for the method that just took `step` from `before`. */
    ghost method Kept(before: State, step: Step)
      requires Inv(before) && Possible(before, step) && Table() == Apply(before, step)
      ensures Valid()
    {
      StepKeepsInv(before, step);
    }

    /** The start of a tick: rows a dead run left `sending` end as unknown. */
    method StartTick(now: Time)
      requires Valid() && Possible(Table(), BSelect(now))
      modifies this
      ensures Valid() && Table() == Select(old(Table()), now)
      ensures StartDone(old(Table()), Table(), now)
      ensures forall i :: i in rows && rows[i].status.Sending? ==> rows[i].updatedAt >= now - STALE_SENDING_MS
    {
      ghost var before := Table();
      var stale := set i | i in rows && rows[i].status.Sending? && rows[i].updatedAt < now - STALE_SENDING_MS;
      rows := Moved(rows, stale, Uncertain, now);
      phase, clock := Selected(now), now;
      Kept(before, BSelect(now));
      StartKeepsItsWord(before, now);
    }

    /** Claims this tick's recipients, lowest numbers first; None when the broadcast waits. */
    method ClaimDue(now: Time, reserved: nat, at: Time) returns (claimed: Option<set<nat>>)
      requires Valid() && phase == Selected(now) && at >= clock
      modifies this
      ensures Valid()
      ensures claimed.None? <==> old(nextSendAt) > now || Pacing(rate).perTick <= reserved
      ensures claimed.None? ==> SkipDone(old(Table()), Table(), reserved)
      ensures claimed.Some? ==> ClaimDone(old(Table()), Table(), reserved, claimed.value, at)
      ensures claimed.None? ==> Waits(old(Table()), reserved) && Table() == Skip(old(Table()))
      ensures claimed.Some? ==> !Waits(old(Table()), reserved)
                                && FirstQueued(old(rows), Share(old(Table()), reserved), claimed.value)
                                && Table() == Claim(old(Table()), claimed.value, at)
    {
      ghost var before := Table();
      if nextSendAt > now {
        phase := Idle;
        Kept(before, BSkip(reserved));
        return None;
      }
      var pace := Pacing(rate);
      var perTick := pace.perTick - reserved;
      if perTick <= 0 {
        nextSendAt := now + pace.tickMs;
        phase := Idle;
        Kept(before, BSkip(reserved));
        return None;
      }
      var due := LowestOf(WithStatus(rows, Queued), perTick);
      clock := at;
      if due == {} {
        phase := Idle;
        FinishBroadcastIfDone();
      } else {
        rows := Moved(rows, due, Sending, at);
        phase := Looking(now, due);
      }
      Kept(before, BClaim(reserved, due, at));
      ClaimKeepsItsWord(before, reserved, due, at);
      claimed := Some(due);
    }

    /** Puts the recipients that are still `sending` back in the queue, one at a time. */
    method Requeue(seqs: set<nat>, at: Time)
      modifies this`rows
      ensures rows == Requeued(old(rows), seqs, at) && BackInQueue(old(rows), rows, seqs, at)
    {
      ghost var was := rows;
      var left := seqs;
      while left != {}
        invariant left <= seqs
        invariant rows.Keys == was.Keys
        invariant forall i :: i in rows ==>
                    rows[i] == if i in seqs - left && was[i].status.Sending? then was[i].(status := Queued, updatedAt := at) else was[i]
        decreases left
      {
        var i :| i in left;
        if i in rows && rows[i].status.Sending? {
          rows := rows[i := rows[i].(status := Queued, updatedAt := at)];
        }
        left := left - {i};
      }
      assert rows == Requeued(was, seqs, at);
    }

    /** The token's lookup came back. Returns whether the tick sends. */
    method AfterTokenLookup(now: Time, due: set<nat>, token: Token, at: Time) returns (sends: bool)
      requires Valid() && phase == Looking(now, due) && at >= clock
      modifies this
      ensures Valid() && Table() == AfterToken(old(Table()), token, at)
      ensures LookupDone(old(Table()), Table(), token, at) && (sends <==> token.Known?)
    {
      ghost var before := Table();
      sends := token.Known?;
      clock := at;
      if sends {
        nextSendAt := now + Pacing(rate).tickMs;
        phase, tasks, ticks := Sends(now, []), StartTasks(rows, due), ticks + [Tick(now, |due|)];
      } else {
        phase := Idle;
        GiveBack(due, token, at);
      }
      Kept(before, BToken(token, at));
      LookupKeepsItsWord(before, token, at);
    }

    /** No token: the claimed recipients go back to the queue, and the broadcast halts or waits. */
    method GiveBack(due: set<nat>, token: Token, at: Time)
      requires !token.Known? && phase.Idle? && clock == at
      modifies this`status, this`rows, this`nextSendAt
      ensures Table() == var back := old(Table()).(rows := Requeued(old(rows), due, at));
                         if token.Missing? then EndBroadcast(back, Some(Halted), at)
                         else back.(nextSendAt := at + TOKEN_RETRY_MS)
    {
      Requeue(due, at);
      if token.Missing? {
        End(Some(Halted), at);
      } else {
        nextSendAt := at + TOKEN_RETRY_MS;
      }
    }

    /** The account's rate check for one recipient came back: whom Meta is called for, if anybody. */
    method AfterRateCheck(t: Task, allowed: bool, at: Time) returns (to: Option<string>)
      requires Valid() && Possible(Table(), BRate(t, allowed, at))
      modifies this
      ensures Valid() && Table() == Broadcasts.AfterRateCheck(old(Table()), t, allowed, at)
      ensures RateDone(old(Table()), Table(), t, allowed, at)
      ensures allowed ==> to == Some(recipients[t.seqNo].to)
      ensures !allowed ==> to == None
    {
      ghost var before := Table();
      clock := at;
      tasks := tasks - {t};
      if !allowed {
        Requeue({t.seqNo}, at);
        phase := phase.(results := phase.results + [Throttled(1)]);
        to := None;
      } else {
        to := Some(recipients[t.seqNo].to);
        tasks := tasks + {t.(call := Some(|calls|))};
        calls := calls + [Call(t.seqNo, recipients[t.seqNo].to, None)];
      }
      Kept(before, BRate(t, allowed, at));
      RateKeepsItsWord(before, t, allowed, at);
    }

    /** Meta answered, or the call failed: the recipient's row settles, unless it was erased. */
    method AfterMetaAnswer(t: Task, result: SendResult, at: Time) returns (outcome: Outcome)
      requires Valid() && Possible(Table(), BAnswer(t, result, at))
      modifies this
      ensures Valid() && Table() == AfterAnswer(old(Table()), t, result, at)
      ensures AnswerDone(old(Table()), Table(), t, result, at)
      ensures phase.Sends? && phase.results == old(phase).results + [outcome]
    {
      ghost var before := Table();
      outcome := SettleRecipient(t, result, recipients[t.seqNo].own.Some?, at);
      clock, tasks := at, tasks - {t};
      phase := phase.(results := phase.results + [outcome]);
      calls := calls[t.call.value := calls[t.call.value].(answer := Some(result))];
      Kept(before, BAnswer(t, result, at));
      AnswerKeepsItsWord(before, t, result, at);
    }

    /** The recipient's row by Meta's answer: sent, back in the queue, or ended. */
    method SettleRecipient(t: Task, result: SendResult, own: bool, at: Time) returns (outcome: Outcome)
      modifies this`rows
      ensures outcome == OutcomeOf(t, result, own)
      ensures rows == if t.seqNo in old(rows) then old(rows)[t.seqNo := Settled(old(rows)[t.seqNo], t, result, own, at)] else old(rows)
    {
      var attempts := t.attempts + 1;
      if result.Accepted? {
        Settle(t.seqNo, Sent, Some(result.id), attempts, at);
        outcome := Done;
      } else {
        var verdict := VerdictOf(result, own);
        if verdict.VThrottled? && attempts < MAX_THROTTLED_ATTEMPTS {
          if t.seqNo in rows {
            rows := rows[t.seqNo := rows[t.seqNo].(status := Queued, attempts := attempts, updatedAt := at)];
          }
          outcome := Throttled(attempts);
        } else {
          Settle(t.seqNo, if verdict.VUnknown? then Uncertain else Failed, None, attempts, at);
          outcome := if verdict.VHalt? then Halt else Done;
        }
      }
    }

    method Settle(i: nat, status: Status, messageId: Option<string>, attempts: nat, at: Time)
      modifies this`rows
      ensures rows == if i in old(rows) then old(rows)[i := Row(status, attempts, messageId, at)] else old(rows)
    {
      if i in rows {
        rows := rows[i := Row(status, attempts, messageId, at)];
      }
    }

    /** Every send of the tick has ended: halt, pause or go on, and complete when nothing is open. */
    method FinishTick(results: seq<Outcome>, at: Time)
      requires Valid() && Possible(Table(), BFinish(at)) && phase.results == results
      modifies this
      ensures Valid() && Table() == Finish(old(Table()), at)
      ensures FinishDone(old(Table()), Table(), at)
    {
      ghost var before := Table();
      phase, clock := Idle, at;
      HaltOrPause(results, at);
      if !status.Running? {
        End(None, at);
      }
      FinishBroadcastIfDone();
      Kept(before, BFinish(at));
      FinishKeepsItsWord(before, at);
    }

    method HaltOrPause(results: seq<Outcome>, at: Time)
      modifies this`status, this`rows, this`nextSendAt
      ensures Table() == Paused(old(Table()), results, at)
    {
      var throttled := LongestThrottle(results);
      if Halt in results {
        End(Some(Halted), at);
      } else if WithStatus(rows, Sent) == {} && |WithStatus(rows, Failed)| >= FAILURE_BREAKER {
        End(Some(Halted), at);
      } else if throttled.Some? {
        nextSendAt := at + ThrottleDelayMs(throttled.value);
      }
    }

    /** Ends a running broadcast as `how` (None: it already ended) and cancels what is still queued. */
    method End(how: Option<BroadcastStatus>, now: Time)
      modifies this`status, this`rows
      ensures Table() == EndBroadcast(old(Table()), how, now)
    {
      if how.Some? && status.Running? {
        status := how.value;
      }
      if !status.Running? {
        rows := Moved(rows, WithStatus(rows, Queued), Cancelled, now);
      }
    }

    method FinishBroadcastIfDone()
      modifies this`status
      ensures Table() == FinishIfDone(old(Table()))
    {
      if OpenRows(rows) == {} && status.Running? {
        status := Completed;
      }
    }

    /** The operator cancels. */
    method Cancel(at: Time)
      requires Valid() && at >= clock
      modifies this
      ensures Valid() && Table() == EndBroadcast(old(Table()), Some(Stopped), at).(clock := at)
      ensures CancelDone(old(Table()), Table(), at)
    {
      ghost var before := Table();
      End(Some(Stopped), at);
      clock := at;
      Kept(before, BCancel(at));
      CancelKeepsItsWord(before, at);
    }

    /** Erases one recipient, also while its send is in flight. */
    method Erase(i: nat)
      requires Valid() && i in rows
      modifies this
      ensures Valid() && rows == old(rows) - {i}
      ensures Table() == old(Table()).(rows := rows, erased := old(erased) + 1)
    {
      ghost var before := Table();
      rows := rows - {i};
      erased := erased + 1;
      Kept(before, BErase(i));
    }
  }

  /** The longest wait the tick's throttled sends ask for. */
  method LongestThrottle(results: seq<Outcome>) returns (attempts: Option<int>)
    ensures attempts == MostThrottled(results)
    ensures forall k, a :: 0 <= k < |results| && results[k] == Throttled(a) ==> attempts.Some? && a <= attempts.value
  {
    attempts := None;
    for i := 0 to |results|
      invariant attempts == MostThrottled(results[..i])
      invariant forall k, a :: 0 <= k < i && results[k] == Throttled(a) ==> attempts.Some? && a <= attempts.value
    {
      assert results[..i + 1][..i] == results[..i];
      if results[i].Throttled? {
        attempts := Some(if attempts.Some? then Max(attempts.value, results[i].attempts) else results[i].attempts);
      }
    }
    assert results[..|results|] == results;
  }

  /** `ORDER BY seq LIMIT limit` over the queued recipients. */
  method LowestOf(queued: set<nat>, limit: nat) returns (due: set<nat>)
    ensures due <= queued && |due| <= limit && (|due| < limit ==> due == queued)
    ensures forall d, i :: d in due && i in queued - due ==> d < i
  {
    due := {};
    var waiting := queued;
    while |due| < limit && waiting != {}
      invariant due !! waiting && due + waiting == queued
      invariant |due| <= limit
      invariant forall d, i :: d in due && i in waiting ==> d < i
      decreases waiting
    {
      var first := Lowest(waiting);
      due := due + {first};
      waiting := waiting - {first};
    }
  }

  method Lowest(numbers: set<nat>) returns (first: nat)
    requires numbers != {}
    ensures first in numbers && forall i :: i in numbers ==> first <= i
  {
    first :| first in numbers;
    var rest := numbers - {first};
    while rest != {}
      invariant rest <= numbers && first in numbers
      invariant forall i :: i in numbers ==> i in rest || first <= i
      decreases rest
    {
      var i :| i in rest;
      if i < first {
        first := i;
      }
      rest := rest - {i};
    }
  }
}
