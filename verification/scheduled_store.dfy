/** The `scheduled_sends` table and the methods that write it in place. `rows` and `failed` are stored;
    the ghost fields are the continuations in flight and the log of calls the proofs speak about. */
module ScheduledStore {
  import opened Core
  import opened MetaSend
  import opened Scheduled
  import opened ScheduledRequests

  class Store {
    var rows: map<Key, Row>
    var failed: map<Key, seq<FailedEvent>>
    ghost var tasks: set<Task>
    ghost var runs: nat
    ghost var calls: seq<Call>
    ghost var lives: map<Key, nat>

    ghost function Table(): State
      reads this
    {
      State(rows, tasks, runs, calls, lives, failed)
    }

    ghost predicate Valid()
      reads this
    {
      Inv(Table())
    }

    constructor ()
      ensures Valid() && Table() == Empty
    {
      rows, failed := map[], map[];
      tasks, runs, calls, lives := {}, 0, [], map[];
      new;
      assert OpenKeys(rows) == {};
    }

    /** Creates or replaces the row under `k`. Rows that may have reached the customer stay. */
    method UpsertScheduled(k: Key, req: Request, now: Time) returns (state: PutResult)
      requires Valid() && req.sendAt < req.expiresAt
      modifies this
      ensures Valid() && Table() == Put(old(Table()), k, req, now)
      ensures state == PutOutcome(old(Table()), k)
      ensures PutDone(old(Table()), Table(), k, req, now, state)
    {
      ghost var before := Table();
      PutKeepsItsWord(before, k, req, now);
      if k in rows && (rows[k].status.Sending? || rows[k].status.Sent? || rows[k].status.Uncertain?) {
        return NotPending;
      }
      if k in rows && rows[k].status.Pending? {
        rows := rows[k := rows[k].(request := req, components := req.components, nextAttemptAt := req.sendAt,
                                   attempts := 0, updatedAt := now)];
        state := Replaced;
      } else {
        var open := |OpenKeys(rows)|;
        if open >= MAX_PENDING_SCHEDULED {
          return Full;
        }
        rows := rows[k := Row(req, req.components, Pending, req.sendAt, 0, None, None, now)];
        state := Created;
      }
      Kept(before, SPut(k, req, now));
    }

    method CancelScheduled(k: Key, now: Time) returns (state: CancelResult)
      requires Valid()
      modifies this
      ensures Valid() && Table() == Cancel(old(Table()), k, now)
      ensures state == CancelOutcome(old(Table()), k)
      ensures CancelDone(old(Table()), Table(), k, now, state)
    {
      ghost var before := Table();
      CancelKeepsItsWord(before, k, now);
      if k !in rows {
        return Missing;
      }
      if rows[k].status.Cancelled? || rows[k].status.Failed? {
        return Unchanged;
      }
      if !rows[k].status.Pending? {
        return TooLate;
      }
      rows := rows[k := rows[k].(status := Cancelled, components := None, updatedAt := now)];
      state := CancelledNow;
      Kept(before, SCancel(k, now));
    }

    /** The lemmas' step invariant, for the method that just took `step` from `before`. */
    ghost method Kept(before: State, step: Step)
      requires Inv(before) && Possible(before, step) && !MakesStray(before, step)
      requires Table() == Apply(before, step)
      ensures Valid()
    {
      StepKeepsInv(before, step);
    }

    /** Ends `ended` with one event each. */
    method EndScheduled(ended: set<Key>, status: Status, reason: Reason, now: Time)
      requires ended <= rows.Keys
      modifies this
      ensures Table() == End(old(Table()), ended, status, reason, now)
    {
      failed := EndedEvents(failed, rows, ended, reason, now);
      rows := EndedRows(rows, ended, status, reason, now);
    }

    /** The start of a tick: stale rows end as unknown, expired ones as failed. */
    method EndStaleAndExpired(now: Time)
      requires Valid() && Free(Table())
      modifies this
      ensures Valid() && Table() == ExpireDue(SweepStale(old(Table()), now), now)
      ensures TickStartDone(old(Table()), Table(), now)
      ensures forall k :: k in rows && rows[k].status.Pending? ==> rows[k].request.expiresAt > now
    {
      ghost var before := Table();
      var stale := set k | k in rows && rows[k].status.Sending? && rows[k].updatedAt < now - STALE_SENDING_MS;
      EndScheduled(stale, Uncertain, OutcomeLost, now);
      Kept(before, SSweep(now));
      ghost var swept := Table();
      var expired := set k | k in rows && rows[k].status.Pending? && rows[k].nextAttemptAt <= now && rows[k].request.expiresAt <= now;
      EndScheduled(expired, Failed, Expired, now);
      Kept(swept, SExpire(now));
      TickStartKeepsItsWord(before, now);
      forall k | k in rows && rows[k].status.Pending?
        ensures rows[k].request.expiresAt > now
      {
        ExpiryPassMissesNothing(swept, now, k);
      }
    }

    /** No token for this tick: nothing is spent, the due rows wait. */
    method PostponeDue(now: Time, at: Time)
      requires Valid() && Free(Table())
      modifies this
      ensures Valid() && Table() == Postpone(old(Table()), now, at)
      ensures PostponeDone(old(Table()), Table(), now, at)
      ensures forall k :: k in rows && rows[k].status.Pending? && rows[k].nextAttemptAt <= now ==> rows[k].request.expiresAt <= now
      ensures forall k :: k in rows ==> k in old(rows) && rows[k].attempts == old(rows)[k].attempts && rows[k].status == old(rows)[k].status
    {
      ghost var before := Table();
      rows := PostponedRows(rows, now, at);
      Kept(before, SPostpone(now, at));
      PostponeKeepsItsWord(before, now, at);
    }

    /** Moves up to `limit` due rows to `sending`, earliest first. */
    method ClaimDue(now: Time, limit: nat) returns (picked: set<Key>)
      requires Valid() && Free(Table())
      modifies this
      ensures EarliestDue(old(Table()), now, limit, picked)
      ensures Valid() && Table() == Claim(old(Table()), now, picked)
      ensures ClaimDone(old(Table()), Table(), now, picked)
    {
      ghost var before := Table();
      var due := set k | k in rows && rows[k].status.Pending? && rows[k].nextAttemptAt <= now;
      picked := EarliestOf(rows, due, limit);
      tasks := tasks + ClaimTasks(before, picked, now);
      rows := ClaimedRows(rows, picked, now);
      runs := runs + 1;
      Kept(before, SClaim(now, limit, picked));
      ClaimKeepsItsWord(before, now, picked);
    }

    /** The send of one claimed row, from the rate check's answer to the moment the call leaves. Returns
        the request Meta is called with, or None when the send stops here. */
    method AfterRateCheck(t: Task, allowed: bool, now: Time) returns (request: Option<Request>)
      requires Valid() && t in tasks && t.call.None?
      modifies this
      ensures Valid()
      ensures Table() == if allowed then Proceed(old(Table()), t, now) else RateRefused(old(Table()), t, now)
      ensures if allowed then ProceedDone(old(Table()), Table(), t, now) else RefusalDone(old(Table()), Table(), t, now)
      ensures request.Some? <==> |calls| == |old(calls)| + 1
      ensures request.Some? ==> old(IsSending(Table(), t.key)) && request.value == old(rows)[t.key].request
                                && now < request.value.expiresAt
    {
      ghost var before := Table();
      ghost var step := if allowed then SProceed(t, now) else SRateRefused(t, now);
      if allowed { ProceedKeepsItsWord(before, t, now); } else { RefusalKeepsItsWord(before, t, now); }
      tasks := tasks - {t};
      request := None;
      if !allowed {
        if t.key in rows && rows[t.key].status.Sending? {
          rows := rows[t.key := rows[t.key].(status := Pending, updatedAt := now,
                                nextAttemptAt := Min(now + ThrottleDelayMs(1), t.row.request.expiresAt))];
        }
      } else if t.key in rows && rows[t.key].status.Sending? {
        if rows[t.key].request.expiresAt <= now {
          rows := rows[t.key := rows[t.key].(status := Failed, reason := Some(Expired), components := None, updatedAt := now)];
          failed := failed[t.key := (if t.key in failed then failed[t.key] else []) +
                                    [FailedEvent(t.row.request.to, t.row.request.phone, Expired, now)]];
        } else {
          request := Some(t.row.request);
          tasks := tasks + {t.(call := Some(|calls|))};
          calls := calls + [Call(t.key, Life(before, t.key), t.row.request, None)];
        }
      }
      Kept(before, step);
    }

    /** Meta answered, or the call failed: the row settles, or waits for another attempt. */
    method AfterAnswer(t: Task, result: SendResult, now: Time)
      requires Valid() && t in tasks && t.call.Some?
      modifies this
      ensures Valid() && Table() == Answer(old(Table()), t, result, now)
      ensures AnswerDone(old(Table()), Table(), t, result, now)
    {
      ghost var before := Table();
      tasks := tasks - {t};
      calls := calls[t.call.value := calls[t.call.value].(answer := Some(result))];
      if t.key in rows && rows[t.key].status.Sending? {
        var row := SettledRow(rows[t.key], t, result, now);
        if row.status.Failed? || row.status.Uncertain? {
          failed := failed[t.key := (if t.key in failed then failed[t.key] else []) +
                                    [FailedEvent(t.row.request.to, t.row.request.phone, row.reason.value, now)]];
        }
        rows := rows[t.key := row];
      }
      Kept(before, SAnswer(t, result, now));
      AnswerKeepsItsWord(before, t, result, now);
    }

    /** Erasure, also mid-send, or retention of an ended row. */
    method DeleteRow(k: Key)
      modifies this
      ensures Table() == Delete(old(Table()), k)
      ensures rows == old(rows) - {k} && failed == old(failed) && tasks == old(tasks) && calls == old(calls) && runs == old(runs)
      ensures old(Valid() && !MakesStray(Table(), SDelete(k))) ==> Valid()
    {
      ghost var before := Table();
      rows := rows - {k};
      lives := lives[k := Life(before, k) + 1];
      if Inv(before) && !MakesStray(before, SDelete(k)) {
        Kept(before, SDelete(k));
      }
    }
  }

  /** The row after Meta's answer, as the branches of the settle write it. */
  method SettledRow(was: Row, t: Task, result: SendResult, now: Time) returns (row: Row)
    ensures row == Settled(was, t, result, now)
    ensures row.status.Sent? <==> result.Accepted?
    ensures row.status.Pending? ==> result.NotOk? && VerdictOf(result, true).VThrottled? && row.attempts < MAX_THROTTLED_ATTEMPTS
  {
    row := was;
    var attempts := t.row.attempts + 1;
    if result.Accepted? {
      row := row.(status := Sent, messageId := Some(result.id), reason := None);
    } else {
      var verdict := VerdictOf(result, true);
      if verdict.VThrottled? && attempts < MAX_THROTTLED_ATTEMPTS {
        row := row.(status := Pending, nextAttemptAt := Min(now + ThrottleDelayMs(attempts), t.row.request.expiresAt));
      } else {
        row := if verdict.VUnknown? then row.(status := Uncertain, messageId := None, reason := Some(OutcomeLost))
               else row.(status := Failed, messageId := None, reason := Some(Rejected));
      }
    }
    row := row.(attempts := attempts, updatedAt := now, components := if row.status.Pending? then row.components else None);
  }

  /** `ORDER BY next_attempt_at LIMIT limit` over the rows of `keys`. */
  method EarliestOf(rows: map<Key, Row>, keys: set<Key>, limit: nat) returns (picked: set<Key>)
    requires keys <= rows.Keys
    ensures picked <= keys && |picked| <= limit && (|picked| < limit ==> picked == keys)
    ensures forall p, k :: p in picked && k in keys - picked ==> rows[p].nextAttemptAt <= rows[k].nextAttemptAt
  {
    picked := {};
    var waiting := keys;
    while |picked| < limit && waiting != {}
      invariant picked !! waiting && picked + waiting == keys
      invariant |picked| <= limit
      invariant forall p, k :: p in picked && k in waiting ==> rows[p].nextAttemptAt <= rows[k].nextAttemptAt
      decreases waiting
    {
      var first := Earliest(rows, waiting);
      picked := picked + {first};
      waiting := waiting - {first};
    }
  }

  /** The row of `keys` whose attempt is due first. */
  method Earliest(rows: map<Key, Row>, keys: set<Key>) returns (first: Key)
    requires keys != {} && keys <= rows.Keys
    ensures first in keys
    ensures forall k :: k in keys ==> rows[first].nextAttemptAt <= rows[k].nextAttemptAt
  {
    first :| first in keys;
    var rest := keys - {first};
    while rest != {}
      invariant rest <= keys && first in keys
      invariant forall k :: k in keys - rest ==> rows[first].nextAttemptAt <= rows[k].nextAttemptAt
      decreases rest
    {
      var k :| k in rest;
      if rows[k].nextAttemptAt < rows[first].nextAttemptAt {
        first := k;
      }
      rest := rest - {k};
    }
  }
}
