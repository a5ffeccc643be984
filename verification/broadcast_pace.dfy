/** How fast a broadcast sends (apps/gateway/src/broadcasts.ts pacing, and the tick's `next_send_at`). */
module BroadcastPace {
  import opened Core
  import opened MetaSend
  import opened BroadcastRequest
  import opened Broadcasts

  /** Ticks that sent start at least `tickMs` apart and send at most `perTick`. */
  ghost predicate Paced(ticks: seq<Tick>, pace: Pace) {
    && (forall k :: 0 <= k < |ticks| ==> ticks[k].sends <= pace.perTick)
    && (forall k :: 0 < k < |ticks| ==> ticks[k - 1].start + pace.tickMs <= ticks[k].start)
  }

  ghost predicate PaceInv(s: State) {
    var pace := Pacing(s.rate);
    && Paced(s.ticks, pace)
    && (s.ticks != [] ==> var last := s.ticks[|s.ticks| - 1].start;
                          last + pace.tickMs <= s.nextSendAt && last <= s.clock)
    && (!s.phase.Idle? ==> s.phase.now <= s.clock)
    && (s.phase.Looking? ==> s.nextSendAt <= s.phase.now && |s.phase.due| <= pace.perTick)
  }

  lemma EndKeepsClock(s: State, status: Option<BroadcastStatus>, at: Time)
    ensures var s' := EndBroadcast(s, status, at);
            s'.ticks == s.ticks && s'.nextSendAt == s.nextSendAt && s'.clock == s.clock && s'.phase == s.phase && s'.rate == s.rate
  {
  }

  lemma PausedKeepsClock(idle: State, results: seq<Outcome>, at: Time)
    ensures var s' := Paused(idle, results, at);
            && s'.ticks == idle.ticks && s'.clock == idle.clock && s'.phase == idle.phase && s'.rate == idle.rate
            && (s'.nextSendAt == idle.nextSendAt || s'.nextSendAt >= at + 5_000)
  {
    EndKeepsClock(idle, Some(Halted), at);
  }

  /** After a tick the pause is over only once the tick is. */
  lemma FinishKeepsPace(s: State, at: Time)
    requires PaceInv(s) && s.phase.Sends? && at >= s.clock && Pacing(s.rate).tickMs <= 5_000
    ensures PaceInv(Finish(s, at))
  {
    var idle := s.(phase := Idle, clock := at);
    PausedKeepsClock(idle, s.phase.results, at);
    EndKeepsClock(Paused(idle, s.phase.results, at), None, at);
  }

  lemma TokenKeepsPace(s: State, token: Token, at: Time)
    requires PaceInv(s) && s.phase.Looking? && at >= s.clock
    ensures PaceInv(AfterToken(s, token, at))
  {
    EndKeepsClock(s.(phase := Idle, clock := at, rows := Requeued(s.rows, s.phase.due, at)), Some(Halted), at);
  }

  lemma StepKeepsPace(s: State, step: Step)
    requires PaceInv(s) && Possible(s, step) && Pacing(s.rate).tickMs <= 5_000
    ensures PaceInv(Apply(s, step))
  {
    match step
    case BFinish(at) => FinishKeepsPace(s, at);
    case BToken(token, at) => TokenKeepsPace(s, token, at);
    case BCancel(at) => EndKeepsClock(s, Some(Stopped), at);
    case _ =>
  }

  lemma {:induction false} RunKeepsPace(s: State, steps: seq<Step>)
    requires PaceInv(s) && Run(s, steps) && Pacing(s.rate).tickMs <= 5_000
    ensures PaceInv(After(s, steps)) && After(s, steps).rate == s.rate
    decreases |steps|
  {
    if steps != [] {
      StepKeepsPace(s, steps[0]);
      StepKeepsRequest(s, steps[0]);
      RunKeepsPace(Apply(s, steps[0]), steps[1..]);
    }
  }

  // ---- Below 15 messages a minute -----------------------------------------------------------

  lemma {:induction false} OneMoreStep(s: State, steps: seq<Step>, step: Step)
    requires Run(s, steps) && Possible(After(s, steps), step)
    ensures Run(s, steps + [step]) && After(s, steps + [step]) == Apply(After(s, steps), step)
    decreases |steps|
  {
    if steps == [] {
      assert steps + [step] == [step];
      assert Run(Apply(s, step), []);
      assert After(s, [step]) == After(Apply(s, step), []);
    } else {
      OneMoreStep(Apply(s, steps[0]), steps[1..], step);
      assert (steps + [step])[1..] == steps[1..] + [step];
    }
  }

  /** One tick of a fresh broadcast to one recipient, up to the token. */
  lemma TickStarts(s: State, steps: seq<Step>, now: Time) returns (more: seq<Step>)
    requires Run(s, steps)
    requires var a := After(s, steps);
             && a.phase.Idle? && a.status.Running? && a.tasks == {} && |a.recipients| == 1
             && a.rows.Keys == {0} && a.rows[0].status.Queued?
             && a.nextSendAt <= now && a.clock <= now
    ensures Run(s, more)
    ensures var a, b := After(s, steps), After(s, more);
            && b.ticks == a.ticks + [Tick(now, 1)] && b.phase == Sends(now, []) && b.recipients == a.recipients
            && b.rate == a.rate && b.status == a.status
            && b.tasks == {Task(0, a.rows[0].attempts, None)} && b.rows.Keys == {0} && b.rows[0].status.Sending? && b.clock == now
  {
    var a := After(s, steps);
    OneMoreStep(s, steps, BSelect(now));
    OnlyOneIsDue(Select(a, now), now);
    OneMoreStep(s, steps + [BSelect(now)], BClaim(0, {0}, now));
    var claimed := Claim(Select(a, now), {0}, now);
    OneMoreStep(s, steps + [BSelect(now)] + [BClaim(0, {0}, now)], BToken(Known, now));
    more := steps + [BSelect(now)] + [BClaim(0, {0}, now)] + [BToken(Known, now)];
    assert StartTasks(claimed.rows, {0}) == {Task(0, a.rows[0].attempts, None)};
  }

  lemma OnlyOneIsDue(s: State, now: Time)
    requires s.phase == Selected(now) && s.nextSendAt <= now && s.clock <= now && s.rows.Keys == {0} && s.rows[0].status.Queued?
    ensures Possible(s, BClaim(0, {0}, now))
    ensures var claimed := Claim(s, {0}, now);
            claimed.phase == Looking(now, {0}) && claimed.rows == map[0 := s.rows[0].(status := Sending, updatedAt := now)]
  {
    assert WithStatus(s.rows, Queued) == {0};
    assert Claim(s, {0}, now).rows.Keys == {0};
  }

  /** The gateway's own rate check refuses the one send, and the tick asks for its pause. */
  lemma RefusedTickEnds(s: State, steps: seq<Step>, now: Time) returns (more: seq<Step>)
    requires Run(s, steps)
    requires var a := After(s, steps);
             && a.phase == Sends(now, []) && a.status.Running? && a.recipients != [] && a.clock == now
             && a.tasks == {Task(0, 0, None)} && a.rows.Keys == {0} && a.rows[0].status.Sending?
    ensures Run(s, more)
    ensures var a, b := After(s, steps), After(s, more);
            && b.ticks == a.ticks && b.phase.Idle? && b.status.Running? && b.tasks == {} && b.recipients == a.recipients
            && b.rate == a.rate && b.rows.Keys == {0} && b.rows[0].status.Queued?
            && b.nextSendAt == now + 5_000 && b.clock == now
  {
    var a := After(s, steps);
    var t := Task(0, 0, None);
    OneMoreStep(s, steps, BRate(t, false, now));
    var refused := AfterRateCheck(a, t, false, now);
    assert refused.tasks == {} && refused.phase.results == [Throttled(1)] && refused.rows[0].status.Queued?;
    OneMoreStep(s, steps + [BRate(t, false, now)], BFinish(now));
    more := steps + [BRate(t, false, now)] + [BFinish(now)];
    PauseAfterRefusal(refused, now);
  }

  lemma PauseAfterRefusal(refused: State, now: Time)
    requires refused.phase.Sends? && refused.phase.results == [Throttled(1)] && refused.status.Running?
    requires refused.rows.Keys == {0} && refused.rows[0].status.Queued?
    ensures Finish(refused, now) == refused.(phase := Idle, clock := now, nextSendAt := now + 5_000)
  {
    assert [Throttled(1)][..0] == [];
    assert MostThrottled([Throttled(1)]) == Some(1);
    assert WithStatus(refused.rows, Failed) == {};
    assert 0 in OpenRows(refused.rows);
  }

  /** Below 15 a minute a rate refusal asks for a shorter pause than the tick, and the next tick starts early. */
  lemma SlowRatesCanBreakPace(rate: int) returns (recipients: seq<Recipient>, steps: seq<Step>)
    requires 0 <= rate < 15
    ensures Run(Create(recipients, rate, 0), steps)
    ensures !Paced(After(Create(recipients, rate, 0), steps).ticks, Pacing(rate))
  {
    recipients := [Recipient("34600000001", None)];
    var s := Create(recipients, rate, 0);
    TickFitsThrottlePause(rate);
    assert recipients[0] == s.recipients[0];
    assert s.rows.Keys == {0};
    steps := TickStarts(s, [], 0);
    steps := RefusedTickEnds(s, steps, 0);
    steps := TickStarts(s, steps, 5_000);
    var ticks := After(s, steps).ticks;
    assert ticks == [Tick(0, 1), Tick(5_000, 1)];
    assert ticks[0].start + Pacing(rate).tickMs > ticks[1].start;
  }

  /** The promised pace holds over every run exactly for rates of 15 messages a minute and up. */
  lemma PaceHoldsFrom15AMinute(rate: int)
    requires rate >= 0
    ensures rate >= 15 <==>
            forall recipients: seq<Recipient>, now, steps ::
              Run(Create(recipients, rate, now), steps) ==>
                Paced(After(Create(recipients, rate, now), steps).ticks, Pacing(rate))
  {
    TickFitsThrottlePause(rate);
    if rate >= 15 {
      forall recipients: seq<Recipient>, now, steps | Run(Create(recipients, rate, now), steps)
        ensures Paced(After(Create(recipients, rate, now), steps).ticks, Pacing(rate))
      {
        RunKeepsPace(Create(recipients, rate, now), steps);
      }
    } else {
      var recipients, steps := SlowRatesCanBreakPace(rate);
    }
  }

  // ---- Sends in a window --------------------------------------------------------------------

  /** Recipients claimed by ticks that start in [from, to]. */
  ghost function SendsWithin(ticks: seq<Tick>, from: Time, to: Time): nat {
    if ticks == [] then 0
    else
      var last := ticks[|ticks| - 1];
      SendsWithin(ticks[..|ticks| - 1], from, to) + if from <= last.start <= to then last.sends else 0
  }

  lemma {:induction false} NarrowWindow(ticks: seq<Tick>, from: Time, to: Time, to': Time)
    requires to' <= to && forall k :: 0 <= k < |ticks| ==> ticks[k].start <= to' || to < ticks[k].start
    ensures SendsWithin(ticks, from, to) == SendsWithin(ticks, from, to')
  {
    if ticks != [] {
      NarrowWindow(ticks[..|ticks| - 1], from, to, to');
    }
  }

  lemma {:induction false} EmptyWindow(ticks: seq<Tick>, from: Time, to: Time)
    requires to < from
    ensures SendsWithin(ticks, from, to) == 0
  {
    if ticks != [] {
      EmptyWindow(ticks[..|ticks| - 1], from, to);
    }
  }

  lemma {:induction false} StartsGrow(ticks: seq<Tick>, pace: Pace, k: nat)
    requires Paced(ticks, pace) && pace.tickMs >= 0 && k < |ticks| - 1
    ensures ticks[k].start + pace.tickMs <= ticks[|ticks| - 1].start
    decreases |ticks| - k
  {
    if k < |ticks| - 2 {
      StartsGrow(ticks, pace, k + 1);
    }
  }

  /** What a paced broadcast may send in a window of `window` milliseconds. */
  function WindowLimit(pace: Pace, window: int): int
    requires pace.tickMs >= 1
  {
    pace.perTick * (window / pace.tickMs + 1)
  }

  lemma NonNegativeLimit(pace: Pace, window: int)
    requires pace.perTick >= 1 && pace.tickMs >= 1 && window >= 0
    ensures WindowLimit(pace, window) >= pace.perTick
  {
    GrowingQuotient(0, window, pace.tickMs);
    GrowingProduct(pace.perTick, 1, window / pace.tickMs + 1);
  }

  /** The ticks before one inside the window all start at least a tick before it. */
  lemma RestOfWindow(ticks: seq<Tick>, pace: Pace, from: Time, to: Time)
    requires Paced(ticks, pace) && pace.tickMs >= 0 && ticks != []
    requires ticks[|ticks| - 1].start <= to
    ensures var rest, last := ticks[..|ticks| - 1], ticks[|ticks| - 1].start;
            SendsWithin(rest, from, to) == SendsWithin(rest, from, last - pace.tickMs)
  {
    var rest, last := ticks[..|ticks| - 1], ticks[|ticks| - 1].start;
    forall k | 0 <= k < |rest| ensures rest[k].start <= last - pace.tickMs { StartsGrow(ticks, pace, k); }
    NarrowWindow(rest, from, to, last - pace.tickMs);
  }

  /** Any window of W milliseconds holds at most perTick * (W / tickMs + 1) sends of a paced broadcast. */
  lemma {:induction false} WindowBound(ticks: seq<Tick>, pace: Pace, from: Time, window: int)
    requires Paced(ticks, pace) && pace.perTick >= 1 && pace.tickMs >= 1 && window >= 0
    ensures SendsWithin(ticks, from, from + window) <= WindowLimit(pace, window)
    decreases |ticks|
  {
    var to := from + window;
    NonNegativeLimit(pace, window);
    if ticks != [] {
      var rest, last := ticks[..|ticks| - 1], ticks[|ticks| - 1];
      if from <= last.start <= to {
        var to' := last.start - pace.tickMs;
        RestOfWindow(ticks, pace, from, to);
        if to' < from {
          EmptyWindow(rest, from, to');
        } else {
          WindowBound(rest, pace, from, to' - from);
          OneTickMore(pace, last.start - from, window);
        }
      } else {
        WindowBound(rest, pace, from, window);
      }
    }
  }

  lemma GrowingProduct(a: int, m: int, n: int)
    requires a >= 0 && m <= n
    ensures a * m <= a * n
  {
  }

  lemma QuotientIs(x: int, d: int, q: int)
    requires d >= 1 && d * q <= x < d * q + d
    ensures x / d == q
  {
    var p := x / d;
    assert x == d * p + x % d;
    assert d * (p + 1) == d * p + d;
    assert d * (q + 1) == d * q + d;
    if p < q {
      GrowingProduct(d, p + 1, q);
    } else if p > q {
      GrowingProduct(d, q + 1, p);
    }
  }

  lemma OneQuotientLess(x: int, d: int)
    requires d >= 1
    ensures (x - d) / d == x / d - 1
  {
    var q := x / d;
    assert x == d * q + x % d;
    assert d * (q - 1) == d * q - d;
    QuotientIs(x - d, d, q - 1);
  }

  lemma GrowingQuotient(x: int, y: int, d: int)
    requires d >= 1 && x <= y
    ensures x / d <= y / d
  {
    var p, q := x / d, y / d;
    assert x == d * p + x % d;
    assert y == d * q + y % d;
    assert d * (q + 1) == d * q + d;
    if p > q {
      GrowingProduct(d, q + 1, p);
    }
  }

  lemma OneTickMore(pace: Pace, elapsed: int, window: int)
    requires pace.perTick >= 1 && pace.tickMs >= 1 && pace.tickMs <= elapsed <= window
    ensures WindowLimit(pace, elapsed - pace.tickMs) + pace.perTick <= WindowLimit(pace, window)
  {
    OneQuotientLess(elapsed, pace.tickMs);
    GrowingQuotient(elapsed, window, pace.tickMs);
    OneMoreTime(pace.perTick, elapsed / pace.tickMs, window / pace.tickMs);
  }

  lemma OneMoreTime(a: int, m: int, n: int)
    requires a >= 0 && m <= n
    ensures a * (m - 1 + 1) + a <= a * (n + 1)
  {
    GrowingProduct(a, m, n);
    assert a * (n + 1) == a * n + a;
    assert m - 1 + 1 == m;
  }

  /** A broadcast at 15 messages a minute or more never sends faster than its pace, in any window of any run. */
  lemma WindowNeverExceedsPace(recipients: seq<Recipient>, rate: int, now: Time, steps: seq<Step>, from: Time, window: nat)
    requires rate >= 15 && Run(Create(recipients, rate, now), steps)
    ensures var pace := Pacing(rate);
            SendsWithin(After(Create(recipients, rate, now), steps).ticks, from, from + window)
            <= WindowLimit(pace, window)
  {
    TickFitsThrottlePause(rate);
    RunKeepsPace(Create(recipients, rate, now), steps);
    WindowBound(After(Create(recipients, rate, now), steps).ticks, Pacing(rate), from, window);
  }
}
