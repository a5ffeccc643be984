/** A broadcast whose sends may throw. A tick waits for its sends with `Promise.all`
    (apps/gateway/src/gateway.ts `broadcastStep`), which rejects at the first throw: the tick ends there,
    without its sweep, while its other sends go on and still write their rows. */
module BroadcastThrows {
  import opened Core
  import opened MetaSend
  import opened BroadcastRequest
  import opened Broadcasts
  import Pace = BroadcastPace

  /** `loose` are the sends that outlived their tick. */
  datatype World = World(base: State, loose: set<Task>)

  function Start(recipients: seq<Recipient>, rate: int, now: Time): World { World(Create(recipients, rate, now), {}) }

  /** A send may throw before its row is settled, or after (`settled`). */
  datatype Move =
    | InTick(step: Step)
    | Throws(t: Task, settled: Option<SendResult>, at: Time)
    | LooseRate(t: Task, allowed: bool, at: Time)
    | LooseAnswer(t: Task, result: SendResult, at: Time)
    | LooseThrows(t: Task)

  predicate HasCall(s: State, t: Task) { t.seqNo < |s.recipients| && t.call.Some? && t.call.value < |s.calls| }

  predicate MayHappen(w: World, m: Move) {
    match m
    case InTick(step) => Possible(w.base, step)
    case Throws(t, settled, at) =>
      w.base.phase.Sends? && t in w.base.tasks && at >= w.base.clock && (settled.Some? ==> HasCall(w.base, t))
    case LooseRate(t, _, at) => t in w.loose && t.call.None? && t.seqNo < |w.base.recipients| && at >= w.base.clock
    case LooseAnswer(t, _, at) => t in w.loose && HasCall(w.base, t) && at >= w.base.clock
    case LooseThrows(t) => t in w.loose
  }

  /** The tick is over, and what it was sending goes on. */
  function Thrown(w: World, t: Task, settled: Option<SendResult>, at: Time): World
    requires w.base.phase.Sends? && (settled.Some? ==> HasCall(w.base, t))
  {
    var left := if settled.Some? then AfterAnswer(w.base, t, settled.value, at) else w.base;
    World(left.(phase := Idle, tasks := {}, clock := at), w.loose + (w.base.tasks - {t}))
  }

  function LooseChecked(w: World, t: Task, allowed: bool, at: Time): World
    requires t.seqNo < |w.base.recipients|
  {
    var s := w.base;
    if !allowed then World(s.(rows := Requeued(s.rows, {t.seqNo}, at), clock := at), w.loose - {t})
    else World(s.(calls := s.calls + [Call(t.seqNo, s.recipients[t.seqNo].to, None)], clock := at),
               w.loose - {t} + {t.(call := Some(|s.calls|))})
  }

  /** The settle names the row and nothing else: it does not ask whether the row is still `sending`. */
  function LooseSettled(w: World, t: Task, result: SendResult, at: Time): World
    requires HasCall(w.base, t)
  {
    var s := w.base;
    World(s.(calls := s.calls[t.call.value := s.calls[t.call.value].(answer := Some(result))],
             rows := if t.seqNo in s.rows
                     then s.rows[t.seqNo := Settled(s.rows[t.seqNo], t, result, s.recipients[t.seqNo].own.Some?, at)] else s.rows,
             clock := at),
          w.loose - {t})
  }

  function Do(w: World, m: Move): World
    requires MayHappen(w, m)
  {
    match m
    case InTick(step) => World(Apply(w.base, step), if step.BCrash? then {} else w.loose)
    case Throws(t, settled, at) => Thrown(w, t, settled, at)
    case LooseRate(t, allowed, at) => LooseChecked(w, t, allowed, at)
    case LooseAnswer(t, result, at) => LooseSettled(w, t, result, at)
    case LooseThrows(t) => w.(loose := w.loose - {t})
  }

  predicate Happens(w: World, moves: seq<Move>)
    decreases |moves|
  {
    moves == [] || (MayHappen(w, moves[0]) && Happens(Do(w, moves[0]), moves[1..]))
  }

  function Finally(w: World, moves: seq<Move>): World
    requires Happens(w, moves)
    decreases |moves|
  {
    if moves == [] then w else Finally(Do(w, moves[0]), moves[1..])
  }

  // ---- At most once -------------------------------------------------------------------------

  /** The send's own call, if made, is open, and no other call may have reached its recipient. */
  ghost predicate OwnsItsCalls(s: State, t: Task) {
    && t.seqNo < |s.recipients|
    && (t.call.Some? ==>
          t.call.value < |s.calls| && s.calls[t.call.value].seqNo == t.seqNo && s.calls[t.call.value].answer.None?)
    && (forall c :: 0 <= c < |s.calls| && Reached(s, c, t.seqNo) ==> t.call == Some(c))
  }

  /** A loose send's row waits for it, or was swept as unknown; no tick touches it. */
  ghost predicate LooseOk(w: World) {
    && (forall t :: t in w.loose ==> OwnsItsCalls(w.base, t) && Abandoned(w.base, t.seqNo))
    && (forall t, u :: t in w.loose && u in w.loose && t.seqNo == u.seqNo ==> t == u)
  }

  ghost predicate Inv(w: World) { RowsOk(w.base) && Safe(w.base) && LooseOk(w) }

  /** A step of a tick leaves a loose send's calls alone. */
  lemma StepKeepsOwnCalls(s: State, step: Step, t: Task)
    requires Safe(s) && Possible(s, step) && OwnsItsCalls(s, t) && Abandoned(s, t.seqNo)
    ensures OwnsItsCalls(Apply(s, step), t)
  {
    var s' := Apply(s, step);
    NewCallIsATask(s, step, t.seqNo);
    StepKeepsRequest(s, step);
    OldCallsKept(s, step, t);
    forall c | 0 <= c < |s'.calls| && Reached(s', c, t.seqNo) ensures t.call == Some(c) {
      assert c < |s.calls| && Reached(s, c, t.seqNo);
    }
  }

  lemma OldCallsKept(s: State, step: Step, t: Task)
    requires TasksOk(s) && Possible(s, step) && Abandoned(s, t.seqNo)
    ensures |s.calls| <= |Apply(s, step).calls|
    ensures forall c :: 0 <= c < |s.calls| && s.calls[c].seqNo == t.seqNo ==> Apply(s, step).calls[c] == s.calls[c]
    ensures forall c :: 0 <= c < |s.calls| ==> Apply(s, step).calls[c].seqNo == s.calls[c].seqNo
  {
  }

  lemma TickKeepsInv(w: World, step: Step)
    requires Inv(w) && Possible(w.base, step)
    ensures Inv(Do(w, InTick(step)))
  {
    StepIsSafe(w.base, step);
    StepKeepsRows(w.base, step);
    forall t | t in w.loose ensures OwnsItsCalls(Apply(w.base, step), t) && Abandoned(Apply(w.base, step), t.seqNo) {
      AbandonedStays(w.base, step, t.seqNo);
      StepKeepsOwnCalls(w.base, step, t);
    }
  }

  /** The tick is dropped: its sends are then held by nothing. */
  lemma DroppedAreAbandoned(s: State, at: Time)
    requires RowsOk(s) && Safe(s)
    ensures var idle := s.(phase := Idle, tasks := {}, clock := at);
            && RowsOk(idle) && Safe(idle)
            && (forall i :: Abandoned(s, i) ==> Abandoned(idle, i))
            && (forall t :: OwnsItsCalls(s, t) ==> OwnsItsCalls(idle, t))
            && (forall t :: t in s.tasks ==> OwnsItsCalls(idle, t) && Abandoned(idle, t.seqNo))
  {
    var idle := s.(phase := Idle, tasks := {}, clock := at);
    SameCallsAreSafe(s, idle);
    forall t, c | OwnsItsCalls(s, t) && 0 <= c < |s.calls| && Reached(idle, c, t.seqNo) ensures t.call == Some(c) {
      assert Reached(s, c, t.seqNo);
    }
    forall t, c | t in s.tasks && 0 <= c < |s.calls| && Reached(idle, c, t.seqNo) ensures t.call == Some(c) {
      assert Reached(s, c, t.seqNo);
    }
  }

  lemma ThrowKeepsInv(w: World, t: Task, settled: Option<SendResult>, at: Time)
    requires Inv(w) && MayHappen(w, Throws(t, settled, at))
    ensures Inv(Thrown(w, t, settled, at))
  {
    var s := w.base;
    if settled.Some? {
      var step := BAnswer(t, settled.value, at);
      TickKeepsInv(w, step);
      DroppedAreAbandoned(Apply(s, step), at);
      assert Apply(s, step).tasks == s.tasks - {t};
    } else {
      DroppedAreAbandoned(s, at);
    }
    LooseStayApart(w, t);
  }

  lemma LooseStayApart(w: World, t: Task)
    requires Inv(w)
    ensures forall u, v :: u in w.loose + (w.base.tasks - {t}) && v in w.loose + (w.base.tasks - {t}) && u.seqNo == v.seqNo ==> u == v
  {
    forall u, v | u in w.loose && v in w.base.tasks ensures u.seqNo != v.seqNo {
      assert Abandoned(w.base, u.seqNo);
    }
  }

  /** A loose send's recipient is no tick's: what is written to its row or calls leaves the tick's sends alone. */
  lemma LooseWriteKeepsTasks(w: World, t: Task, s': State)
    requires Inv(w) && t in w.loose
    requires s'.phase == w.base.phase && s'.tasks == w.base.tasks && s'.recipients == w.base.recipients
    requires forall i :: i in s'.rows && i != t.seqNo ==> i in w.base.rows && s'.rows[i] == w.base.rows[i]
    requires |w.base.calls| <= |s'.calls|
    requires forall c :: 0 <= c < |w.base.calls| && w.base.calls[c].seqNo != t.seqNo ==> s'.calls[c] == w.base.calls[c]
    ensures TasksOk(s')
  {
    assert Abandoned(w.base, t.seqNo);
  }

  /** The other loose sends are others' too. */
  lemma LooseWriteKeepsLoose(w: World, t: Task, s': State, u: Task)
    requires Inv(w) && t in w.loose && u in w.loose && u.seqNo != t.seqNo
    requires s'.phase == w.base.phase && s'.tasks == w.base.tasks && s'.recipients == w.base.recipients
    requires forall i :: i in s'.rows && i != t.seqNo ==> i in w.base.rows && s'.rows[i] == w.base.rows[i]
    requires |w.base.calls| <= |s'.calls|
    requires forall c :: 0 <= c < |w.base.calls| && w.base.calls[c].seqNo != t.seqNo ==> s'.calls[c] == w.base.calls[c]
    requires forall c :: 0 <= c < |s'.calls| && (c >= |w.base.calls| || w.base.calls[c].seqNo == t.seqNo) ==> s'.calls[c].seqNo == t.seqNo
    ensures OwnsItsCalls(s', u) && Abandoned(s', u.seqNo)
  {
    assert Abandoned(w.base, u.seqNo);
    forall c | 0 <= c < |s'.calls| && Reached(s', c, u.seqNo) ensures u.call == Some(c) {
      assert c < |w.base.calls| && Reached(w.base, c, u.seqNo);
    }
  }

  lemma LooseRefusedKeepsInv(w: World, t: Task, at: Time)
    requires Inv(w) && MayHappen(w, LooseRate(t, false, at))
    ensures Inv(LooseChecked(w, t, false, at))
  {
    var w' := LooseChecked(w, t, false, at);
    SameRecipients(w.base, w'.base);
    assert Clear(w.base, t.seqNo);
    LooseWriteKeepsTasks(w, t, w'.base);
    SameCallsAreSafe(w.base, w'.base);
    forall u | u in w'.loose ensures OwnsItsCalls(w'.base, u) && Abandoned(w'.base, u.seqNo) {
      LooseWriteKeepsLoose(w, t, w'.base, u);
    }
  }

  lemma LooseCallIsSafe(w: World, t: Task, at: Time)
    requires Inv(w) && MayHappen(w, LooseRate(t, true, at))
    ensures Safe(LooseChecked(w, t, true, at).base)
  {
    var s, s' := w.base, LooseChecked(w, t, true, at).base;
    LooseWriteKeepsTasks(w, t, s');
    assert Abandoned(s, t.seqNo) && Clear(s, t.seqNo);
    assert forall c, i :: 0 <= c < |s.calls| && Reached(s', c, i) ==> Reached(s, c, i);
    forall c | 0 <= c < |s.calls| && s.calls[c].seqNo == t.seqNo ensures !MayHaveReached(s.calls[c]) {
      assert !Reached(s, c, t.seqNo);
    }
  }

  lemma LooseCallKeepsInv(w: World, t: Task, at: Time)
    requires Inv(w) && MayHappen(w, LooseRate(t, true, at))
    ensures Inv(LooseChecked(w, t, true, at))
  {
    var w' := LooseChecked(w, t, true, at);
    LooseCallIsSafe(w, t, at);
    SameRecipients(w.base, w'.base);
    var called := t.(call := Some(|w.base.calls|));
    forall u | u in w'.loose ensures OwnsItsCalls(w'.base, u) && Abandoned(w'.base, u.seqNo) {
      if u != called {
        LooseWriteKeepsLoose(w, t, w'.base, u);
      } else {
        OwnCallOnly(w, t, at);
      }
    }
  }

  lemma OwnCallOnly(w: World, t: Task, at: Time)
    requires Inv(w) && MayHappen(w, LooseRate(t, true, at))
    ensures var s' := LooseChecked(w, t, true, at).base;
            OwnsItsCalls(s', t.(call := Some(|w.base.calls|))) && Abandoned(s', t.seqNo)
  {
    var s, s' := w.base, LooseChecked(w, t, true, at).base;
    assert Abandoned(s, t.seqNo) && Clear(s, t.seqNo);
    forall c | 0 <= c < |s'.calls| && Reached(s', c, t.seqNo) ensures c == |s.calls| {
      assert c < |s.calls| ==> Reached(s, c, t.seqNo);
    }
  }

  lemma LooseAnswerIsSafe(w: World, t: Task, result: SendResult, at: Time)
    requires Inv(w) && MayHappen(w, LooseAnswer(t, result, at))
    ensures Safe(LooseSettled(w, t, result, at).base)
  {
    var s, s' := w.base, LooseSettled(w, t, result, at).base;
    LooseWriteKeepsTasks(w, t, s');
    assert Abandoned(s, t.seqNo) && OwnsItsCalls(s, t);
    assert forall c, i :: 0 <= c < |s.calls| && Reached(s', c, i) ==> Reached(s, c, i);
    assert forall c :: 0 <= c < |s.calls| && MayHaveReached(s'.calls[c]) ==> MayHaveReached(s.calls[c]);
  }

  lemma LooseAnswerKeepsInv(w: World, t: Task, result: SendResult, at: Time)
    requires Inv(w) && MayHappen(w, LooseAnswer(t, result, at))
    ensures Inv(LooseSettled(w, t, result, at))
  {
    var w' := LooseSettled(w, t, result, at);
    LooseAnswerIsSafe(w, t, result, at);
    assert Abandoned(w.base, t.seqNo);
    SameRecipients(w.base, w'.base);
    forall u | u in w'.loose ensures OwnsItsCalls(w'.base, u) && Abandoned(w'.base, u.seqNo) {
      LooseWriteKeepsLoose(w, t, w'.base, u);
    }
  }

  lemma MoveKeepsInv(w: World, m: Move)
    requires Inv(w) && MayHappen(w, m)
    ensures Inv(Do(w, m)) && Do(w, m).base.recipients == w.base.recipients && Do(w, m).base.rate == w.base.rate
  {
    match m
    case InTick(step) =>
      TickKeepsInv(w, step);
      StepKeepsRequest(w.base, step);
    case Throws(t, settled, at) => ThrowKeepsInv(w, t, settled, at);
    case LooseRate(t, allowed, at) => if allowed { LooseCallKeepsInv(w, t, at); } else { LooseRefusedKeepsInv(w, t, at); }
    case LooseAnswer(t, result, at) => LooseAnswerKeepsInv(w, t, result, at);
    case LooseThrows(t) =>
  }

  lemma {:induction false} MovesKeepInv(w: World, moves: seq<Move>)
    requires Inv(w) && Happens(w, moves)
    ensures Inv(Finally(w, moves)) && Finally(w, moves).base.recipients == w.base.recipients
    decreases |moves|
  {
    if moves != [] {
      MoveKeepsInv(w, moves[0]);
      MovesKeepInv(Do(w, moves[0]), moves[1..]);
    }
  }

  /** Main result: throwing sends included, no customer of the broadcast gets two calls that may have
      delivered, in any run. */
  lemma NobodyIsMessagedTwice(recipients: seq<Recipient>, rate: int, now: Time, moves: seq<Move>, c: nat, d: nat)
    requires Distinct(recipients) && Happens(Start(recipients, rate, now), moves)
    requires var calls := Finally(Start(recipients, rate, now), moves).base.calls;
             c < d < |calls| && RecipientKey(calls[c].to) == RecipientKey(calls[d].to)
    ensures var calls := Finally(Start(recipients, rate, now), moves).base.calls;
            !MayHaveReached(calls[c]) || !MayHaveReached(calls[d])
  {
    var w := Start(recipients, rate, now);
    CreateIsValid(recipients, rate, now);
    MovesKeepInv(w, moves);
    var calls := Finally(w, moves).base.calls;
    SameKeySameRecipient(recipients, calls[c].seqNo, calls[d].seqNo);
  }

  // ---- What an ended broadcast leaves -------------------------------------------------------

  /** A loose send puts its recipient back in the queue. */
  predicate PutsBack(w: World, m: Move)
    requires MayHappen(w, m)
  {
    match m
    case LooseRate(t, allowed, _) => !allowed && t.seqNo in w.base.rows && w.base.rows[t.seqNo].status.Sending?
    case LooseAnswer(t, result, _) =>
      t.seqNo in w.base.rows && result.NotOk? && Retries(t, result, w.base.recipients[t.seqNo].own.Some?)
    case _ => false
  }

  /** The broadcast has completed, or was ended while a tick is about to claim or looks up its token. */
  predicate TooLate(s: State) { s.status.Completed? || (!s.status.Running? && (s.phase.Selected? || s.phase.Looking?)) }

  lemma TickKeepsEnding(w: World, step: Step)
    requires Inv(w) && EndingOk(w.base) && Possible(w.base, step)
    ensures EndingOk(Apply(w.base, step))
  {
    StepKeepsEnding(w.base, step);
  }

  lemma ThrowKeepsEnding(w: World, t: Task, settled: Option<SendResult>, at: Time)
    requires Inv(w) && EndingOk(w.base) && MayHappen(w, Throws(t, settled, at))
    ensures EndingOk(Thrown(w, t, settled, at).base)
  {
    if settled.Some? {
      StepKeepsEnding(w.base, BAnswer(t, settled.value, at));
    }
  }

  /** A loose send writes its own row only, which was not open if the broadcast had completed. */
  lemma LooseWritesOneRow(w: World, m: Move)
    requires Inv(w) && EndingOk(w.base) && MayHappen(w, m) && (m.LooseRate? || m.LooseAnswer?)
    ensures var s, s' := w.base, Do(w, m).base;
            && s'.status == s.status && s'.phase == s.phase && s'.rows.Keys == s.rows.Keys
            && (forall j :: j in s'.rows && j != m.t.seqNo ==> s'.rows[j] == s.rows[j])
            && (m.t.seqNo in s.rows ==>
                  && MayBeDelivered(s.rows[m.t.seqNo].status) && !s'.rows[m.t.seqNo].status.Cancelled?
                  && (s'.rows[m.t.seqNo].status.Queued? <==> PutsBack(w, m))
                  && (s'.rows[m.t.seqNo].status.Sending? ==> s.rows[m.t.seqNo].status.Sending?))
            && (PutsBack(w, m) ==> m.t.seqNo in s.rows)
  {
    assert Abandoned(w.base, m.t.seqNo);
  }

  /** One row written: the ending stays as it is exactly when the row is not queued too late. */
  lemma OneRowEnds(s: State, s': State, i: nat, back: bool)
    requires EndingOk(s) && s'.status == s.status && s'.phase == s.phase && s'.rows.Keys == s.rows.Keys
    requires forall j :: j in s'.rows && j != i ==> s'.rows[j] == s.rows[j]
    requires i in s.rows ==>
               && !s'.rows[i].status.Cancelled? && (s'.rows[i].status.Queued? <==> back)
               && (s'.rows[i].status.Sending? ==> s.rows[i].status.Sending?)
    requires back ==> i in s.rows
    ensures EndingOk(s') <==> !(back && TooLate(s))
  {
    if back {
      assert i in WithStatus(s'.rows, Queued) && i in OpenRows(s'.rows);
    } else {
      assert WithStatus(s'.rows, Queued) <= WithStatus(s.rows, Queued);
      assert OpenRows(s'.rows) <= OpenRows(s.rows);
    }
  }

  lemma LooseKeepsEndingExactly(w: World, m: Move)
    requires Inv(w) && EndingOk(w.base) && MayHappen(w, m) && (m.LooseRate? || m.LooseAnswer?)
    ensures EndingOk(Do(w, m).base) <==> !(PutsBack(w, m) && TooLate(w.base))
  {
    LooseWritesOneRow(w, m);
    OneRowEnds(w.base, Do(w, m).base, m.t.seqNo, PutsBack(w, m));
  }

  /** One move keeps what an ended broadcast promises, that it has attempted everybody if it completed and
      queues nobody a tick could still claim, exactly when it is no loose send putting a recipient back too
      late. */
  lemma MoveKeepsEndingExactly(w: World, m: Move)
    requires Inv(w) && EndingOk(w.base) && MayHappen(w, m)
    ensures EndingOk(Do(w, m).base) <==> !(PutsBack(w, m) && TooLate(w.base))
  {
    match m
    case InTick(step) => TickKeepsEnding(w, step);
    case Throws(t, settled, at) => ThrowKeepsEnding(w, t, settled, at);
    case LooseRate(_, _, _) => LooseKeepsEndingExactly(w, m);
    case LooseAnswer(_, _, _) => LooseKeepsEndingExactly(w, m);
    case LooseThrows(_) =>
  }

  ghost predicate AlwaysEndingOk(w: World, moves: seq<Move>)
    requires Happens(w, moves)
    decreases |moves|
  {
    EndingOk(w.base) && (moves != [] ==> AlwaysEndingOk(Do(w, moves[0]), moves[1..]))
  }

  predicate NoneTooLate(w: World, moves: seq<Move>)
    requires Happens(w, moves)
    decreases |moves|
  {
    moves != [] ==> !(PutsBack(w, moves[0]) && TooLate(w.base)) && NoneTooLate(Do(w, moves[0]), moves[1..])
  }

  lemma {:induction false} EndingHoldsExactly(w: World, moves: seq<Move>)
    requires Inv(w) && EndingOk(w.base) && Happens(w, moves)
    ensures AlwaysEndingOk(w, moves) <==> NoneTooLate(w, moves)
    decreases |moves|
  {
    if moves != [] {
      MoveKeepsInv(w, moves[0]);
      MoveKeepsEndingExactly(w, moves[0]);
      if EndingOk(Do(w, moves[0]).base) {
        EndingHoldsExactly(Do(w, moves[0]), moves[1..]);
      } else {
        assert !AlwaysEndingOk(Do(w, moves[0]), moves[1..]);
      }
    }
  }

  /** Main result: throughout a run the counts add up to the request and a message id is set exactly on sent
      rows; and throughout it a completed broadcast has attempted everybody, and an ended one queues nobody a
      tick could still claim, exactly when no loose send of the run puts its recipient back too late. */
  lemma RunsAddUp(recipients: seq<Recipient>, rate: int, now: Time, moves: seq<Move>)
    requires Happens(Start(recipients, rate, now), moves)
    ensures var s := Finally(Start(recipients, rate, now), moves).base;
            && |WithStatus(s.rows, Queued)| + |WithStatus(s.rows, Sending)| + |WithStatus(s.rows, Sent)|
               + |WithStatus(s.rows, Failed)| + |WithStatus(s.rows, Uncertain)| + |WithStatus(s.rows, Cancelled)|
               + s.erased == |recipients|
            && (forall i :: i in s.rows ==> (s.rows[i].messageId.Some? <==> s.rows[i].status.Sent?))
    ensures AlwaysEndingOk(Start(recipients, rate, now), moves) <==> NoneTooLate(Start(recipients, rate, now), moves)
  {
    var w := Start(recipients, rate, now);
    CreateIsValid(recipients, rate, now);
    MovesKeepInv(w, moves);
    CountsAddUp(Finally(w, moves).base);
    EndingHoldsExactly(w, moves);
  }

  /** Once an ended broadcast has nobody open and no tick, a move opens somebody exactly when it is a loose
      send putting its recipient back. */
  lemma OnlyLooseSendsReopen(w: World, m: Move)
    requires Inv(w) && MayHappen(w, m) && !w.base.status.Running? && w.base.phase.Idle? && OpenRows(w.base.rows) == {}
    ensures OpenRows(Do(w, m).base.rows) == {} <==> !PutsBack(w, m)
  {
    var s, s' := w.base, Do(w, m).base;
    if m.LooseAnswer? {
      assert Abandoned(s, m.t.seqNo);
      assert forall j :: j in s'.rows && j != m.t.seqNo ==> j in s.rows && s'.rows[j] == s.rows[j] && j !in OpenRows(s.rows);
      assert PutsBack(w, m) ==> m.t.seqNo in OpenRows(s'.rows);
    } else {
      OpenSplits(s.rows);
      assert WithStatus(s.rows, Queued) == {} && WithStatus(s.rows, Sending) == {};
      assert forall j :: j in s'.rows ==> j in s.rows && s'.rows[j] == s.rows[j] && j !in OpenRows(s.rows);
    }
  }

  /** A throw skips the sweep that ends a tick: it leaves an ended broadcast with nobody open exactly when
      nobody was queued or left sending by an earlier tick, its other sends have lost their rows to an erasure,
      and its own row is gone or settled for good. */
  lemma ThrowLeavesNobodyOpen(w: World, t: Task, settled: Option<SendResult>, at: Time)
    requires Inv(w) && MayHappen(w, Throws(t, settled, at)) && !w.base.status.Running?
    ensures var s := w.base;
            OpenRows(Thrown(w, t, settled, at).base.rows) == {} <==>
            && WithStatus(s.rows, Queued) == {} && LeftSending(s) == {}
            && (forall u :: u in s.tasks && u != t ==> u.seqNo !in s.rows)
            && (t.seqNo in s.rows ==> settled.Some? && (settled.value.NotOk? ==> !Retries(t, settled.value, s.recipients[t.seqNo].own.Some?)))
  {
    var s, rows := w.base, Thrown(w, t, settled, at).base.rows;
    assert forall i :: i in rows <==> i in s.rows;
    assert forall i :: i in rows && i != t.seqNo ==> rows[i] == s.rows[i];
    forall i | i in s.rows && s.rows[i].status.Sending? && i !in LeftSending(s)
      ensures exists u :: u in s.tasks && u.seqNo == i
    {
      assert Held(s, i);
    }
    assert t.seqNo in s.rows ==> s.rows[t.seqNo].status.Sending? && Held(s, t.seqNo);
    if OpenRows(rows) == {} {
      assert forall i :: i in rows ==> i !in OpenRows(rows);
      assert forall u :: u in s.tasks && u.seqNo in s.rows ==> s.rows[u.seqNo].status.Sending?;
      assert forall u :: u in s.tasks && u != t ==> u.seqNo != t.seqNo;
    }
  }

  // ---- The pace -----------------------------------------------------------------------------

  lemma MoveKeepsPace(w: World, m: Move)
    requires Pace.PaceInv(w.base) && MayHappen(w, m) && Pacing(w.base.rate).tickMs <= 5_000
    ensures Pace.PaceInv(Do(w, m).base) && Do(w, m).base.rate == w.base.rate
  {
    if m.InTick? {
      Pace.StepKeepsPace(w.base, m.step);
      StepKeepsRequest(w.base, m.step);
    }
  }

  /** Throws do not quicken a broadcast: from 15 messages a minute on its ticks keep the pace in every run. */
  lemma {:induction false} PaceSurvivesThrows(w: World, moves: seq<Move>)
    requires Pace.PaceInv(w.base) && Happens(w, moves) && w.base.rate >= 15
    ensures Pace.PaceInv(Finally(w, moves).base) && Pace.Paced(Finally(w, moves).base.ticks, Pacing(w.base.rate))
    decreases |moves|
  {
    TickFitsThrottlePause(w.base.rate);
    if moves != [] {
      MoveKeepsPace(w, moves[0]);
      PaceSurvivesThrows(Do(w, moves[0]), moves[1..]);
    }
  }

  // ---- It does happen -----------------------------------------------------------------------

  ghost predicate GetsTo(w: World, u: World) {
    exists moves :: Happens(w, moves) && Finally(w, moves) == u
  }

  lemma GetsToItself(w: World)
    ensures GetsTo(w, w)
  {
    assert Happens(w, []) && Finally(w, []) == w;
  }

  lemma {:induction false} OneMoreMove(w: World, moves: seq<Move>, m: Move)
    requires Happens(w, moves) && MayHappen(Finally(w, moves), m)
    ensures Happens(w, moves + [m]) && Finally(w, moves + [m]) == Do(Finally(w, moves), m)
    decreases |moves|
  {
    if moves == [] {
      assert moves + [m] == [m];
      assert Happens(Do(w, m), []);
      assert Finally(w, [m]) == Finally(Do(w, m), []);
    } else {
      OneMoreMove(Do(w, moves[0]), moves[1..], m);
      assert (moves + [m])[1..] == moves[1..] + [m];
    }
  }

  lemma GetsToNext(w: World, u: World, m: Move)
    requires GetsTo(w, u) && MayHappen(u, m)
    ensures GetsTo(w, Do(u, m))
  {
    var moves :| Happens(w, moves) && Finally(w, moves) == u;
    OneMoreMove(w, moves, m);
  }

  const FAST := 150

  lemma FastSendsTwo()
    ensures Pacing(FAST).perTick == 2 && Pacing(FAST).tickMs == 1_000
  {
  }

  /** A tick has claimed two recipients and has its token. */
  ghost predicate BothSending(w: World, u: World, to: seq<Recipient>, status: BroadcastStatus) {
    && GetsTo(w, u) && u.base.recipients == to && u.base.rate == FAST && u.base.status == status && u.base.clock == 0
    && u.base.phase == Sends(0, []) && u.base.nextSendAt == 1_000 && u.base.calls == [] && u.loose == {}
    && u.base.tasks == {Task(0, 0, None), Task(1, 0, None)}
    && u.base.rows == map[0 := Row(Sending, 0, None, 0), 1 := Row(Sending, 0, None, 0)]
  }

  lemma TwoAreClaimed(to: seq<Recipient>) returns (u: World)
    requires |to| == 2
    ensures GetsTo(Start(to, FAST, 0), u) && u.loose == {} && u.base.phase == Looking(0, {0, 1})
    ensures u.base.recipients == to && u.base.rate == FAST && u.base.status.Running? && u.base.clock == 0
    ensures u.base.nextSendAt == 0 && u.base.tasks == {} && u.base.calls == []
    ensures u.base.rows == map[0 := Row(Sending, 0, None, 0), 1 := Row(Sending, 0, None, 0)]
  {
    var w := Start(to, FAST, 0);
    FastSendsTwo();
    GetsToItself(w);
    assert to[0] == w.base.recipients[0] && to[1] == w.base.recipients[1];
    assert w.base.rows == map[0 := Row(Queued, 0, None, 0), 1 := Row(Queued, 0, None, 0)];
    GetsToNext(w, w, InTick(BSelect(0)));
    u := Do(w, InTick(BSelect(0)));
    assert u.base.rows == w.base.rows && WithStatus(u.base.rows, Queued) == {0, 1};
    GetsToNext(w, u, InTick(BClaim(0, {0, 1}, 0)));
    u := Do(u, InTick(BClaim(0, {0, 1}, 0)));
    assert u.base.rows == map[0 := Row(Sending, 0, None, 0), 1 := Row(Sending, 0, None, 0)];
  }

  lemma TokenComes(w: World, u: World) returns (v: World)
    requires GetsTo(w, u) && u.loose == {} && u.base.phase == Looking(0, {0, 1}) && u.base.clock == 0
    requires u.base.rate == FAST && u.base.tasks == {} && u.base.calls == []
    requires u.base.rows == map[0 := Row(Sending, 0, None, 0), 1 := Row(Sending, 0, None, 0)]
    ensures BothSending(w, v, u.base.recipients, u.base.status)
  {
    FastSendsTwo();
    GetsToNext(w, u, InTick(BToken(Known, 0)));
    v := Do(u, InTick(BToken(Known, 0)));
    assert v.base.tasks == {Task(0, 0, None), Task(1, 0, None)};
  }

  /** One send throws; the other goes on, and its rate check comes back after 50 seconds. */
  lemma OneGoesOn(w: World, u: World, to: seq<Recipient>) returns (v: World)
    requires |to| == 2 && BothSending(w, u, to, Running)
    ensures GetsTo(w, v) && v.base.recipients == to && v.base.rate == FAST && v.base.status.Running? && v.base.clock == 50_000
    ensures v.base.phase.Idle? && v.base.nextSendAt == 1_000 && v.base.rows == u.base.rows
    ensures v.loose == {Task(1, 0, Some(0))} && |v.base.calls| == 1
  {
    GetsToNext(w, u, Throws(Task(0, 0, None), None, 0));
    v := Do(u, Throws(Task(0, 0, None), None, 0));
    assert v.loose == {Task(1, 0, None)};
    GetsToNext(w, v, LooseRate(Task(1, 0, None), true, 50_000));
    v := Do(v, LooseRate(Task(1, 0, None), true, 50_000));
    assert v.loose == {Task(1, 0, Some(0))};
  }

  /** The next tick sweeps both rows as unknown, finds nobody queued and completes the broadcast. */
  lemma SweptAndCompleted(w: World, u: World, at: Time) returns (v: World)
    requires GetsTo(w, u) && u.base.rate == FAST && u.base.status.Running? && u.base.clock <= at && u.base.phase.Idle?
    requires u.base.nextSendAt <= at && at > STALE_SENDING_MS
    requires u.base.rows == map[0 := Row(Sending, 0, None, 0), 1 := Row(Sending, 0, None, 0)]
    ensures GetsTo(w, v) && v.loose == u.loose && v.base.calls == u.base.calls && v.base.recipients == u.base.recipients
    ensures v.base.status.Completed? && v.base.clock == at
    ensures v.base.rows == map[0 := Row(Uncertain, 0, None, at), 1 := Row(Uncertain, 0, None, at)]
  {
    FastSendsTwo();
    GetsToNext(w, u, InTick(BSelect(at)));
    v := Do(u, InTick(BSelect(at)));
    assert StaleRows(u.base, at) == {0, 1};
    assert v.base.rows == map[0 := Row(Uncertain, 0, None, at), 1 := Row(Uncertain, 0, None, at)];
    assert WithStatus(v.base.rows, Queued) == {} && OpenRows(v.base.rows) == {};
    GetsToNext(w, v, InTick(BClaim(0, {}, at)));
    v := Do(v, InTick(BClaim(0, {}, at)));
  }

  /** A throttled answer to a loose send comes after the broadcast has completed: it is completed with a
      recipient queued, whom no tick will ever claim. */
  lemma CompletedWithSomebodyQueued(to: seq<Recipient>) returns (v: World)
    requires |to| == 2
    ensures GetsTo(Start(to, FAST, 0), v)
    ensures v.base.status.Completed? && 1 in v.base.rows && v.base.rows[1].status.Queued?
  {
    var w := Start(to, FAST, 0);
    var u := TwoAreClaimed(to);
    u := TokenComes(w, u);
    u := OneGoesOn(w, u, to);
    u := SweptAndCompleted(w, u, 60_001);
    var answer := LooseAnswer(Task(1, 0, Some(0)), NotOk(429, None), 60_001);
    GetsToNext(w, u, answer);
    v := Do(u, answer);
  }

  /** Cancelled while it sends, with one recipient back in the queue when the other send throws: the sweep of
      the tick's end does not come, and the cancelled broadcast keeps the queued recipient. */
  lemma ThrowSkipsTheSweep(to: seq<Recipient>) returns (v: World)
    requires |to| == 2
    ensures GetsTo(Start(to, FAST, 0), v)
    ensures v.base.status.Stopped? && v.base.phase.Idle? && 1 in v.base.rows && v.base.rows[1].status.Queued?
  {
    var w := Start(to, FAST, 0);
    var u := TwoAreClaimed(to);
    u := TokenComes(w, u);
    u := CancelledWhileSending(w, u, to);
    v := RefusedThenThrows(w, u, to);
  }

  lemma CancelledWhileSending(w: World, u: World, to: seq<Recipient>) returns (v: World)
    requires |to| == 2 && BothSending(w, u, to, Running)
    ensures BothSending(w, v, to, Stopped)
  {
    GetsToNext(w, u, InTick(BCancel(0)));
    v := Do(u, InTick(BCancel(0)));
    assert WithStatus(u.base.rows, Queued) == {};
    assert v.base.rows == u.base.rows;
  }

  lemma RefusedThenThrows(w: World, u: World, to: seq<Recipient>) returns (v: World)
    requires |to| == 2 && BothSending(w, u, to, Stopped)
    ensures GetsTo(w, v) && v.base.status.Stopped? && v.base.phase.Idle? && 1 in v.base.rows && v.base.rows[1].status.Queued?
  {
    GetsToNext(w, u, InTick(BRate(Task(1, 0, None), false, 0)));
    v := Do(u, InTick(BRate(Task(1, 0, None), false, 0)));
    assert v.base.rows[1].status.Queued?;
    GetsToNext(w, v, Throws(Task(0, 0, None), None, 0));
    v := Do(v, Throws(Task(0, 0, None), None, 0));
  }
}
