/** By the wall clock: what is asked for between a registration or an operator's reset and the next one.
    A worker that is past its mark when the span opens still makes its calls in it, under the old mark.
    Whether that can repeat a request is decided by who stands at its calls at that moment. */
module ProvisioningSpans {
  import opened Core
  import opened Coexistence
  import opened Provisioning
  import opened ProvisioningOutcome
  import Evidence = ProvisioningEvidence

  // ---- Spans --------------------------------------------------------------------------------

  predicate NotBefore(step: Step, t: Time) {
    match step
    case PRegister(_, _, _, now) => now >= t
    case PBegin(_, _, _, now) => now >= t
    case PClaim(_, now) => now >= t
    case PRetry(now) => now >= t
    case PSharingOff(now) => now >= t
    case PConfigured(_, now) => now >= t
    case PVerified(_, _, now) => now >= t
    case PBeginSync(_, at, _) => at >= t
    case PComplete(_, _, now) => now >= t
    case PFail(_, _, now) => now >= t
    case _ => true
  }

  ghost predicate AllFrom(steps: seq<Step>, t: Time) {
    forall k :: 0 <= k < |steps| ==> NotBefore(steps[k], t)
  }

  /** No phone is asked twice among the calls from the `n`th on. */
  predicate NoRepeat(calls: seq<SyncCall>, kind: Kind, n: nat) {
    forall c, d :: n <= c < d < |calls| && calls[c].kind == kind && calls[d].kind == kind ==> calls[c].phone != calls[d].phone
  }

  /** Whatever happens from `t` on, until the next registration or reset of this sync, no phone is asked
      for it twice. */
  ghost predicate AskedOnce(s: State, kind: Kind, t: Time) {
    forall steps :: Run(s, steps) && AllFrom(steps, t) && GenOf(After(s, steps).gens, kind) == GenOf(s.gens, kind) ==>
      NoRepeat(After(s, steps).calls, kind, |s.calls|)
  }

  /** Worker `i` stands at its calls for the sync, and has not asked for this phone yet. */
  predicate Late(s: State, kind: Kind, i: nat, phone: string) {
    Calling(s, i) && s.workers[i].stage.kind == kind && phone in s.workers[i].stage.left
  }

  ghost predicate SharedLate(s: State, kind: Kind, i: nat, phone: string) {
    Late(s, kind, i, phone) && exists j :: j != i && Late(s, kind, j, phone)
  }

  /** Nothing that is on record keeps a worker that claims from `t` on from asking. */
  predicate MayAsk(c: Coex, t: Time) {
    c.onboarding.Coexistence? && c.verified != Some(Standard) && WorthAttempting(c.deadlineAt, t)
  }

  predicate MaySync(r: Row, t: Time) { (r.status.Waiting? || r.status.Dead?) && MayAsk(r.coex, t) }

  /** How a registration or a reset of this sync leaves a reachable state. */
  ghost predicate Opened(s: State, kind: Kind) {
    && ClaimsOk(s) && OnceInv(s) && !Marked(s, kind) && !s.row.status.Unregistered?
    && (forall i :: i in s.workers ==> !Owns(s.row, s.workers[i].pair))
    && (SpentUnconfirmed(s.row.coex) ==> s.row.status.Dead?)
  }

  // ---- With nobody late, every call of the span has the span's mark ---------------------------

  ghost predicate CallersCurrent(s: State, kind: Kind, gen: nat) {
    forall i, phone :: Late(s, kind, i, phone) ==> s.workers[i].stage.gen == gen
  }

  ghost predicate CallsCurrent(s: State, kind: Kind, gen: nat, n: nat) {
    forall c :: n <= c < |s.calls| && s.calls[c].kind == kind ==> s.calls[c].gen == gen
  }

  lemma BegunIsCurrent(s: State, i: nat, at: Time, lost: bool, kind: Kind)
    requires Possible(s, PBeginSync(i, at, lost)) && CallersCurrent(s, kind, GenOf(s.gens, kind))
    ensures CallersCurrent(SyncBegun(s, i, at, lost), kind, GenOf(s.gens, kind))
  {
    var s' := SyncBegun(s, i, at, lost);
    forall j, phone | Late(s', kind, j, phone) ensures s'.workers[j].stage.gen == GenOf(s.gens, kind) {
      if j != i {
        assert Late(s, kind, j, phone);
      }
    }
  }

  lemma CallIsCurrent(s: State, i: nat, phone: string, answer: Option<Answer>, kind: Kind, n: nat)
    requires Possible(s, PCall(i, phone, answer))
    requires CallersCurrent(s, kind, GenOf(s.gens, kind)) && CallsCurrent(s, kind, GenOf(s.gens, kind), n)
    ensures var s' := Called(s, i, phone, answer);
            CallersCurrent(s', kind, GenOf(s.gens, kind)) && CallsCurrent(s', kind, GenOf(s.gens, kind), n)
  {
    CallersAfterCall(s, i, phone, answer);
    var s' := Called(s, i, phone, answer);
    assert s.workers[i].stage.kind == kind ==> Late(s, kind, i, phone);
    forall j, p | Late(s', kind, j, p) ensures s'.workers[j].stage.gen == GenOf(s.gens, kind) {
      assert Late(s, kind, j, p);
    }
  }

  lemma StepStaysCurrent(s: State, step: Step, kind: Kind, n: nat)
    requires Possible(s, step) && CallersCurrent(s, kind, GenOf(s.gens, kind)) && CallsCurrent(s, kind, GenOf(s.gens, kind), n)
    ensures var s' := Apply(s, step);
            CallersCurrent(s', kind, GenOf(s.gens, kind)) && CallsCurrent(s', kind, GenOf(s.gens, kind), n)
  {
    if step.PBeginSync? {
      BegunIsCurrent(s, step.i, step.at, step.lost, kind);
    } else if step.PCall? {
      CallIsCurrent(s, step.i, step.phone, step.answer, kind, n);
    } else {
      CallersStay(s, step);
      forall j, p | Late(Apply(s, step), kind, j, p) ensures Late(s, kind, j, p) {
      }
    }
  }

  lemma {:induction false} RunStaysCurrent(s: State, steps: seq<Step>, kind: Kind, n: nat)
    requires Run(s, steps) && GenOf(After(s, steps).gens, kind) == GenOf(s.gens, kind)
    requires CallersCurrent(s, kind, GenOf(s.gens, kind)) && CallsCurrent(s, kind, GenOf(s.gens, kind), n)
    ensures CallsCurrent(After(s, steps), kind, GenOf(s.gens, kind), n)
    decreases |steps|
  {
    if steps != [] {
      var s' := Apply(s, steps[0]);
      MarksStay(s, steps[0]);
      GensGrow(s', steps[1..], kind);
      StepStaysCurrent(s, steps[0], kind, n);
      RunStaysCurrent(s', steps[1..], kind, n);
    }
  }

  /** Each mark asks a phone once, and the span has one mark. */
  lemma NobodyLateAsksOnce(s: State, kind: Kind, t: Time)
    requires OnceInv(s) && forall i, phone :: !Late(s, kind, i, phone)
    ensures AskedOnce(s, kind, t)
  {
    forall steps | Run(s, steps) && AllFrom(steps, t) && GenOf(After(s, steps).gens, kind) == GenOf(s.gens, kind)
      ensures NoRepeat(After(s, steps).calls, kind, |s.calls|)
    {
      RunStaysCurrent(s, steps, kind, |s.calls|);
      RunIsSafe(s, steps);
    }
  }

  // ---- When no claim can ask, only late workers do -------------------------------------------

  /** The owner of the row, if any, claimed it with the sync already out of the question. */
  predicate Idles(w: Worker, t: Time) {
    && !MayAsk(w.snap, t) && !w.stage.Begin? && !w.stage.CallPhones?
    && (w.stage.Verify? ==> !WorthAttempting(w.snap.deadlineAt, t))
  }

  ghost predicate Shut(s: State, t: Time) {
    && ClaimsOk(s) && !MaySync(s.row, t) && !s.row.status.Unregistered?
    && (forall i :: i in s.workers && Owns(s.row, s.workers[i].pair) ==> Idles(s.workers[i], t))
  }

  /** The step opens no new span of this sync. */
  predicate Within(s: State, step: Step, kind: Kind)
    requires Possible(s, step)
  {
    GenOf(Apply(s, step).gens, kind) == GenOf(s.gens, kind)
  }

  lemma WorkerLeavesRowShut(s: State, step: Step, t: Time)
    requires Possible(s, step) && WorkerOf(step).Some? && !MaySync(s.row, t) && !s.row.status.Unregistered?
    ensures var r := Apply(s, step).row; !MaySync(r, t) && !r.status.Unregistered?
  {
  }

  lemma RowStaysShut(s: State, step: Step, kind: Kind, t: Time)
    requires Possible(s, step) && Within(s, step, kind) && !MaySync(s.row, t) && !s.row.status.Unregistered?
    ensures var r := Apply(s, step).row; !MaySync(r, t) && !r.status.Unregistered?
  {
    if WorkerOf(step).Some? {
      WorkerLeavesRowShut(s, step, t);
    }
  }

  lemma ConfiguredIdles(w: Worker, t: Time, now: Time)
    requires w.stage.Configure? && Idles(w, t) && now >= t
    ensures Idles(AfterConfig(w, now), t)
  {
    Evidence.EnteringSync(w, Coexistence, now);
  }

  lemma VerdictIdles(w: Worker, verdict: Onboarding, t: Time, now: Time)
    requires w.stage.Verify? && Idles(w, t) && now >= t
    ensures Idles(AfterVerdict(w, verdict, now), t)
  {
  }

  /** A worker's own step keeps it idle, while it owns the row. */
  lemma OwnStepIdles(s: State, step: Step, i: nat, t: Time)
    requires Possible(s, step) && NotBefore(step, t) && WorkerOf(step) == Some(i) && i in s.workers && Idles(s.workers[i], t)
    ensures i in Apply(s, step).workers ==> Idles(Apply(s, step).workers[i], t)
  {
    match step
    case PConfigured(_, now) => ConfiguredIdles(s.workers[i], t, now);
    case PVerified(_, verdict, now) => VerdictIdles(s.workers[i], verdict, t, now);
    case _ =>
  }

  lemma WorkerStepStaysShut(s: State, step: Step, t: Time)
    requires Shut(s, t) && Possible(s, step) && NotBefore(step, t) && WorkerOf(step).Some?
    ensures var s' := Apply(s, step);
            forall j :: j in s'.workers && Owns(s'.row, s'.workers[j].pair) ==> Idles(s'.workers[j], t)
  {
    var s', i := Apply(s, step), WorkerOf(step).value;
    WorkerStepTouchesOne(s, step);
    WorkerStepKeepsPair(s, step);
    StrangerKeepsPair(s, step, i);
    forall j | j in s'.workers && Owns(s'.row, s'.workers[j].pair) ensures Idles(s'.workers[j], t) {
      if j == i {
        OwnStepIdles(s, step, i, t);
      }
    }
  }

  /** No claim is ahead of the row, so a retry or a registration leaves the row without an owner. */
  lemma OperatorStepStaysShut(s: State, step: Step, t: Time)
    requires Shut(s, t) && Possible(s, step) && WorkerOf(step).None? && !step.PClaim?
    ensures var s' := Apply(s, step);
            forall j :: j in s'.workers && Owns(s'.row, s'.workers[j].pair) ==> Idles(s'.workers[j], t)
  {
    OperatorStepsAreQuiet(s, step);
    PairNeverGoesBack(s, step);
    var s' := Apply(s, step);
    forall j | j in s'.workers && Owns(s'.row, s'.workers[j].pair) ensures Idles(s'.workers[j], t) {
      assert !Before(RowPair(s.row), s.workers[j].pair) by { assert s.workers[j].pair == s.claims[j]; }
      assert Owns(s.row, s.workers[j].pair);
    }
  }

  lemma ClaimStaysShut(s: State, now: Time, expected: Option<nat>, t: Time)
    requires Shut(s, t) && Possible(s, PClaim(expected, now))
    ensures var s' := Claimed(s, now);
            forall j :: j in s'.workers && Owns(s'.row, s'.workers[j].pair) ==> Idles(s'.workers[j], t)
  {
    var s' := Claimed(s, now);
    forall j | j in s'.workers && Owns(s'.row, s'.workers[j].pair) ensures Idles(s'.workers[j], t) {
      if j != |s.claims| {
        assert !Before(RowPair(s.row), s.workers[j].pair) by { assert s.workers[j].pair == s.claims[j]; }
      }
    }
  }

  lemma StepStaysShut(s: State, step: Step, kind: Kind, t: Time)
    requires Shut(s, t) && Possible(s, step) && Within(s, step, kind) && NotBefore(step, t)
    ensures Shut(Apply(s, step), t)
  {
    StepKeepsClaims(s, step);
    RowStaysShut(s, step, kind, t);
    if WorkerOf(step).Some? {
      WorkerStepStaysShut(s, step, t);
    } else if step.PClaim? {
      ClaimStaysShut(s, step.now, step.expected, t);
    } else {
      OperatorStepStaysShut(s, step, t);
    }
  }

  /** Every worker at its calls was there when the span opened, with these phones left or more. */
  ghost predicate OnlyLateCall(s: State, now: State, kind: Kind) {
    forall i, phone :: Late(now, kind, i, phone) ==> Late(s, kind, i, phone)
  }

  /** Every call of the span was left to a late worker, which has it no longer. */
  ghost predicate LeftTo(s: State, now: State, kind: Kind, c: nat, i: nat)
    requires c < |now.calls|
  {
    Late(s, kind, i, now.calls[c].phone) && !Late(now, kind, i, now.calls[c].phone)
  }

  ghost predicate CallsAreLate(s: State, now: State, kind: Kind) {
    && |s.calls| <= |now.calls|
    && forall c :: |s.calls| <= c < |now.calls| && now.calls[c].kind == kind ==> exists i :: LeftTo(s, now, kind, c, i)
  }

  lemma BeginStartsNobody(s: State, i: nat, at: Time, lost: bool, t: Time, kind: Kind)
    requires Shut(s, t) && Possible(s, PBeginSync(i, at, lost))
    ensures forall j, phone :: Late(SyncBegun(s, i, at, lost), kind, j, phone) ==> Late(s, kind, j, phone)
    ensures SyncBegun(s, i, at, lost).calls == s.calls
  {
    assert !Owns(s.row, s.workers[i].pair);
  }

  lemma SharedWhenTwo(s: State, kind: Kind, i: nat, j: nat, phone: string)
    ensures Late(s, kind, i, phone) && Late(s, kind, j, phone) && i != j ==> SharedLate(s, kind, i, phone)
  {
  }

  lemma CallWasLeft(s: State, now: State, i: nat, phone: string, answer: Option<Answer>, kind: Kind)
    requires Possible(now, PCall(i, phone, answer))
    requires OnlyLateCall(s, now, kind) && CallsAreLate(s, now, kind) && NoRepeat(now.calls, kind, |s.calls|)
    requires forall j, p :: !SharedLate(s, kind, j, p)
    ensures var next := Called(now, i, phone, answer);
            OnlyLateCall(s, next, kind) && CallsAreLate(s, next, kind) && NoRepeat(next.calls, kind, |s.calls|)
  {
    var next := Called(now, i, phone, answer);
    CallersAfterCall(now, i, phone, answer);
    forall j, p | Late(next, kind, j, p) ensures Late(now, kind, j, p) {
    }
    if now.workers[i].stage.kind == kind {
      assert Late(now, kind, i, phone) && Late(s, kind, i, phone);
      forall c | |s.calls| <= c < |now.calls| && now.calls[c].kind == kind ensures now.calls[c].phone != phone {
        var j :| LeftTo(s, now, kind, c, j);
        SharedWhenTwo(s, kind, i, j, phone);
      }
      assert LeftTo(s, next, kind, |now.calls|, i);
    }
    forall c | |s.calls| <= c < |now.calls| && now.calls[c].kind == kind ensures exists j :: LeftTo(s, next, kind, c, j) {
      var j :| LeftTo(s, now, kind, c, j);
      assert LeftTo(s, next, kind, c, j);
    }
  }

  lemma LateStepKeeps(s: State, now: State, step: Step, kind: Kind, t: Time)
    requires Shut(now, t) && Possible(now, step)
    requires OnlyLateCall(s, now, kind) && CallsAreLate(s, now, kind) && NoRepeat(now.calls, kind, |s.calls|)
    requires forall j, p :: !SharedLate(s, kind, j, p)
    ensures var next := Apply(now, step);
            OnlyLateCall(s, next, kind) && CallsAreLate(s, next, kind) && NoRepeat(next.calls, kind, |s.calls|)
  {
    if step.PCall? {
      CallWasLeft(s, now, step.i, step.phone, step.answer, kind);
    } else {
      var next := Apply(now, step);
      if step.PBeginSync? {
        BeginStartsNobody(now, step.i, step.at, step.lost, t, kind);
      } else {
        CallersStay(now, step);
      }
      assert next.calls == now.calls;
      forall j, p | Late(next, kind, j, p) ensures Late(now, kind, j, p) {
      }
      forall c | |s.calls| <= c < |now.calls| && now.calls[c].kind == kind ensures exists j :: LeftTo(s, next, kind, c, j) {
        var j :| LeftTo(s, now, kind, c, j);
        assert LeftTo(s, next, kind, c, j);
      }
    }
  }

  lemma {:induction false} LateRunKeeps(s: State, now: State, steps: seq<Step>, kind: Kind, t: Time)
    requires Shut(now, t) && Run(now, steps) && AllFrom(steps, t)
    requires GenOf(After(now, steps).gens, kind) == GenOf(now.gens, kind)
    requires OnlyLateCall(s, now, kind) && CallsAreLate(s, now, kind) && NoRepeat(now.calls, kind, |s.calls|)
    requires forall j, p :: !SharedLate(s, kind, j, p)
    ensures NoRepeat(After(now, steps).calls, kind, |s.calls|)
    decreases |steps|
  {
    if steps != [] {
      var next := Apply(now, steps[0]);
      MarksStay(now, steps[0]);
      GensGrow(next, steps[1..], kind);
      StepStaysShut(now, steps[0], kind, t);
      LateStepKeeps(s, now, steps[0], kind, t);
      assert forall k :: 0 <= k < |steps| - 1 ==> steps[1..][k] == steps[k + 1];
      LateRunKeeps(s, next, steps[1..], kind, t);
    }
  }

  lemma OneLateEachAsksOnce(s: State, kind: Kind, t: Time)
    requires Opened(s, kind) && !MaySync(s.row, t) && forall i, phone :: !SharedLate(s, kind, i, phone)
    ensures AskedOnce(s, kind, t)
  {
    forall steps | Run(s, steps) && AllFrom(steps, t) && GenOf(After(s, steps).gens, kind) == GenOf(s.gens, kind)
      ensures NoRepeat(After(s, steps).calls, kind, |s.calls|)
    {
      LateRunKeeps(s, s, steps, kind, t);
    }
  }

  // ---- With one late and a claim that can ask, a phone is asked twice -------------------------

  ghost predicate Reaches(s: State, t: Time, u: State) {
    exists steps :: Run(s, steps) && AllFrom(steps, t) && After(s, steps) == u
  }

  lemma ReachesItself(s: State, t: Time)
    ensures Reaches(s, t, s)
  {
    assert Run(s, []) && AllFrom([], t) && After(s, []) == s;
  }

  lemma ReachesOneMore(s: State, t: Time, u: State, step: Step)
    requires Reaches(s, t, u) && Possible(u, step) && NotBefore(step, t)
    ensures Reaches(s, t, Apply(u, step))
  {
    var steps :| Run(s, steps) && AllFrom(steps, t) && After(s, steps) == u;
    OneMoreStep(s, steps, step);
    assert AllFrom(steps + [step], t);
  }

  /** Nothing but the row was touched, and it may be asked for from `t` on. */
  ghost predicate Prepared(s: State, u: State, kind: Kind, t: Time) {
    && Reaches(s, t, u) && u.workers == s.workers && u.claims == s.claims && u.calls == s.calls && u.gens == s.gens
    && u.row.status.Waiting? && u.row.nextAttemptAt <= t && u.row.leaseUntil.None?
    && MayAsk(u.row.coex, t) && !SpentUnconfirmed(u.row.coex) && !Marked(u, kind)
  }

  function Other(kind: Kind): Kind { if kind.Contacts? then History else Contacts }

  /** A recovery: the other sync is settled if it is spent, and an operator retries. */
  lemma Recovers(s: State, kind: Kind, t: Time) returns (u: State)
    requires Opened(s, kind) && MaySync(s.row, t)
    ensures Prepared(s, u, kind, t)
  {
    ReachesItself(s, t);
    var settled := s;
    if SpentUnconfirmed(s.row.coex) {
      ReachesOneMore(s, t, s, PSettle(Other(kind)));
      settled := Apply(s, PSettle(Other(kind)));
    }
    ReachesOneMore(s, t, settled, PRetry(t));
    u := Apply(settled, PRetry(t));
  }

  /** Other WABAs take what phones there are beside this one. */
  lemma LosesOthers(s: State, u: State, kind: Kind, t: Time, phone: string) returns (v: State)
    requires Prepared(s, u, kind, t)
    ensures Prepared(s, v, kind, t) && (v.row.phones == {phone} || v.row.phones == {})
  {
    var others := u.row.phones - {phone};
    ReachesOneMore(s, t, u, PTaken(others));
    v := Apply(u, PTaken(others));
    if phone in u.row.phones {
      assert v.row.phones == {phone};
    } else {
      assert v.row.phones == {};
    }
  }

  /** Worker `j`, new in the span, owns the row and has this phone alone to ask for. */
  ghost predicate NewOwner(s: State, u: State, t: Time, j: nat, phone: string) {
    && Reaches(s, t, u) && u.calls == s.calls && u.gens == s.gens
    && j in u.workers && (forall i :: i in s.workers ==> i != j && i in u.workers && u.workers[i] == s.workers[i])
    && Owns(u.row, u.workers[j].pair) && u.workers[j].phones == {phone}
    && u.row.coex.onboarding.Coexistence?
    && u.row.coex.contacts.startedAt == u.workers[j].snap.contacts.startedAt
    && u.row.coex.history.startedAt == u.workers[j].snap.history.startedAt
  }

  predicate MaySpend(w: Worker, kind: Kind, t: Time) {
    MayAsk(w.snap, t) && !SpentUnconfirmed(w.snap) && SyncOf(w.snap, kind).startedAt.None?
  }

  lemma Claims(s: State, u: State, kind: Kind, t: Time) returns (v: State)
    requires Prepared(s, u, kind, t) && ClaimsOk(s)
    ensures var j := |s.claims|;
            && Reaches(s, t, v) && v.calls == s.calls && v.gens == s.gens
            && j !in s.workers && v.workers == s.workers[j := NewWorker(v.row)]
            && v.row.coex == u.row.coex && v.row.phones == u.row.phones && Owns(v.row, v.workers[j].pair)
            && v.row.attempts == u.row.attempts + 1
  {
    ReachesOneMore(s, t, u, PClaim(None, t));
    v := Apply(u, PClaim(None, t));
  }

  lemma ReadsPhones(s: State, u: State, t: Time, j: nat) returns (v: State)
    requires Reaches(s, t, u) && j in u.workers && u.workers[j].stage.ReadPhones?
    ensures Reaches(s, t, v)
    ensures v == u.(workers := u.workers[j := u.workers[j].(phones := u.row.phones, stage := if u.row.phones != {} then Configure else ListPhones)])
  {
    ReachesOneMore(s, t, u, PRead(j));
    v := Apply(u, PRead(j));
    ReachesOneMore(s, t, v, PSubscribed(j));
    v := Apply(v, PSubscribed(j));
    assert v.workers == u.workers[j := u.workers[j].(phones := u.row.phones, stage := if u.row.phones != {} then Configure else ListPhones)];
  }

  lemma Adopts(s: State, u: State, t: Time, j: nat, phone: string) returns (v: State)
    requires Reaches(s, t, u) && j in u.workers && u.workers[j].stage.ListPhones? && Owns(u.row, u.workers[j].pair)
    requires u.row.phones == {}
    ensures Reaches(s, t, v)
    ensures v == u.(row := u.row.(phones := {phone}), workers := u.workers[j := u.workers[j].(phones := {phone}, stage := Configure)])
  {
    ReachesOneMore(s, t, u, PListed(j, {phone}));
    v := Apply(u, PListed(j, {phone}));
    ReachesOneMore(s, t, v, PAdopted(j, false));
    v := Apply(v, PAdopted(j, false));
    assert {} + {phone} == {phone};
    assert v.workers == u.workers[j := u.workers[j].(phones := {phone}, stage := Configure)];
  }

  /** The worker gets to know its phone: from the row, or from Meta's list. */
  lemma Finds(s: State, u: State, t: Time, j: nat, phone: string) returns (v: State)
    requires Reaches(s, t, u) && j in u.workers && u.workers[j].stage.ReadPhones? && Owns(u.row, u.workers[j].pair)
    requires u.row.phones == {phone} || u.row.phones == {}
    ensures Reaches(s, t, v) && v.calls == u.calls && v.gens == u.gens && v.row.coex == u.row.coex
    ensures v.workers == u.workers[j := u.workers[j].(phones := {phone}, stage := Configure)] && Owns(v.row, v.workers[j].pair)
  {
    v := ReadsPhones(s, u, t, j);
    if u.row.phones == {} {
      v := Adopts(s, v, t, j, phone);
    }
    assert v.workers == u.workers[j := u.workers[j].(phones := {phone}, stage := Configure)];
  }

  function FirstOwed(c: Coex): Kind { if c.contacts.startedAt.None? then Contacts else History }

  /** Worker `j` moved on alone, and goes on to `stage`. */
  ghost predicate Moved(u: State, v: State, j: nat, stage: Stage) {
    && j in u.workers && j in v.workers && v.row == u.row && v.calls == u.calls && v.gens == u.gens
    && v.workers == u.workers[j := v.workers[j]]
    && v.workers[j] == u.workers[j].(stage := stage, progress := v.workers[j].progress)
  }

  lemma MovedOwner(s: State, u: State, v: State, t: Time, j: nat, phone: string, stage: Stage)
    requires NewOwner(s, u, t, j, phone) && Reaches(s, t, v) && Moved(u, v, j, stage)
    ensures NewOwner(s, v, t, j, phone)
  {
  }

  lemma VerdictStarts(w: Worker, kind: Kind, t: Time)
    requires MaySpend(w, kind, t)
    ensures AfterVerdict(w, Coexistence, t).stage == Begin(FirstOwed(w.snap))
    ensures AfterConfig(w, t).stage == if w.snap.verified.Some? then Begin(FirstOwed(w.snap)) else Verify
  {
  }

  lemma Starts(s: State, u: State, kind: Kind, t: Time, j: nat, phone: string) returns (v: State)
    requires NewOwner(s, u, t, j, phone) && u.workers[j].stage.Configure? && MaySpend(u.workers[j], kind, t)
    ensures NewOwner(s, v, t, j, phone) && MaySpend(v.workers[j], kind, t)
    ensures v.workers[j].stage == Begin(FirstOwed(v.workers[j].snap))
    ensures v.row == u.row && v.workers[j].snap == u.workers[j].snap && v.workers[j].pair == u.workers[j].pair
    ensures v.workers[j].progress == u.workers[j].progress.(verified := Some(Coexistence))
  {
    VerdictStarts(u.workers[j], kind, t);
    ReachesOneMore(s, t, u, PConfigured(j, t));
    v := Apply(u, PConfigured(j, t));
    MovedOwner(s, u, v, t, j, phone, v.workers[j].stage);
    if v.workers[j].stage.Verify? {
      v := Verifies(s, v, kind, t, j, phone);
    }
  }

  lemma Verifies(s: State, u: State, kind: Kind, t: Time, j: nat, phone: string) returns (v: State)
    requires NewOwner(s, u, t, j, phone) && u.workers[j].stage.Verify? && MaySpend(u.workers[j], kind, t)
    ensures NewOwner(s, v, t, j, phone) && Moved(u, v, j, Begin(FirstOwed(u.workers[j].snap)))
    ensures v.workers[j].progress == u.workers[j].progress.(verified := Some(Coexistence))
  {
    VerdictStarts(u.workers[j], kind, t);
    ReachesOneMore(s, t, u, PVerified(j, Coexistence, t));
    v := Apply(u, PVerified(j, Coexistence, t));
    MovedOwner(s, u, v, t, j, phone, v.workers[j].stage);
  }

  /** The mark is written, and the worker stands at its calls. */
  lemma Marks(s: State, u: State, t: Time, j: nat, phone: string) returns (v: State)
    requires NewOwner(s, u, t, j, phone) && u.workers[j].stage.Begin?
    requires SyncOf(u.workers[j].snap, u.workers[j].stage.kind).startedAt.None?
    ensures var w := u.workers[j];
            v.workers == u.workers[j := w.(stage := CallPhones(w.stage.kind, GenOf(s.gens, w.stage.kind), {phone}, None, None), issued := true)]
    ensures Reaches(s, t, v) && v.calls == s.calls && v.gens == s.gens && Owns(v.row, v.workers[j].pair)
    ensures v.row == BeginSyncRow(u.row, u.workers[j].pair, u.workers[j].stage.kind, t)
  {
    ReachesOneMore(s, t, u, PBeginSync(j, t, false));
    v := Apply(u, PBeginSync(j, t, false));
  }

  /** Contacts first: the phone accepts, and history is next. */
  lemma AsksForContacts(s: State, u: State, t: Time, j: nat, phone: string) returns (v: State)
    requires NewOwner(s, u, t, j, phone) && u.workers[j].stage == Begin(Contacts) && MaySpend(u.workers[j], History, t)
    requires u.workers[j].snap.contacts.startedAt.None?
    ensures Reaches(s, t, v) && v.gens == s.gens && j in v.workers && v.workers[j].stage == Begin(History)
    ensures forall i :: i in s.workers ==> i != j && i in v.workers && v.workers[i] == s.workers[i]
    ensures Owns(v.row, v.workers[j].pair) && MayBeginSync(v.row, v.workers[j].pair, History) && v.workers[j].phones == {phone}
    ensures v.calls == s.calls + [SyncCall(Contacts, phone, s.gens.contacts, s.gens.contacts, Some(Accepts(None)))]
  {
    v := Marks(s, u, t, j, phone);
    ReachesOneMore(s, t, v, PCall(j, phone, Some(Accepts(None))));
    v := Apply(v, PCall(j, phone, Some(Accepts(None))));
  }

  /** Worker `j` stands at its calls for the sync, and every worker of the start is where it was. */
  ghost predicate AtItsCall(s: State, u: State, kind: Kind, t: Time, j: nat, phone: string) {
    && Reaches(s, t, u) && u.gens == s.gens && |s.calls| <= |u.calls|
    && Late(u, kind, j, phone) && (forall i :: i in s.workers ==> i != j && i in u.workers && u.workers[i] == s.workers[i])
  }

  lemma GetsToCall(s: State, u: State, kind: Kind, t: Time, j: nat, phone: string) returns (v: State)
    requires NewOwner(s, u, t, j, phone) && u.workers[j].stage.Configure? && MaySpend(u.workers[j], kind, t)
    ensures AtItsCall(s, v, kind, t, j, phone)
  {
    v := Starts(s, u, kind, t, j, phone);
    if v.workers[j].stage.kind == kind {
      v := Marks(s, v, t, j, phone);
    } else {
      v := AsksForContacts(s, v, t, j, phone);
      ReachesOneMore(s, t, v, PBeginSync(j, t, false));
      v := Apply(v, PBeginSync(j, t, false));
    }
  }

  /** A worker of the span reaches its call for any phone Meta may list. */
  lemma SomeoneGetsToCall(s: State, kind: Kind, t: Time, phone: string) returns (u: State)
    requires Opened(s, kind) && MaySync(s.row, t)
    ensures AtItsCall(s, u, kind, t, |s.claims|, phone)
  {
    var j := |s.claims|;
    u := Recovers(s, kind, t);
    u := LosesOthers(s, u, kind, t, phone);
    var v := Claims(s, u, kind, t);
    var x := Finds(s, v, t, j, phone);
    u := GetsToCall(s, x, kind, t, j, phone);
  }

  /** Two workers at their calls for one phone make them both. */
  lemma BothCall(s: State, u: State, kind: Kind, t: Time, i: nat, j: nat, phone: string)
    requires Reaches(s, t, u) && u.gens == s.gens && |s.calls| <= |u.calls|
    requires i != j && Late(u, kind, i, phone) && Late(u, kind, j, phone)
    ensures !AskedOnce(s, kind, t)
  {
    ReachesOneMore(s, t, u, PCall(i, phone, None));
    var v := Apply(u, PCall(i, phone, None));
    ReachesOneMore(s, t, v, PCall(j, phone, None));
    var x := Apply(v, PCall(j, phone, None));
    var c := |u.calls|;
    assert x.calls[c].kind == kind && x.calls[c + 1].kind == kind && x.calls[c].phone == x.calls[c + 1].phone;
    var steps :| Run(s, steps) && AllFrom(steps, t) && After(s, steps) == x;
    assert !NoRepeat(After(s, steps).calls, kind, |s.calls|);
  }

  // ---- The condition ------------------------------------------------------------------------

  /** Main result: from the moment a registration or a reset of a sync opens a span, no phone is asked for
      that sync twice in it, in any run, exactly when no worker stands at its calls for the sync with phones
      left. Where no claim of the span may ask (an active or standard WABA, one Meta knows as standard, a
      window that is over), exactly when no two such workers have a phone in common. */
  lemma AsksOnceExactlyWhen(s: State, kind: Kind, t: Time)
    requires Opened(s, kind)
    ensures AskedOnce(s, kind, t) <==>
            forall i, phone :: Late(s, kind, i, phone) ==> !MaySync(s.row, t) && !SharedLate(s, kind, i, phone)
  {
    if i, phone :| Late(s, kind, i, phone) && MaySync(s.row, t) {
      var u := SomeoneGetsToCall(s, kind, t, phone);
      BothCall(s, u, kind, t, i, |s.claims|, phone);
    } else if i, phone :| SharedLate(s, kind, i, phone) {
      var j :| j != i && Late(s, kind, j, phone);
      ReachesItself(s, t);
      BothCall(s, s, kind, t, i, j, phone);
    } else if MaySync(s.row, t) {
      NobodyLateAsksOnce(s, kind, t);
    } else {
      OneLateEachAsksOnce(s, kind, t);
    }
  }

  lemma SameLate(s: State, s': State, kind: Kind)
    requires s'.workers == s.workers
    ensures forall i, phone :: Late(s', kind, i, phone) <==> Late(s, kind, i, phone)
    ensures forall i, phone :: SharedLate(s', kind, i, phone) <==> SharedLate(s, kind, i, phone)
  {
    assert forall i, phone :: Late(s', kind, i, phone) <==> Late(s, kind, i, phone);
  }

  /** A registration that takes: not the same handoff again. */
  predicate Registers(s: State, step: Step) {
    Possible(s, step) && (step.PRegister? || (step.PBegin? && !SameHandoff(s.row, step.fingerprint)))
  }

  predicate ToBeSynced(step: Step)
    requires step.PRegister? || step.PBegin?
  {
    step.onboarding.Coexistence? && (step.PRegister? ==> step.status.Waiting? || step.status.Dead?)
  }

  lemma RegistrationOpens(s: State, step: Step, kind: Kind)
    requires ClaimsOk(s) && OnceInv(s) && Registers(s, step)
    ensures var s' := Apply(s, step);
            Opened(s', kind) && s'.workers == s.workers && (MaySync(s'.row, step.now) <==> ToBeSynced(step))
  {
    StepKeepsClaims(s, step);
    OtherStepsAreSafe(s, step);
    forall i | i in s.workers ensures !Owns(Apply(s, step).row, s.workers[i].pair) {
      assert !Before(RowPair(s.row), s.workers[i].pair) by { assert s.workers[i].pair == s.claims[i]; }
    }
  }

  /** Main result, for a registration in any reachable state: it opens a span in which no phone is asked
      for a sync twice exactly when, as it is made, no worker stands at its calls for that sync with phones
      left; a registration as active or as standard, when no two such workers share a phone. */
  lemma RegistrationAsksOnceExactlyWhen(steps: seq<Step>, step: Step, kind: Kind)
    requires Run(Initial, steps) && Registers(After(Initial, steps), step)
    ensures var s := After(Initial, steps);
            AskedOnce(Apply(s, step), kind, step.now) <==>
            forall i, phone :: Late(s, kind, i, phone) ==> !ToBeSynced(step) && !SharedLate(s, kind, i, phone)
  {
    var s := After(Initial, steps);
    var s' := Apply(s, step);
    RunKeepsClaims(Initial, steps);
    RunIsSafe(Initial, steps);
    RegistrationOpens(s, step, kind);
    AsksOnceExactlyWhen(s', kind, step.now);
    SameLate(s, s', kind);
  }

  lemma ResetOpens(s: State, kind: Kind)
    requires ClaimsOk(s) && OnceInv(s) && ResetRow(s.row, kind) != s.row
    ensures var s' := Apply(s, PReset(kind));
            Opened(s', kind) && s'.workers == s.workers && s'.row.status == s.row.status
            && (forall t :: MayAsk(s'.row.coex, t) <==> MayAsk(s.row.coex, t))
  {
    StepKeepsClaims(s, PReset(kind));
    OtherStepsAreSafe(s, PReset(kind));
  }

  /** The same for an operator's reset that takes, at time `t`. */
  lemma ResetAsksOnceExactlyWhen(steps: seq<Step>, kind: Kind, t: Time)
    requires Run(Initial, steps) && ResetRow(After(Initial, steps).row, kind) != After(Initial, steps).row
    ensures var s := After(Initial, steps);
            AskedOnce(Apply(s, PReset(kind)), kind, t) <==>
            forall i, phone :: Late(s, kind, i, phone) ==> !MayAsk(s.row.coex, t) && !SharedLate(s, kind, i, phone)
  {
    var s := After(Initial, steps);
    var s' := Apply(s, PReset(kind));
    RunKeepsClaims(Initial, steps);
    RunIsSafe(Initial, steps);
    ResetOpens(s, kind);
    AsksOnceExactlyWhen(s', kind, t);
    SameLate(s, s', kind);
  }

  // ---- An answer without a request ------------------------------------------------------------

  lemma {:induction false} RunsJoin(s: State, a: seq<Step>, b: seq<Step>)
    requires Run(s, a) && Run(After(s, a), b)
    ensures Run(s, a + b) && After(s, a + b) == After(After(s, a), b)
    decreases |a|
  {
    if a == [] {
      assert a + b == b;
    } else {
      RunsJoin(Apply(s, a[0]), a[1..], b);
      assert (a + b)[1..] == a[1..] + b;
    }
  }

  lemma ReachesOn(s: State, t: Time, u: State, v: State)
    requires Reaches(s, t, u) && Reaches(u, t, v)
    ensures Reaches(s, t, v)
  {
    var a :| Run(s, a) && AllFrom(a, t) && After(s, a) == u;
    var b :| Run(u, b) && AllFrom(b, t) && After(u, b) == v;
    RunsJoin(s, a, b);
    assert AllFrom(a + b, t);
  }

  /** From a registration on: once contacts is marked, the WABA has an unanswered request and still counts as
      one that owes a sync. Only the order of the saga's two questions keeps it from asking again. */
  lemma SpentYetOutstanding(now: Time) returns (v: State)
    requires now >= 0
    ensures Reaches(Initial, now, v) && SpentUnconfirmed(v.row.coex) && Outstanding(v.row.coex)
    ensures forall w: Worker :: w.snap == v.row.coex ==>
              AfterConfig(w, now).stage == Failing(FailureFor(AtCoexistence, SyncUnconfirmed, w.issued))
  {
    var u := RefusedBeforeAsked(now);
    v := Claims(u, u, Contacts, now);
    v := Finds(u, v, now, 0, "1");
    v := Starts(u, v, Contacts, now, 0, "1");
    v := Marks(u, v, now, 0, "1");
    ReachesOn(Initial, now, u, v);
  }

  /** A coexistence WABA of one phone whose history is refused before it is asked for. */
  lemma RefusedBeforeAsked(now: Time) returns (u: State)
    requires now >= 0
    ensures Reaches(Initial, now, u) && Prepared(u, u, Contacts, now) && ClaimsOk(u)
    ensures u.workers == map[] && u.claims == [] && u.row.phones == {"1"} && u.row.attempts == 0
    ensures u.row.coex == Fresh(Coexistence, now).(history := Sync(None, Some(Marker(HistorySharingOff))))
  {
    ReachesItself(Initial, now);
    var register := PRegister(Waiting, Coexistence, {"1"}, now);
    ReachesOneMore(Initial, now, Initial, register);
    u := Apply(Initial, register);
    assert {} + {"1"} == {"1"};
    ReachesOneMore(Initial, now, u, PSharingOff(now));
    u := Apply(u, PSharingOff(now));
    ReachesItself(u, now);
  }

  /** The contacts call of the row's owner goes unanswered, and an operator settles it as not permitted. */
  lemma FailsAndIsSettled(u: State, v: State, now: Time) returns (x: State)
    requires Reaches(u, now, v) && 0 in v.workers && v.workers[0].stage.CallPhones? && v.workers[0].stage.kind.Contacts?
    requires "1" in v.workers[0].stage.left && v.workers[0].issued && Owns(v.row, v.workers[0].pair) && v.workers[0].pair.attempt == 1
    requires v.row.coex.contacts.startedAt.Some? && v.row.coex.contacts.requestId.None? && v.workers[0].progress.contactsId.None?
    ensures Reaches(u, now, x)
    ensures x.row.coex == Learned(v.row.coex, v.workers[0].progress).(contacts := Sync(v.row.coex.contacts.startedAt, Some(Marker(NotPermitted))))
  {
    ReachesOneMore(u, now, v, PCall(0, "1", Some(Fails(None))));
    x := Apply(v, PCall(0, "1", Some(Fails(None))));
    assert x.workers[0] == v.workers[0].(stage := Failing(Failure(CoexistenceUnconfirmed, false)));
    assert BackoffMs(1) == 5_000;
    ReachesOneMore(u, now, x, PFail(0, 5_000, now));
    x := Apply(x, PFail(0, 5_000, now));
    assert x.row.status.Dead?;
    ReachesOneMore(u, now, x, PSettle(Contacts));
    x := Apply(x, PSettle(Contacts));
  }

  /** The sharing refusal is on record before the history request, the contacts call goes unanswered, and
      an operator settles it as not permitted: the status says nothing is owed, and the saga may still ask
      for history. */
  lemma SettledYetOutstanding(now: Time) returns (x: State)
    requires now >= 0
    ensures Reaches(Initial, now, x)
    ensures var c := x.row.coex;
            c.onboarding.Coexistence? && !SpentUnconfirmed(c) && SettledStatus(StatusOf(c, now)) && Outstanding(c)
  {
    var u := RefusedBeforeAsked(now);
    var v := Claims(u, u, Contacts, now);
    v := Finds(u, v, now, 0, "1");
    v := Starts(u, v, Contacts, now, 0, "1");
    v := Marks(u, v, now, 0, "1");
    x := FailsAndIsSettled(u, v, now);
    ReachesOn(Initial, now, u, x);
  }
}
