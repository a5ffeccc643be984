/** What the provisioning saga leaves behind: a WABA that became active owes Meta nothing and has a
    phone. And what it cannot prevent: a worker that outlives a new registration. */
module ProvisioningOutcome {
  import opened Core
  import opened Coexistence
  import opened Provisioning

  /** What the worker owning the row knows of it: nobody else changed what it decides on. Only a
      reported sharing refusal may have added an answer to the history sync. */
  ghost predicate SameCoex(r: Row, w: Worker) {
    && r.coex.onboarding == w.snap.onboarding && r.coex.verified == w.snap.verified
    && r.coex.contacts.requestId == w.snap.contacts.requestId
    && (w.snap.history.requestId.Some? ==> r.coex.history.requestId.Some?)
  }

  predicate SameMarks(r: Row, w: Worker) {
    r.coex.contacts.startedAt == w.snap.contacts.startedAt && r.coex.history.startedAt == w.snap.history.startedAt
  }

  predicate FromSnap(w: Worker) {
    w.progress == Progress(w.snap.contacts.requestId, w.snap.history.requestId, w.snap.verified)
  }

  predicate Trying(w: Worker) { w.snap.onboarding.Coexistence? && !SpentUnconfirmed(w.snap) }

  predicate HasContacts(w: Worker) { w.progress.contactsId.Some? }

  predicate HasHistoryIfStarted(w: Worker) { w.snap.history.startedAt.Some? ==> w.progress.historyId.Some? }

  /** A worker may report success only with nothing left to ask. */
  predicate MayComplete(r: Row, w: Worker) {
    || w.snap.onboarding.Standard?
    || (w.progress.contactsId.Some? && w.progress.historyId.Some?)
    || (w.progress.verified == Some(Standard) && Trying(w) && SameMarks(r, w) && FirstOf(w.snap.verified, w.progress.verified) == Some(Standard))
  }

  predicate KnowsStage(r: Row, w: Worker) {
    match w.stage
    case Begin(kind) => Trying(w) && if kind.Contacts? then HasHistoryIfStarted(w) else HasContacts(w)
    case CallPhones(kind, _, _, _, _) => Trying(w) && if kind.Contacts? then HasHistoryIfStarted(w) else HasContacts(w)
    case Complete => MayComplete(r, w)
    case Verify => Trying(w) && w.snap.verified.None? && SameMarks(r, w) && FromSnap(w)
    case Failing(_) => true
    case _ => SameMarks(r, w) && FromSnap(w)
  }

  predicate PastPhones(stage: Stage) {
    stage.Configure? || stage.Verify? || stage.Begin? || stage.CallPhones? || stage.Complete?
  }

  /** The phones it goes on with are still on the row, unless another WABA took them. */
  predicate KnowsPhones(s: State, w: Worker) {
    && (PastPhones(w.stage) ==> w.phones != {})
    && (w.phones != {} && !s.taken && !w.stage.Failing? ==> s.row.phones != {})
  }

  ghost predicate Knows(s: State, w: Worker) {
    Owns(s.row, w.pair) ==> SameCoex(s.row, w) && KnowsStage(s.row, w) && KnowsPhones(s, w)
  }

  ghost predicate OutcomeOk(s: State) {
    s.row.status.Active? && s.viaSaga ==> Settled(s.row.coex) && (s.taken || s.row.phones != {})
  }

  ghost predicate Inv(s: State) {
    && ClaimsOk(s) && OutcomeOk(s)
    && (forall i :: i in s.workers ==> Knows(s, s.workers[i]))
  }

  /** The row's owner is one worker, so another's write leaves the owner's knowledge alone. */
  lemma OneOwner(s: State, i: nat, j: nat)
    requires ClaimsOk(s) && i in s.workers && j in s.workers && i != j
    ensures !Owns(s.row, s.workers[i].pair) || !Owns(s.row, s.workers[j].pair)
  {
    assert Before(s.claims[Min(i, j)], s.claims[Max(i, j)]);
  }

  lemma FirstSyncKnows(s: State, w: Worker)
    requires Owns(s.row, w.pair) ==> SameCoex(s.row, w)
    requires Trying(w) && w.progress.contactsId == w.snap.contacts.requestId && w.progress.historyId == w.snap.history.requestId
    requires KnowsPhones(s, w.(stage := Verify))
    ensures Knows(s, FirstSync(w))
  {
  }

  lemma VerdictKnows(s: State, w: Worker, verdict: Onboarding, now: Time)
    requires Owns(s.row, w.pair) ==> SameCoex(s.row, w) && SameMarks(s.row, w) && KnowsPhones(s, w.(stage := Verify))
    requires Trying(w) && FromSnap(w) && (w.snap.verified.None? || w.snap.verified == Some(verdict)) && w.phones != {}
    ensures Knows(s, AfterVerdict(w, verdict, now))
  {
    var known := w.(progress := w.progress.(verified := Some(verdict)));
    if Owns(s.row, w.pair) && verdict.Coexistence? {
      FirstSyncKnows(s, known);
    }
  }

  lemma ConfigKnows(s: State, w: Worker, now: Time)
    requires Knows(s, w) && w.stage.Configure? && Owns(s.row, w.pair)
    ensures Knows(s, AfterConfig(w, now))
  {
    if w.snap.onboarding.Coexistence? && !SpentUnconfirmed(w.snap) && Outstanding(w.snap) && w.snap.verified.Some? {
      VerdictKnows(s, w, w.snap.verified.value, now);
    }
  }

  lemma AnswerKnows(s: State, w: Worker, phone: string, answer: Answer)
    requires Knows(s, w) && w.stage.CallPhones?
    ensures Knows(s, AfterAnswer(w, phone, answer))
  {
  }

  /** A worker that moves on without touching the row keeps what it knows. */
  lemma MoveKnows(s: State, step: Step, i: nat)
    requires Inv(s) && Possible(s, step) && i in s.workers && Owns(s.row, s.workers[i].pair)
    requires match step
             case PRead(j) => i == j
             case PSubscribed(j) => i == j
             case PListed(j, _) => i == j
             case PConfigured(j, _) => i == j
             case PVerified(j, _, _) => i == j
             case PCall(j, _, _) => i == j
             case PError(j, _, _) => i == j
             case _ => false
    ensures i in Apply(s, step).workers ==> Knows(s, Apply(s, step).workers[i])
  {
    var w := s.workers[i];
    match step
    case PRead(_) =>
    case PSubscribed(_) =>
    case PListed(_, found) =>
    case PConfigured(_, now) => ConfigKnows(s, w, now);
    case PVerified(_, verdict, now) => VerdictKnows(s, w, verdict, now);
    case PCall(_, phone, answer) => if answer.Some? { AnswerKnows(s, w, phone, answer.value); }
    case PError(_, _, _) =>
  }

  lemma AdoptKnows(s: State, i: nat, lost: bool)
    requires Inv(s) && Possible(s, PAdopted(i, lost)) && Owns(s.row, s.workers[i].pair)
    ensures var s' := Apply(s, PAdopted(i, lost)); Knows(s', s'.workers[i])
  {
  }

  /** Marking a sync changes nothing of the row but the mark. */
  lemma MarkKeepsRow(r: Row, p: Pair, kind: Kind, at: Time)
    ensures var r' := BeginSyncRow(r, p, kind, at);
            && r'.status == r.status && RowPair(r') == RowPair(r) && r'.phones == r.phones
            && r'.coex.onboarding == r.coex.onboarding && r'.coex.verified == r.coex.verified
            && r'.coex.contacts.requestId == r.coex.contacts.requestId && r'.coex.history.requestId == r.coex.history.requestId
  {
  }

  /** A worker at its calls or failing knows what it knew before it marked. */
  lemma MarkedKnows(s: State, s': State, w: Worker, w': Worker)
    requires Knows(s, w) && w.stage.Begin? && Owns(s.row, w.pair)
    requires s'.taken == s.taken && s'.row.phones == s.row.phones
    requires s'.row.coex.onboarding == s.row.coex.onboarding && s'.row.coex.verified == s.row.coex.verified
    requires s'.row.coex.contacts.requestId == s.row.coex.contacts.requestId
    requires s'.row.coex.history.requestId == s.row.coex.history.requestId
    requires w'.pair == w.pair && w'.snap == w.snap && w'.phones == w.phones && w'.progress == w.progress
    requires w'.stage.Failing? || (w'.stage.CallPhones? && w'.stage.kind == w.stage.kind)
    ensures Knows(s', w')
  {
  }

  lemma BeginKnows(s: State, i: nat, at: Time, lost: bool)
    requires Inv(s) && Possible(s, PBeginSync(i, at, lost)) && Owns(s.row, s.workers[i].pair)
    ensures var s' := SyncBegun(s, i, at, lost); Knows(s', s'.workers[i])
  {
    var s', w := SyncBegun(s, i, at, lost), s.workers[i];
    MarkKeepsRow(s.row, w.pair, w.stage.kind, at);
    MarkedKnows(s, s', w, s'.workers[i]);
  }

  /** The row changed without losing its owner: only in ways the owner's knowledge allows for. */
  lemma OthersKnow(s: State, s': State, w: Worker)
    requires Knows(s, w)
    requires Owns(s'.row, w.pair) ==> Owns(s.row, w.pair)
    requires Owns(s'.row, w.pair) ==>
               && s'.row.coex.onboarding == s.row.coex.onboarding && s'.row.coex.verified == s.row.coex.verified
               && s'.row.coex.contacts == s.row.coex.contacts
               && s'.row.coex.history.startedAt == s.row.coex.history.startedAt
               && (s.row.coex.history.requestId.Some? ==> s'.row.coex.history.requestId.Some?)
               && (!s'.taken ==> !s.taken && (s.row.phones != {} ==> s'.row.phones != {}))
    ensures Knows(s', w)
  {
  }

  /** What a step may do to the row while its owner keeps it. */
  predicate Quiet(s: State, step: Step)
    requires Possible(s, step)
  {
    var s' := Apply(s, step);
    s'.row.status.Waiting? && RowPair(s'.row) == RowPair(s.row) && s.row.status.Waiting? ==>
      && s'.row.coex.onboarding == s.row.coex.onboarding && s'.row.coex.verified == s.row.coex.verified
      && s'.row.coex.contacts == s.row.coex.contacts
      && s'.row.coex.history.startedAt == s.row.coex.history.startedAt
      && (s.row.coex.history.requestId.Some? ==> s'.row.coex.history.requestId.Some?)
      && (!s'.taken ==> !s.taken && (s.row.phones != {} ==> s'.row.phones != {}))
  }

  lemma OperatorStepsAreQuiet(s: State, step: Step)
    requires Possible(s, step)
    requires step.PRegister? || step.PBegin? || step.PClaim? || step.PRetry? || step.PReset? || step.PSettle?
             || step.PSharingOff? || step.PTaken?
    ensures Quiet(s, step)
    ensures Apply(s, step).row.status.Waiting? && RowPair(Apply(s, step).row) == RowPair(s.row) ==> s.row.status.Waiting?
    ensures !step.PClaim? ==> Apply(s, step).workers == s.workers
  {
  }

  lemma OperatorStepKnows(s: State, step: Step)
    requires Inv(s) && Possible(s, step)
    requires step.PRegister? || step.PBegin? || step.PRetry? || step.PReset? || step.PSettle? || step.PSharingOff? || step.PTaken?
    ensures forall i :: i in Apply(s, step).workers ==> Knows(Apply(s, step), Apply(s, step).workers[i])
  {
    OperatorStepsAreQuiet(s, step);
    PairNeverGoesBack(s, step);
    forall i | i in s.workers
      ensures Knows(Apply(s, step), s.workers[i])
    {
      assert !Before(RowPair(s.row), s.workers[i].pair) by { assert s.workers[i].pair == s.claims[i]; }
      OthersKnow(s, Apply(s, step), s.workers[i]);
    }
  }

  lemma ClaimKnows(s: State, now: Time, expected: Option<nat>)
    requires Inv(s) && Possible(s, PClaim(expected, now))
    ensures var s' := Claimed(s, now); forall i :: i in s'.workers ==> Knows(s', s'.workers[i])
  {
    var s' := Claimed(s, now);
    forall i | i in s.workers && i != |s.claims|
      ensures Knows(s', s.workers[i])
    {
      assert !Before(RowPair(s.row), s.workers[i].pair) by { assert s.workers[i].pair == s.claims[i]; }
    }
  }

  /** A worker that does not own the row writes nothing to it. */
  lemma NonOwnerWritesNothing(s: State, step: Step)
    requires Possible(s, step) && WorkerOf(step).Some? && WorkerOf(step).value in s.workers
    requires !Owns(s.row, s.workers[WorkerOf(step).value].pair)
    ensures Apply(s, step).row == s.row
  {
    var p := s.workers[WorkerOf(step).value].pair;
    if step.PAdopted? {
      assert s.row.phones + {} == s.row.phones;
    }
  }

  lemma WorkerStepTouchesOne(s: State, step: Step)
    requires Possible(s, step) && WorkerOf(step).Some?
    ensures var s', i := Apply(s, step), WorkerOf(step).value;
            i in s.workers && forall j :: j in s'.workers && j != i ==> j in s.workers && s'.workers[j] == s.workers[j]
  {
  }

  lemma WorkerStepKeepsFlags(s: State, step: Step)
    requires Possible(s, step) && WorkerOf(step).Some?
    ensures Apply(s, step).taken == s.taken && Apply(s, step).viaSaga == s.viaSaga
  {
  }

  lemma WorkerStepKeepsPair(s: State, step: Step)
    requires Possible(s, step) && WorkerOf(step).Some?
    ensures var s' := Apply(s, step);
            RowPair(s'.row) == RowPair(s.row) && (s'.row.status.Waiting? ==> s.row.status.Waiting?)
  {
  }

  lemma OwnerStepKnows(s: State, step: Step)
    requires Inv(s) && Possible(s, step) && WorkerOf(step).Some? && WorkerOf(step).value in s.workers
    requires Owns(s.row, s.workers[WorkerOf(step).value].pair)
    ensures forall j :: j in Apply(s, step).workers ==> Knows(Apply(s, step), Apply(s, step).workers[j])
  {
    var s', i := Apply(s, step), WorkerOf(step).value;
    WorkerStepTouchesOne(s, step);
    WorkerStepKeepsPair(s, step);
    forall j | j in s'.workers
      ensures Knows(s', s'.workers[j])
    {
      if j != i {
        OneOwner(s, i, j);
      } else {
        OwnStepKnows(s, step, i);
      }
    }
  }

  lemma StrangerStepKnows(s: State, step: Step)
    requires Inv(s) && Possible(s, step) && WorkerOf(step).Some? && WorkerOf(step).value in s.workers
    requires !Owns(s.row, s.workers[WorkerOf(step).value].pair)
    ensures forall j :: j in Apply(s, step).workers ==> Knows(Apply(s, step), Apply(s, step).workers[j])
  {
    var s', i := Apply(s, step), WorkerOf(step).value;
    WorkerStepTouchesOne(s, step);
    WorkerStepKeepsFlags(s, step);
    StrangerKeepsPair(s, step, i);
    NonOwnerWritesNothing(s, step);
    forall j | j in s'.workers
      ensures Knows(s', s'.workers[j])
    {
      if j != i {
        OthersKnow(s, s', s.workers[j]);
      }
    }
  }

  lemma StrangerKeepsPair(s: State, step: Step, i: nat)
    requires Possible(s, step) && WorkerOf(step) == Some(i) && i in s.workers
    ensures i in Apply(s, step).workers ==> Apply(s, step).workers[i].pair == s.workers[i].pair
  {
  }

  lemma WorkerStepKnows(s: State, step: Step)
    requires Inv(s) && Possible(s, step) && WorkerOf(step).Some?
    ensures forall j :: j in Apply(s, step).workers ==> Knows(Apply(s, step), Apply(s, step).workers[j])
  {
    WorkerStepTouchesOne(s, step);
    if Owns(s.row, s.workers[WorkerOf(step).value].pair) {
      OwnerStepKnows(s, step);
    } else {
      StrangerStepKnows(s, step);
    }
  }

  lemma OwnStepKnows(s: State, step: Step, i: nat)
    requires Inv(s) && Possible(s, step) && WorkerOf(step) == Some(i) && i in s.workers && Owns(s.row, s.workers[i].pair)
    ensures i in Apply(s, step).workers ==> Knows(Apply(s, step), Apply(s, step).workers[i])
  {
    if step.PAdopted? {
      AdoptKnows(s, i, step.lost);
    } else if step.PBeginSync? {
      BeginKnows(s, i, step.at, step.lost);
    } else if step.PComplete? {
      CompletedIsNotOwned(s, i, step.lost, step.now);
    } else if !step.PFail? && i in Apply(s, step).workers {
      MoveKnows(s, step, i);
      SameRowKnows(s, step, i);
    }
  }

  lemma CompletedIsNotOwned(s: State, i: nat, lost: bool, now: Time)
    requires Possible(s, PComplete(i, lost, now)) && Owns(s.row, s.workers[i].pair)
    ensures Completed(s, i, lost, now).row.status.Active?
  {
  }

  lemma SameRowKnows(s: State, step: Step, i: nat)
    requires Possible(s, step) && WorkerOf(step) == Some(i) && i in Apply(s, step).workers
    requires !step.PAdopted? && !step.PBeginSync? && !step.PComplete? && !step.PFail?
    requires Knows(s, Apply(s, step).workers[i])
    ensures Knows(Apply(s, step), Apply(s, step).workers[i])
  {
  }

  // ---- Active -------------------------------------------------------------------------------

  /** A success is only reported with nothing owed. */
  lemma SuccessIsSettled(s: State, i: nat, lost: bool, now: Time)
    requires Inv(s) && Possible(s, PComplete(i, lost, now)) && Owns(s.row, s.workers[i].pair)
    ensures OutcomeOk(Completed(s, i, lost, now))
  {
    var w := s.workers[i];
    assert Knows(s, w);
  }

  lemma SharingOffKeepsSettled(r: Row, now: Time)
    requires Settled(r.coex)
    ensures Settled(SharingOffRow(r, now).coex)
  {
  }

  lemma StepKeepsOutcome(s: State, step: Step)
    requires Inv(s) && Possible(s, step)
    ensures OutcomeOk(Apply(s, step))
  {
    match step
    case PComplete(i, lost, now) =>
      if Owns(s.row, s.workers[i].pair) {
        SuccessIsSettled(s, i, lost, now);
      }
    case PSharingOff(now) => if s.row.status.Active? && s.viaSaga { SharingOffKeepsSettled(s.row, now); }
    case _ =>
  }

  lemma StepKeepsInv(s: State, step: Step)
    requires Inv(s) && Possible(s, step)
    ensures Inv(Apply(s, step))
  {
    StepKeepsClaims(s, step);
    StepKeepsOutcome(s, step);
    if WorkerOf(step).Some? {
      WorkerStepKnows(s, step);
    } else if step.PClaim? {
      ClaimKnows(s, step.now, step.expected);
    } else {
      OperatorStepKnows(s, step);
    }
  }

  lemma {:induction false} RunKeepsInv(s: State, steps: seq<Step>)
    requires Inv(s) && Run(s, steps)
    ensures Inv(After(s, steps))
    decreases |steps|
  {
    if steps != [] {
      StepKeepsInv(s, steps[0]);
      RunKeepsInv(Apply(s, steps[0]), steps[1..]);
    }
  }

  /** A WABA the saga made active owes Meta no sync, now or at any later time: whatever the workers did,
      its coexistence status is not applicable, initiated, unavailable or not coexistence. */
  lemma ActiveOwesNothing(steps: seq<Step>, now: Time)
    requires Run(Initial, steps)
    ensures var s := After(Initial, steps);
            s.row.status.Active? && s.viaSaga ==> SettledStatus(StatusOf(s.row.coex, now))
  {
    RunKeepsInv(Initial, steps);
    SettledForGood(After(Initial, steps).row.coex, now);
  }

  /** And it has a phone, unless another WABA's registration or adoption took one of its phones. */
  lemma ActiveHasAPhone(steps: seq<Step>)
    requires Run(Initial, steps)
    ensures var s := After(Initial, steps);
            s.row.status.Active? && s.viaSaga && !s.taken ==> s.row.phones != {}
  {
    RunKeepsInv(Initial, steps);
  }

  // ---- A worker that outlives a registration --------------------------------------------------

  lemma {:induction false} OneMoreStep(s: State, steps: seq<Step>, step: Step)
    requires Run(s, steps) && Possible(After(s, steps), step)
    ensures Run(s, steps + [step]) && After(s, steps + [step]) == Apply(After(s, steps), step)
    decreases |steps|
  {
    if steps == [] {
      assert steps + [step] == [step];
      assert Run(Apply(s, step), []);
      assert After(s, [step]) == After(Apply(s, step), []);
    } else {
      OneMoreStep(Apply(s, steps[0]), steps[1..], step);
      assert (steps + [step])[1..] == steps[1..] + [step];
    }
  }

  /** A registration of one phone, and the worker that claims it. */
  lemma WorkerClaims(steps: seq<Step>) returns (more: seq<Step>)
    requires Run(Initial, steps) && After(Initial, steps).row.phones <= {"1"}
    ensures Run(Initial, more)
    ensures var s, s' := After(Initial, steps), After(Initial, more);
            && s'.row.phones == {"1"} && s'.row.status == Waiting && s'.row.coex == Fresh(Coexistence, 0)
            && RowPair(s'.row) == Pair(s.row.revision + 1, 1)
            && s'.workers == s.workers[|s.claims| := NewWorker(s'.row)] && |s'.claims| == |s.claims| + 1
            && s'.calls == s.calls && s'.gens.contacts == s.gens.contacts + 1
  {
    var register := PRegister(Waiting, Coexistence, {"1"}, 0);
    OneMoreStep(Initial, steps, register);
    assert After(Initial, steps).row.phones + {"1"} == {"1"};
    OneMoreStep(Initial, steps + [register], PClaim(None, 0));
    more := steps + [register] + [PClaim(None, 0)];
  }

  lemma WorkerReachesVerify(steps: seq<Step>, i: nat) returns (more: seq<Step>)
    requires Run(Initial, steps)
    requires var s := After(Initial, steps);
             i in s.workers && s.workers[i] == NewWorker(s.row) && s.row.phones == {"1"} && s.row.coex == Fresh(Coexistence, 0)
    ensures Run(Initial, more)
    ensures var s, s' := After(Initial, steps), After(Initial, more);
            s' == s.(workers := s.workers[i := s.workers[i].(phones := {"1"}, stage := Verify)])
  {
    var s := After(Initial, steps);
    OneMoreStep(Initial, steps, PRead(i));
    more := steps + [PRead(i)];
    OneMoreStep(Initial, more, PSubscribed(i));
    OneMoreStep(Initial, more + [PSubscribed(i)], PConfigured(i, 0));
    more := more + [PSubscribed(i)] + [PConfigured(i, 0)];
    assert After(Initial, more).workers == s.workers[i := s.workers[i].(phones := {"1"}, stage := Verify)];
  }

  /** The worker goes on to the point where it calls the phone. */
  lemma WorkerReachesCall(steps: seq<Step>, i: nat) returns (more: seq<Step>)
    requires Run(Initial, steps)
    requires var s := After(Initial, steps);
             && i in s.workers && s.workers[i] == NewWorker(s.row)
             && s.row.phones == {"1"} && s.row.status == Waiting && s.row.coex == Fresh(Coexistence, 0)
    ensures Run(Initial, more)
    ensures var s, s' := After(Initial, steps), After(Initial, more);
            && i in s'.workers && s'.workers[i].stage == CallPhones(Contacts, s.gens.contacts, {"1"}, None, None)
            && (forall j :: j in s.workers && j != i ==> j in s'.workers && s'.workers[j] == s.workers[j])
            && s'.calls == s.calls && s'.gens == s.gens && s'.claims == s.claims && s'.row.phones == s.row.phones
  {
    var verify := WorkerReachesVerify(steps, i);
    OneMoreStep(Initial, verify, PVerified(i, Coexistence, 0));
    more := verify + [PVerified(i, Coexistence, 0)];
    VerifiedWorkerCalls(After(Initial, more), i);
    OneMoreStep(Initial, more, PBeginSync(i, 0, false));
    more := more + [PBeginSync(i, 0, false)];
  }

  lemma VerifiedWorkerCalls(s: State, i: nat)
    requires i in s.workers && s.workers[i].stage == Begin(Contacts) && Owns(s.row, s.workers[i].pair)
    requires s.row.coex == Fresh(Coexistence, 0)
    ensures SyncBegun(s, i, 0, false).workers[i].stage == CallPhones(Contacts, s.gens.contacts, s.workers[i].phones, None, None)
  {
  }

  /** A worker of the first registration, still between its mark and its call when the customer is
      onboarded again, repeats the request of the second registration's worker. */
  lemma LateWorkerRepeats() returns (steps: seq<Step>)
    ensures Run(Initial, steps)
    ensures var calls := After(Initial, steps).calls;
            |calls| == 2 && calls[0].kind == calls[1].kind && calls[0].phone == calls[1].phone && calls[0].madeIn == calls[1].madeIn
  {
    assert Run(Initial, []) && After(Initial, []) == Initial;
    steps := WorkerClaims([]);
    steps := WorkerReachesCall(steps, 0);
    steps := WorkerClaims(steps);
    steps := WorkerReachesCall(steps, 1);
    var s := After(Initial, steps);
    OneMoreStep(Initial, steps, PCall(1, "1", Some(Accepts(None))));
    var s1 := Called(s, 1, "1", Some(Accepts(None)));
    steps := steps + [PCall(1, "1", Some(Accepts(None)))];
    OneMoreStep(Initial, steps, PCall(0, "1", None));
    steps := steps + [PCall(0, "1", None)];
  }
}
