/** What each control-plane call owes the row of a WABA, column by column, and which failures the saga tries again
    (apps/gateway/src/control-plane.ts:985-1180, 1338-1800, apps/gateway/src/provisioning.ts:110-182). */
module ProvisioningRows {
  import opened Core
  import opened Coexistence
  import opened Provisioning

  // ---- Failures -------------------------------------------------------------------------------

  /** Of Meta's errors a refusal is final, unless it is a timeout, too early, too many or a server's error; no answer
      is tried again. */
  predicate TriedAgain(place: Place, e: SagaError, issued: bool) {
    match place
    case AtMeta => e.Http? ==> e.status == 408 || e.status == 425 || e.status == 429 || e.status >= 500
    case AtConfiguration => e.AwaitingPhone?
    case AtGateway => true
    case AtCoexistence => e.AwaitingPhone? || (!issued && !e.WindowClosed? && !e.SyncUnconfirmed?)
  }

  lemma FailuresTriedAgain(place: Place, e: SagaError, issued: bool)
    ensures FailureFor(place, e, issued).retryable <==> TriedAgain(place, e, issued)
    ensures FailureFor(place, e, issued).kind.AwaitingPhoneNumber? <==> e.AwaitingPhone?
    ensures FailureFor(place, e, issued).kind.CoexistenceUnconfirmed? <==>
              place.AtCoexistence? && !e.AwaitingPhone? && !e.WindowClosed? && (e.SyncUnconfirmed? || issued)
    ensures FailureFor(place, e, issued).kind.CoexistenceExpired? <==> place.AtCoexistence? && e.WindowClosed?
    ensures FailureFor(place, e, issued).kind.MetaFailed? <==> place.AtMeta? && !e.AwaitingPhone?
    ensures FailureFor(place, e, issued).kind.ConfigurationFailed? <==> place.AtConfiguration? && !e.AwaitingPhone?
  {
  }

  /** Each attempt waits five times as long as the one before, from five seconds up to an hour. */
  lemma BackoffGrows(attempt: nat)
    ensures attempt <= 1 ==> BackoffMs(attempt) == 5_000
    ensures attempt >= 1 ==> BackoffMs(attempt + 1) == Min(5 * BackoffMs(attempt), 3_600_000)
  {
    if attempt >= 1 {
      assert Pow5(attempt) == 5 * Pow5(attempt - 1);
    } else {
      assert Pow5(0) == 1;
    }
  }

  // ---- The derived status ---------------------------------------------------------------------

  predicate IsRefusal(id: string) {
    id == "unavailable:already_synced" || id == "unavailable:history_sharing_off" || id == "unavailable:not_permitted"
  }

  /** What the row's status column says at `now`, first what Meta answered, then what is unanswered, what Meta
      called the number, and the deadline. */
  predicate StatusIs(c: Coex, now: Time, status: Status) {
    if c.onboarding.Standard? then status.NotApplicable?
    else if c.contacts.requestId.Some? && c.history.requestId.Some? then
      status == if IsRefusal(c.contacts.requestId.value) || IsRefusal(c.history.requestId.value) then Unavailable else Initiated
    else if (c.contacts.startedAt.Some? && c.contacts.requestId.None?) || (c.history.startedAt.Some? && c.history.requestId.None?)
      then status.Unconfirmed?
    else if c.verified == Some(Standard) then status.NotCoexistence?
    else if c.deadlineAt.Some? && c.deadlineAt.value <= now then status.Expired?
    else status.Pending?
  }

  lemma StatusByCase(c: Coex, now: Time)
    ensures StatusIs(c, now, StatusOf(c, now))
  {
  }

  // ---- Registrations --------------------------------------------------------------------------

  /** Nothing asked, nothing answered, and a day to ask in. */
  predicate StartsOver(c: Coex, onboarding: Onboarding, now: Time) {
    && c.onboarding == onboarding && c.verified.None?
    && c.contacts == Sync(None, None) && c.history == Sync(None, None)
    && c.deadlineAt == if onboarding.Coexistence? then Some(now + 24 * 3600_000) else None
  }

  predicate RegisterDone(r: Row, r': Row, status: Lifecycle, onboarding: Onboarding, phones: set<string>, now: Time) {
    && r'.status == status && r'.revision == r.revision + 1 && r'.attempts == 0 && r'.nextAttemptAt == 0
    && r'.leaseUntil.None? && r'.fingerprint.None?
    && StartsOver(r'.coex, onboarding, now) && r'.coexStatus == (if onboarding.Coexistence? then Pending else NotApplicable)
    && r'.phones == r.phones + phones
  }

  /** A handoff starts the saga over, unless it is the one a WABA that has not failed was last given. */
  predicate HandoffDone(r: Row, r': Row, fingerprint: string, onboarding: Onboarding, phones: set<string>, now: Time) {
    if (r.status.Waiting? || r.status.Active?) && r.fingerprint == Some(fingerprint) then r' == r
    else
      && r'.status.Waiting? && r'.revision == r.revision + 1 && r'.attempts == 0 && r'.nextAttemptAt == now
      && r'.leaseUntil.None? && r'.fingerprint == Some(fingerprint)
      && StartsOver(r'.coex, onboarding, now) && r'.coexStatus == (if onboarding.Coexistence? then Pending else NotApplicable)
      && r'.phones == if phones == {} then r.phones else phones
  }

  // ---- Claims ---------------------------------------------------------------------------------

  /** A waiting row that is due, and that no claim holds a lease on. */
  predicate MayClaim(r: Row, now: Time, expected: Option<nat>) {
    && r.status.Waiting? && r.nextAttemptAt <= now && !(r.leaseUntil.Some? && r.leaseUntil.value > now)
    && expected in {None, Some(r.revision)}
  }

  /** One attempt more, leased for a minute, and a worker with what the row then said. */
  predicate ClaimDone(r: Row, r': Row, w: Worker, now: Time) {
    && r'.attempts == r.attempts + 1 && r'.nextAttemptAt == now + 60_000 && r'.leaseUntil == Some(now + 60_000)
    && r' == r.(attempts := r'.attempts, nextAttemptAt := r'.nextAttemptAt, leaseUntil := r'.leaseUntil)
    && w.pair == Pair(r.revision, r.attempts + 1) && w.snap == r.coex && w.stage.ReadPhones? && !w.issued
    && w.progress == Progress(r.coex.contacts.requestId, r.coex.history.requestId, r.coex.verified)
  }

  /** An operator's retry of a waiting or failed row: at once, a new revision, all else as it was. */
  predicate RetryDone(r: Row, r': Row, now: Time) {
    if r.status.Waiting? || r.status.Dead? then
      && r'.status.Waiting? && r'.attempts == 0 && r'.nextAttemptAt == now && r'.leaseUntil.None?
      && r'.revision == r.revision + 1 && r'.coex == r.coex && r'.coexStatus == r.coexStatus
      && r'.fingerprint == r.fingerprint && r'.phones == r.phones
    else r' == r
  }

  // ---- Writes of a claim ----------------------------------------------------------------------

  /** The claim is the row's last, and the row still waits. */
  predicate IsLast(r: Row, p: Pair) { r.status.Waiting? && p == Pair(r.revision, r.attempts) }

  predicate AdoptDone(r: Row, r': Row, p: Pair, found: set<string>, adopted: set<string>) {
    if IsLast(r, p) && r.phones == {} then adopted == found && r' == r.(phones := found)
    else adopted == {} && r' == r
  }

  /** The sync of one kind is marked as about to be asked for; the other kind stays as it is. */
  predicate BeginDone(r: Row, r': Row, p: Pair, kind: Kind, at: Time, started: bool) {
    && (started <==> IsLast(r, p) && r.coex.onboarding.Coexistence?
                     && (if kind.Contacts? then r.coex.contacts.startedAt.None? else r.coex.history.startedAt.None?))
    && if !started then r' == r
       else if kind.Contacts? then r' == r.(coex := r.coex.(contacts := Sync(Some(at), r.coex.contacts.requestId)))
       else r' == r.(coex := r.coex.(history := Sync(Some(at), r.coex.history.requestId)))
  }

  /** What an attempt learned is added where nothing was known. */
  predicate Adds<T(==)>(was: Option<T>, learned: Option<T>, now: Option<T>) { now == if was.Some? then was else learned }

  /** An attempt ends: active on success; failed for good when the failure is final, or at the sixth attempt unless it
      only waits for a number; else the next attempt is due after `delay`. */
  predicate CompleteDone(r: Row, r': Row, p: Pair, progress: Progress, failure: Option<Failure>, delay: int, now: Time) {
    if !IsLast(r, p) then r' == r
    else
      && r'.revision == r.revision && r'.attempts == r.attempts && r'.fingerprint == r.fingerprint && r'.phones == r.phones
      && r'.leaseUntil.None?
      && r'.coex.onboarding == r.coex.onboarding && r'.coex.deadlineAt == r.coex.deadlineAt
      && r'.coex.contacts.startedAt == r.coex.contacts.startedAt && r'.coex.history.startedAt == r.coex.history.startedAt
      && Adds(r.coex.contacts.requestId, progress.contactsId, r'.coex.contacts.requestId)
      && Adds(r.coex.history.requestId, progress.historyId, r'.coex.history.requestId)
      && Adds(r.coex.verified, progress.verified, r'.coex.verified)
      && StatusIs(r'.coex, now, r'.coexStatus)
      && (r'.status.Active? <==> failure.None?)
      && (r'.status.Dead? <==>
            failure.Some? && (!failure.value.retryable || (p.attempt >= 6 && !failure.value.kind.AwaitingPhoneNumber?)))
      && !r'.status.Unregistered?
      && r'.nextAttemptAt == if r'.status.Waiting? then now + delay else 0
  }

  // ---- Operators and webhooks -----------------------------------------------------------------

  predicate IsUnanswered(r: Row, kind: Kind) {
    r.status.Dead? && if kind.Contacts? then r.coex.contacts.startedAt.Some? && r.coex.contacts.requestId.None?
                      else r.coex.history.startedAt.Some? && r.coex.history.requestId.None?
  }

  predicate ResetDone(r: Row, r': Row, kind: Kind) {
    if |r.phones| <= 1 && IsUnanswered(r, kind) then
      if kind.Contacts? then r' == r.(coex := r.coex.(contacts := Sync(None, None)))
      else r' == r.(coex := r.coex.(history := Sync(None, None)))
    else r' == r
  }

  predicate SettleDone(r: Row, r': Row, kind: Kind) {
    if !IsUnanswered(r, kind) then r' == r
    else if kind.Contacts? then r' == r.(coex := r.coex.(contacts := Sync(r.coex.contacts.startedAt, Some("unavailable:not_permitted"))))
    else r' == r.(coex := r.coex.(history := Sync(r.coex.history.startedAt, Some("unavailable:not_permitted"))))
  }

  predicate SharingOffDone(r: Row, r': Row, now: Time) {
    if r.coex.onboarding.Standard? then r' == r
    else
      && r'.coex == r.coex.(history := Sync(r.coex.history.startedAt, Some("unavailable:history_sharing_off")))
      && StatusIs(r'.coex, now, r'.coexStatus)
      && r' == r.(coex := r'.coex, coexStatus := r'.coexStatus)
  }

  // ---- Each call keeps its word ---------------------------------------------------------------

  lemma RegistrationsKeepTheirWord(r: Row, status: Lifecycle, fingerprint: string, onboarding: Onboarding, phones: set<string>, now: Time)
    ensures RegisterDone(r, RegisterRow(r, status, onboarding, phones, now), status, onboarding, phones, now)
    ensures HandoffDone(r, BeginRow(r, fingerprint, onboarding, phones, now), fingerprint, onboarding, phones, now)
  {
  }

  lemma ClaimsKeepTheirWord(r: Row, expected: Option<nat>, now: Time)
    ensures Claimable(r, now, expected) <==> MayClaim(r, now, expected)
    ensures ClaimDone(r, ClaimRow(r, now), NewWorker(ClaimRow(r, now)), now)
    ensures RetryDone(r, RetryRow(r, now), now)
  {
  }

  lemma GuardedWritesKeepTheirWord(r: Row, p: Pair, found: set<string>, kind: Kind, at: Time)
    ensures AdoptDone(r, AdoptRow(r, p, found), p, found, AdoptedPhones(r, p, found))
    ensures BeginDone(r, BeginSyncRow(r, p, kind, at), p, kind, at, MayBeginSync(r, p, kind))
  {
    assert r.phones == {} ==> r.phones + found == found;
    assert r.phones + {} == r.phones;
  }

  lemma CompletionKeepsItsWord(r: Row, p: Pair, progress: Progress, failure: Option<Failure>, delay: int, now: Time)
    ensures CompleteDone(r, CompleteRow(r, p, progress, failure, delay, now), p, progress, failure, delay, now)
  {
  }

  lemma OperatorsKeepTheirWord(r: Row, kind: Kind, now: Time)
    ensures ResetDone(r, ResetRow(r, kind), kind) && SettleDone(r, SettleRow(r, kind), kind)
    ensures SharingOffDone(r, SharingOffRow(r, now), now)
  {
  }

  // ---- What a worker does next ----------------------------------------------------------------

  /** Where a worker stands once its WABA is configured, or once Meta said what the number is: done when nothing is
      owed, failed when a request is unanswered or the window has half an hour left at most, else about to ask for
      the first sync not asked for yet, contacts before history. */
  predicate GoesOn(w: Worker, verdict: Onboarding, now: Time, stage: Stage) {
    var c := w.snap;
    if verdict.Standard? then stage.Complete?
    else if c.deadlineAt.Some? && c.deadlineAt.value - 30 * 60_000 <= now then stage == Failing(Failure(CoexistenceExpired, false))
    else if c.contacts.startedAt.None? then stage == Begin(Contacts)
    else if c.history.startedAt.None? then stage == Begin(History)
    else stage.Complete?
  }

  lemma WorkersGoOn(w: Worker, verdict: Onboarding, now: Time)
    ensures GoesOn(w, verdict, now, AfterVerdict(w, verdict, now).stage)
    ensures AfterVerdict(w, verdict, now).progress.verified == Some(verdict)
    ensures var stage, c := AfterConfig(w, now).stage, w.snap;
            if c.onboarding.Standard? then stage.Complete?
            else if (c.contacts.startedAt.Some? && c.contacts.requestId.None?) || (c.history.startedAt.Some? && c.history.requestId.None?)
              then stage == Failing(Failure(CoexistenceUnconfirmed, false))
            else if c.contacts.startedAt.Some? && c.history.startedAt.Some? then stage.Complete?
            else if c.verified.Some? then GoesOn(w, c.verified.value, now, stage)
            else stage.Verify?
  {
  }

  /** What a sync is recorded as: a refusal if any phone refused, else Meta's id, else that it was accepted. */
  predicate RecordedAs(id: Option<string>, refusal: Option<Reason>, recorded: Option<string>) {
    match refusal
    case Some(AlreadySynced) => recorded == Some("unavailable:already_synced")
    case Some(HistorySharingOff) => recorded == Some("unavailable:history_sharing_off")
    case Some(NotPermitted) => recorded == Some("unavailable:not_permitted")
    case None => recorded == if id.Some? then id else Some("accepted")
  }

  /** One phone's answer: a failure ends the attempt, unconfirmed when the request has left; any other goes on to the
      next phone, keeping the first id and the first refusal, and after the last one records the sync and goes on to
      the history sync or to the end. */
  lemma AnswersGoOn(w: Worker, phone: string, answer: Answer)
    requires w.stage.CallPhones?
    ensures var w', st := AfterAnswer(w, phone, answer), w.stage;
            var id := if st.requestId.None? && answer.Accepts? then answer.id else st.requestId;
            var refusal := if st.refusal.None? && answer.Refuses? then Some(answer.reason) else st.refusal;
            if answer.Fails? then w'.stage == Failing(if w.issued then Failure(CoexistenceUnconfirmed, false) else Failure(CoexistenceFailed, true))
            else if st.left - {phone} != {} then w' == w.(stage := CallPhones(st.kind, st.gen, st.left - {phone}, id, refusal))
            else if st.kind.Contacts? then
              && RecordedAs(id, refusal, w'.progress.contactsId) && w'.progress.historyId == w.progress.historyId
              && w'.stage == if w.snap.history.startedAt.None? then Begin(History) else Complete
            else
              && RecordedAs(id, refusal, w'.progress.historyId) && w'.progress.contactsId == w.progress.contactsId
              && w'.stage.Complete?
  {
    assert w.stage.left <= {phone} <==> w.stage.left - {phone} == {};
  }

  /** How a worker comes by its phones: those of the row when it reads them, else those Meta lists, once they are
      adopted; without any it waits for a number. */
  lemma PhonesAreFound(s: State, step: Step)
    requires Possible(s, step)
    ensures step.PRead? ==> Apply(s, step).workers == s.workers[step.i := s.workers[step.i].(phones := s.row.phones, stage := Subscribe)]
    ensures step.PSubscribed? ==> Apply(s, step).workers[step.i].stage == if s.workers[step.i].phones == {} then ListPhones else Configure
    ensures step.PListed? ==> Apply(s, step).workers[step.i].stage == if step.found == {} then Failing(Failure(AwaitingPhoneNumber, true)) else Adopt(step.found)
    ensures step.PAdopted? ==>
              var w := s.workers[step.i];
              var w' := Apply(s, step).workers[step.i];
              if !step.lost && IsLast(s.row, w.pair) && s.row.phones == {} && w.stage.found != {}
              then w' == w.(phones := w.stage.found, stage := Configure)
              else w'.stage == Failing(Failure(AwaitingPhoneNumber, true))
  {
  }

  /** Which place a worker's error is laid to. */
  lemma ErrorsArePlaced(s: State, i: nat, incomplete: bool, e: SagaError)
    requires Possible(s, PError(i, incomplete, e))
    ensures var stage := s.workers[i].stage;
            var place := if incomplete then AtConfiguration else if stage.Subscribe? then AtMeta
                         else if stage.Configure? then AtGateway else AtCoexistence;
            Apply(s, PError(i, incomplete, e)).workers[i].stage == Failing(FailureFor(place, e, s.workers[i].issued))
            && Apply(s, PError(i, incomplete, e)).row == s.row
  {
  }
}
