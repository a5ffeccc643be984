/** The provisioning saga of one WABA: its row in the control plane (apps/gateway/src/control-plane.ts),
    the workers that run it (apps/gateway/src/provisioning.ts) and a log of the sync requests they make.

    Each step is one stretch of a worker between awaits, or one control-plane call. Several workers may
    hold claims at once: a lease runs out, an operator retries, a customer is onboarded again. A worker
    can die anywhere, and a control-plane call can commit and its answer be lost. Nothing is assumed
    about the times the calls are made with. */
module Provisioning {
  import opened Core
  import opened Coexistence

  const LEASE_MS: int := 60_000
  const MAX_ATTEMPTS: nat := 6

  datatype Lifecycle = Unregistered | Waiting | Active | Dead

  datatype Row = Row(
    status: Lifecycle,
    revision: nat,
    attempts: nat,
    nextAttemptAt: Time,
    leaseUntil: Option<Time>,
    fingerprint: Option<string>,
    coex: Coex,
    coexStatus: Status,
    phones: set<string>)

  const NoRow: Row :=
    Row(Unregistered, 0, 0, 0, None, None, Coex(Standard, None, Sync(None, None), Sync(None, None), None), NotApplicable, {})

  // ---- Failures -----------------------------------------------------------------------------

  datatype Place = AtConfiguration | AtMeta | AtGateway | AtCoexistence

  datatype SagaError = NoAnswer | Http(status: int) | AwaitingPhone | WindowClosed | SyncUnconfirmed | OtherError

  datatype FailureKind = MetaFailed | ConfigurationFailed | GatewayFailed | CoexistenceFailed | CoexistenceExpired
                       | CoexistenceUnconfirmed | AwaitingPhoneNumber

  datatype Failure = Failure(kind: FailureKind, retryable: bool)

  function MetaFailure(e: SagaError): Failure {
    Failure(MetaFailed, !e.Http? || e.status in {408, 425, 429} || e.status >= 500)
  }

  function CoexistenceFailure(e: SagaError, issued: bool): Failure {
    if e.WindowClosed? then Failure(CoexistenceExpired, false)
    else if e.SyncUnconfirmed? then Failure(CoexistenceUnconfirmed, false)
    else if !issued then Failure(CoexistenceFailed, true)
    else Failure(CoexistenceUnconfirmed, false)
  }

  function FailureFor(place: Place, e: SagaError, issued: bool): Failure {
    if e.AwaitingPhone? then Failure(AwaitingPhoneNumber, true)
    else match place
      case AtMeta => MetaFailure(e)
      case AtConfiguration => Failure(ConfigurationFailed, false)
      case AtCoexistence => CoexistenceFailure(e, issued)
      case AtGateway => Failure(GatewayFailed, true)
  }

  /** Once a sync has been spent, no failure of that step asks for another attempt. */
  lemma SpentSyncIsNeverRetried(e: SagaError, issued: bool)
    requires !e.AwaitingPhone?
    ensures FailureFor(AtCoexistence, e, issued).retryable <==> !issued && !e.WindowClosed? && !e.SyncUnconfirmed?
  {
  }

  predicate Terminal(f: Failure, attempt: nat) {
    !f.retryable || (attempt >= MAX_ATTEMPTS && !f.kind.AwaitingPhoneNumber?)
  }

  function Pow5(n: nat): (p: nat)
    ensures p >= 1
  {
    if n == 0 then 1 else 5 * Pow5(n - 1)
  }

  function BackoffMs(attempt: nat): (ms: int)
    ensures 5_000 <= ms <= 3_600_000
  {
    Min(5_000 * Pow5(Max(0, attempt - 1)), 3_600_000)
  }

  /** Any wait within 10% of the backoff. */
  predicate Jittered(delay: int, attempt: nat) {
    9 * BackoffMs(attempt) <= 10 * delay <= 11 * BackoffMs(attempt)
  }

  // ---- The row ------------------------------------------------------------------------------

  function RegisterRow(r: Row, status: Lifecycle, onboarding: Onboarding, phones: set<string>, now: Time): Row {
    Row(status, r.revision + 1, 0, 0, None, None, Fresh(onboarding, now),
        StatusOf(Fresh(onboarding, now), now), r.phones + phones)
  }

  /** The same handoff delivered again changes nothing. */
  predicate SameHandoff(r: Row, fingerprint: string) {
    !r.status.Unregistered? && !r.status.Dead? && r.fingerprint == Some(fingerprint)
  }

  function BeginRow(r: Row, fingerprint: string, onboarding: Onboarding, phones: set<string>, now: Time): Row {
    if SameHandoff(r, fingerprint) then r
    else Row(Waiting, r.revision + 1, 0, now, None, Some(fingerprint), Fresh(onboarding, now),
             StatusOf(Fresh(onboarding, now), now), if phones == {} then r.phones else phones)
  }

  predicate Claimable(r: Row, now: Time, expected: Option<nat>) {
    && r.status.Waiting? && r.nextAttemptAt <= now
    && (r.leaseUntil.None? || r.leaseUntil.value <= now)
    && (expected.None? || expected.value == r.revision)
  }

  function ClaimRow(r: Row, now: Time): Row {
    r.(attempts := r.attempts + 1, nextAttemptAt := now + LEASE_MS, leaseUntil := Some(now + LEASE_MS))
  }

  function RetryRow(r: Row, now: Time): Row {
    if !r.status.Waiting? && !r.status.Dead? then r
    else r.(status := Waiting, attempts := 0, nextAttemptAt := now, leaseUntil := None, revision := r.revision + 1)
  }

  /** Whether a claim still owns the row. */
  predicate Owns(r: Row, p: Pair) {
    r.status.Waiting? && r.revision == p.revision && r.attempts == p.attempt
  }

  function AdoptedPhones(r: Row, p: Pair, found: set<string>): set<string> {
    if Owns(r, p) && r.phones == {} then found else {}
  }

  function AdoptRow(r: Row, p: Pair, found: set<string>): Row {
    r.(phones := r.phones + AdoptedPhones(r, p, found))
  }

  predicate MayBeginSync(r: Row, p: Pair, kind: Kind) {
    Owns(r, p) && r.coex.onboarding.Coexistence? && SyncOf(r.coex, kind).startedAt.None?
  }

  function BeginSyncRow(r: Row, p: Pair, kind: Kind, at: Time): Row {
    if MayBeginSync(r, p, kind)
    then r.(coex := WithSync(r.coex, kind, SyncOf(r.coex, kind).(startedAt := Some(at))))
    else r
  }

  datatype Progress = Progress(contactsId: Option<string>, historyId: Option<string>, verified: Option<Onboarding>)

  function FirstOf<T>(a: Option<T>, b: Option<T>): Option<T> { if a.Some? then a else b }

  /** Request ids and the verified type are added, never replaced. */
  function Learned(c: Coex, p: Progress): Coex {
    c.(verified := FirstOf(c.verified, p.verified),
       contacts := c.contacts.(requestId := FirstOf(c.contacts.requestId, p.contactsId)),
       history := c.history.(requestId := FirstOf(c.history.requestId, p.historyId)))
  }

  /** `failure` is None for a success; `delay` is the wait before the next attempt. */
  function CompleteRow(r: Row, p: Pair, progress: Progress, failure: Option<Failure>, delay: int, now: Time): Row {
    if !Owns(r, p) then r
    else
      var coex := Learned(r.coex, progress);
      var learned := r.(coex := coex, coexStatus := StatusOf(coex, now), leaseUntil := None);
      if failure.None? then learned.(status := Active, nextAttemptAt := 0)
      else if Terminal(failure.value, p.attempt) then learned.(status := Dead, nextAttemptAt := 0)
      else learned.(nextAttemptAt := now + delay)
  }

  predicate Unanswered(r: Row, kind: Kind) { r.status.Dead? && Spent(SyncOf(r.coex, kind)) }

  /** The operator forgets a sync; refused on a WABA with several phones. */
  function ResetRow(r: Row, kind: Kind): Row {
    if |r.phones| <= 1 && Unanswered(r, kind)
    then r.(coex := WithSync(r.coex, kind, SyncOf(r.coex, kind).(startedAt := None)))
    else r
  }

  function SettleRow(r: Row, kind: Kind): Row {
    if Unanswered(r, kind)
    then r.(coex := WithSync(r.coex, kind, SyncOf(r.coex, kind).(requestId := Some(Marker(NotPermitted)))))
    else r
  }

  function SharingOffRow(r: Row, now: Time): Row {
    if r.coex.onboarding.Standard? then r
    else
      var coex := r.coex.(history := r.coex.history.(requestId := Some(Marker(HistorySharingOff))));
      r.(coex := coex, coexStatus := StatusOf(coex, now))
  }

  // ---- Workers ------------------------------------------------------------------------------

  /** What a claim carries, and every write it makes is guarded on. */
  datatype Pair = Pair(revision: nat, attempt: nat)

  datatype Answer = Accepts(id: Option<string>) | Refuses(reason: Reason) | Fails(status: Option<int>)

  /** `gen` is the registration or reset the request's mark belongs to, `madeIn` the one it was made in.
      `answer` is None when the worker died first. */
  datatype SyncCall = SyncCall(kind: Kind, phone: string, gen: nat, madeIn: nat, answer: Option<Answer>)

  datatype Stage =
    | ReadPhones
    | Subscribe
    | ListPhones
    | Adopt(found: set<string>)
    | Configure
    | Verify
    | Begin(kind: Kind)
    | CallPhones(kind: Kind, gen: nat, left: set<string>, requestId: Option<string>, refusal: Option<Reason>)
    | Complete
    | Failing(failure: Failure)

  datatype Worker = Worker(pair: Pair, snap: Coex, phones: set<string>, stage: Stage, progress: Progress, issued: bool)

  datatype Gens = Gens(contacts: nat, history: nat)

  function GenOf(g: Gens, kind: Kind): nat { if kind.Contacts? then g.contacts else g.history }

  function NextGen(g: Gens, kind: Kind): Gens {
    if kind.Contacts? then g.(contacts := g.contacts + 1) else g.(history := g.history + 1)
  }

  /** `viaSaga` is false after a registration that asked to be active at once; `taken` once another WABA
      took a phone of this one. */
  datatype State = State(
    row: Row,
    gens: Gens,
    viaSaga: bool,
    taken: bool,
    claims: seq<Pair>,
    workers: map<nat, Worker>,
    calls: seq<SyncCall>)

  const Initial: State := State(NoRow, Gens(0, 0), true, false, [], map[], [])

  /** A claim carries the row as the UPDATE returned it; the phones are read once its token is decrypted. */
  function NewWorker(r: Row): Worker {
    Worker(Pair(r.revision, r.attempts), r.coex, {}, ReadPhones,
           Progress(r.coex.contacts.requestId, r.coex.history.requestId, r.coex.verified), false)
  }

  function Fail(w: Worker, place: Place, e: SagaError): Worker {
    w.(stage := Failing(FailureFor(place, e, w.issued)))
  }

  function SecondSync(w: Worker): Worker {
    w.(stage := if w.snap.history.startedAt.None? then Begin(History) else Complete)
  }

  function FirstSync(w: Worker): Worker {
    if w.snap.contacts.startedAt.None? then w.(stage := Begin(Contacts)) else SecondSync(w)
  }

  function AfterVerdict(w: Worker, verdict: Onboarding, now: Time): Worker {
    var known := w.(progress := w.progress.(verified := Some(verdict)));
    if verdict.Standard? then known.(stage := Complete)
    else if WindowExpired(w.snap.deadlineAt, now) || !WorthAttempting(w.snap.deadlineAt, now)
      then Fail(known, AtCoexistence, WindowClosed)
    else FirstSync(known)
  }

  /** Into the coexistence step, up to its first await. */
  function AfterConfig(w: Worker, now: Time): Worker {
    if w.snap.onboarding.Standard? then w.(stage := Complete)
    else if SpentUnconfirmed(w.snap) then Fail(w, AtCoexistence, SyncUnconfirmed)
    else if !Outstanding(w.snap) then w.(stage := Complete)
    else if w.snap.verified.Some? then AfterVerdict(w, w.snap.verified.value, now)
    else w.(stage := Verify)
  }

  function WithPhones(w: Worker, phones: set<string>): Worker {
    if phones == {} then Fail(w, AtMeta, AwaitingPhone) else w.(phones := phones, stage := Configure)
  }

  /** The sync is settled once every phone has answered: one refusal settles it as refused. */
  function Recorded(requestId: Option<string>, refusal: Option<Reason>): string {
    if refusal.Some? then Marker(refusal.value)
    else if requestId.Some? then requestId.value
    else "accepted"
  }

  function AfterPhones(w: Worker, kind: Kind, id: string): Worker {
    if kind.Contacts? then SecondSync(w.(progress := w.progress.(contactsId := Some(id))))
    else w.(progress := w.progress.(historyId := Some(id)), stage := Complete)
  }

  function AfterAnswer(w: Worker, phone: string, answer: Answer): Worker
    requires w.stage.CallPhones?
  {
    var st := w.stage;
    match answer
    case Fails(status) => Fail(w, AtCoexistence, if status.Some? then Http(status.value) else NoAnswer)
    case _ =>
      var requestId := if answer.Accepts? then FirstOf(st.requestId, answer.id) else st.requestId;
      var refusal := if answer.Refuses? then FirstOf(st.refusal, Some(answer.reason)) else st.refusal;
      if st.left <= {phone} then AfterPhones(w, st.kind, Recorded(requestId, refusal))
      else w.(stage := CallPhones(st.kind, st.gen, st.left - {phone}, requestId, refusal))
  }

  // ---- Runs ---------------------------------------------------------------------------------

  datatype Step =
    | PRegister(status: Lifecycle, onboarding: Onboarding, phones: set<string>, now: Time)
    | PBegin(fingerprint: string, onboarding: Onboarding, phones: set<string>, now: Time)
    | PClaim(expected: Option<nat>, now: Time)
    | PRetry(now: Time)
    | PReset(kind: Kind)
    | PSettle(kind: Kind)
    | PSharingOff(now: Time)
    | PTaken(phones: set<string>)
    | PRead(i: nat)
    | PSubscribed(i: nat)
    | PListed(i: nat, found: set<string>)
    | PAdopted(i: nat, lost: bool)
    | PConfigured(i: nat, now: Time)
    | PVerified(i: nat, verdict: Onboarding, now: Time)
    | PBeginSync(i: nat, at: Time, lost: bool)
    | PCall(i: nat, phone: string, answer: Option<Answer>)
    | PComplete(i: nat, lost: bool, now: Time)
    | PFail(i: nat, delay: int, now: Time)
    | PError(i: nat, incomplete: bool, e: SagaError)
    | PDie(i: nat)

  predicate At(s: State, i: nat) { i in s.workers }

  predicate Possible(s: State, step: Step) {
    match step
    case PRegister(status, _, _, _) => !status.Unregistered?
    case PBegin(_, _, _, _) => true
    case PClaim(expected, now) => Claimable(s.row, now, expected)
    case PRetry(_) => true
    case PReset(_) => true
    case PSettle(_) => true
    case PSharingOff(_) => true
    case PTaken(phones) => phones <= s.row.phones
    case PRead(i) => At(s, i) && s.workers[i].stage.ReadPhones?
    case PSubscribed(i) => At(s, i) && s.workers[i].stage.Subscribe?
    case PListed(i, _) => At(s, i) && s.workers[i].stage.ListPhones?
    case PAdopted(i, _) => At(s, i) && s.workers[i].stage.Adopt?
    case PConfigured(i, _) => At(s, i) && s.workers[i].stage.Configure?
    case PVerified(i, _, _) => At(s, i) && s.workers[i].stage.Verify?
    case PBeginSync(i, _, _) => At(s, i) && s.workers[i].stage.Begin?
    case PCall(i, phone, answer) =>
      && At(s, i) && s.workers[i].stage.CallPhones? && phone in s.workers[i].stage.left
      && (answer.Some? && answer.value.Refuses? ==>
            answer.value.reason.AlreadySynced? || (answer.value.reason.HistorySharingOff? && s.workers[i].stage.kind.History?))
    case PComplete(i, _, _) => At(s, i) && s.workers[i].stage.Complete?
    case PFail(i, delay, _) => At(s, i) && s.workers[i].stage.Failing? && Jittered(delay, s.workers[i].pair.attempt)
    case PError(i, incomplete, e) =>
      At(s, i) && (incomplete ==> s.workers[i].stage.Subscribe?)
      && (s.workers[i].stage.Subscribe? || s.workers[i].stage.Configure? || s.workers[i].stage.Verify?)
    case PDie(i) => At(s, i)
  }

  function With(s: State, i: nat, w: Worker): State { s.(workers := s.workers[i := w]) }

  /** A registration starts a new generation of both syncs. */
  function Registered(s: State, row: Row, viaSaga: bool): State {
    s.(row := row, gens := Gens(s.gens.contacts + 1, s.gens.history + 1), viaSaga := viaSaga)
  }

  function Claimed(s: State, now: Time): State {
    var row := ClaimRow(s.row, now);
    s.(row := row, claims := s.claims + [Pair(row.revision, row.attempts)], workers := s.workers[|s.claims| := NewWorker(row)])
  }

  function SyncBegun(s: State, i: nat, at: Time, lost: bool): State
    requires At(s, i) && s.workers[i].stage.Begin?
  {
    var w := s.workers[i];
    var kind := w.stage.kind;
    var marked := s.(row := BeginSyncRow(s.row, w.pair, kind, at));
    if lost || !MayBeginSync(s.row, w.pair, kind) then With(marked, i, Fail(w, AtCoexistence, OtherError))
    else With(marked, i, w.(stage := CallPhones(kind, GenOf(s.gens, kind), w.phones, None, None), issued := true))
  }

  function Called(s: State, i: nat, phone: string, answer: Option<Answer>): State
    requires At(s, i) && s.workers[i].stage.CallPhones?
  {
    var w := s.workers[i];
    var call := SyncCall(w.stage.kind, phone, w.stage.gen, GenOf(s.gens, w.stage.kind), answer);
    s.(calls := s.calls + [call],
       workers := if answer.None? then s.workers - {i} else s.workers[i := AfterAnswer(w, phone, answer.value)])
  }

  function Completed(s: State, i: nat, lost: bool, now: Time): State
    requires At(s, i)
  {
    var w := s.workers[i];
    s.(row := CompleteRow(s.row, w.pair, w.progress, None, 0, now),
       workers := if lost then s.workers[i := Fail(w, AtCoexistence, OtherError)] else s.workers - {i})
  }

  function Apply(s: State, step: Step): State
    requires Possible(s, step)
  {
    match step
    case PRegister(status, onboarding, phones, now) =>
      Registered(s, RegisterRow(s.row, status, onboarding, phones, now), !status.Active?)
    case PBegin(fingerprint, onboarding, phones, now) =>
      if SameHandoff(s.row, fingerprint) then s
      else Registered(s, BeginRow(s.row, fingerprint, onboarding, phones, now), true)
    case PClaim(_, now) => Claimed(s, now)
    case PRetry(now) => s.(row := RetryRow(s.row, now))
    case PReset(kind) =>
      s.(row := ResetRow(s.row, kind), gens := if ResetRow(s.row, kind) == s.row then s.gens else NextGen(s.gens, kind))
    case PSettle(kind) => s.(row := SettleRow(s.row, kind))
    case PSharingOff(now) => s.(row := SharingOffRow(s.row, now))
    case PTaken(phones) => s.(row := s.row.(phones := s.row.phones - phones), taken := s.taken || phones != {})
    case PRead(i) => With(s, i, s.workers[i].(phones := s.row.phones, stage := Subscribe))
    case PSubscribed(i) =>
      With(s, i, s.workers[i].(stage := if s.workers[i].phones != {} then Configure else ListPhones))
    case PListed(i, found) =>
      With(s, i, if found == {} then Fail(s.workers[i], AtMeta, AwaitingPhone) else s.workers[i].(stage := Adopt(found)))
    case PAdopted(i, lost) =>
      var w := s.workers[i];
      With(s.(row := AdoptRow(s.row, w.pair, w.stage.found)), i,
           WithPhones(w, if lost then {} else AdoptedPhones(s.row, w.pair, w.stage.found)))
    case PConfigured(i, now) => With(s, i, AfterConfig(s.workers[i], now))
    case PVerified(i, verdict, now) => With(s, i, AfterVerdict(s.workers[i], verdict, now))
    case PBeginSync(i, at, lost) => SyncBegun(s, i, at, lost)
    case PCall(i, phone, answer) => Called(s, i, phone, answer)
    case PComplete(i, lost, now) => Completed(s, i, lost, now)
    case PFail(i, delay, now) =>
      var w := s.workers[i];
      s.(row := CompleteRow(s.row, w.pair, w.progress, Some(w.stage.failure), delay, now), workers := s.workers - {i})
    case PError(i, incomplete, e) =>
      With(s, i, Fail(s.workers[i], if incomplete then AtConfiguration else if s.workers[i].stage.Subscribe? then AtMeta
                                    else if s.workers[i].stage.Configure? then AtGateway else AtCoexistence, e))
    case PDie(i) => s.(workers := s.workers - {i})
  }

  /** The worker whose step it is; None for a control-plane call of somebody else. */
  function WorkerOf(step: Step): Option<nat> {
    match step
    case PRead(i) => Some(i)
    case PSubscribed(i) => Some(i)
    case PListed(i, _) => Some(i)
    case PAdopted(i, _) => Some(i)
    case PConfigured(i, _) => Some(i)
    case PVerified(i, _, _) => Some(i)
    case PBeginSync(i, _, _) => Some(i)
    case PCall(i, _, _) => Some(i)
    case PComplete(i, _, _) => Some(i)
    case PFail(i, _, _) => Some(i)
    case PError(i, _, _) => Some(i)
    case PDie(i) => Some(i)
    case _ => None
  }

  predicate Run(s: State, steps: seq<Step>)
    decreases |steps|
  {
    steps == [] || (Possible(s, steps[0]) && Run(Apply(s, steps[0]), steps[1..]))
  }

  function After(s: State, steps: seq<Step>): State
    requires Run(s, steps)
    decreases |steps|
  {
    if steps == [] then s else After(Apply(s, steps[0]), steps[1..])
  }

  // ---- Fencing ------------------------------------------------------------------------------

  predicate Before(p: Pair, q: Pair) {
    p.revision < q.revision || (p.revision == q.revision && p.attempt < q.attempt)
  }

  function RowPair(r: Row): Pair { Pair(r.revision, r.attempts) }

  ghost predicate ClaimsOk(s: State) {
    && (forall i, j :: 0 <= i < j < |s.claims| ==> Before(s.claims[i], s.claims[j]))
    && (forall i :: 0 <= i < |s.claims| ==> !Before(RowPair(s.row), s.claims[i]))
    && (forall i :: i in s.workers ==> i < |s.claims| && s.workers[i].pair == s.claims[i])
  }

  /** No control-plane call takes a row's pair back. */
  lemma PairNeverGoesBack(s: State, step: Step)
    requires Possible(s, step)
    ensures RowPair(Apply(s, step).row) == RowPair(s.row) || Before(RowPair(s.row), RowPair(Apply(s, step).row))
    ensures step.PClaim? ==> Before(RowPair(s.row), RowPair(Apply(s, step).row))
  {
  }

  /** The calls of operators and of other WABAs leave the workers alone. */
  lemma OperatorsKeepWorkers(s: State, step: Step)
    requires Possible(s, step) && WorkerOf(step).None? && !step.PClaim?
    ensures var s' := Apply(s, step); s'.claims == s.claims && s'.workers == s.workers && s'.calls == s.calls
  {
  }

  /** A worker's steps up to its first sync, which go on. */
  predicate GoesOn(step: Step) {
    step.PRead? || step.PSubscribed? || step.PListed? || step.PAdopted? || step.PConfigured? || step.PVerified? || step.PError?
  }

  lemma GoingOnKeepsPairs(s: State, step: Step)
    requires Possible(s, step) && GoesOn(step)
    ensures Apply(s, step).claims == s.claims
    ensures forall i :: i in Apply(s, step).workers ==> i in s.workers && Apply(s, step).workers[i].pair == s.workers[i].pair
  {
  }

  lemma WorkerKeepsPairs(s: State, step: Step)
    requires Possible(s, step) && WorkerOf(step).Some?
    ensures Apply(s, step).claims == s.claims
    ensures forall i :: i in Apply(s, step).workers ==> i in s.workers && Apply(s, step).workers[i].pair == s.workers[i].pair
  {
    if GoesOn(step) {
      GoingOnKeepsPairs(s, step);
    }
  }

  lemma WorkersKeepPairs(s: State, step: Step)
    requires Possible(s, step) && !step.PClaim?
    ensures Apply(s, step).claims == s.claims
    ensures forall i :: i in Apply(s, step).workers ==> i in s.workers && Apply(s, step).workers[i].pair == s.workers[i].pair
  {
    if WorkerOf(step).Some? {
      WorkerKeepsPairs(s, step);
    } else {
      OperatorsKeepWorkers(s, step);
    }
  }

  lemma StepKeepsClaims(s: State, step: Step)
    requires ClaimsOk(s) && Possible(s, step)
    ensures ClaimsOk(Apply(s, step))
  {
    PairNeverGoesBack(s, step);
    if !step.PClaim? {
      WorkersKeepPairs(s, step);
    }
  }

  lemma {:induction false} RunKeepsClaims(s: State, steps: seq<Step>)
    requires ClaimsOk(s) && Run(s, steps)
    ensures ClaimsOk(After(s, steps))
    decreases |steps|
  {
    if steps != [] {
      StepKeepsClaims(s, steps[0]);
      RunKeepsClaims(Apply(s, steps[0]), steps[1..]);
    }
  }

  /** No two claims of a WABA ever carry the same revision and attempt. */
  lemma ClaimsAreDistinct(steps: seq<Step>, i: nat, j: nat)
    requires Run(Initial, steps) && i < j < |After(Initial, steps).claims|
    ensures After(Initial, steps).claims[i] != After(Initial, steps).claims[j]
  {
    RunKeepsClaims(Initial, steps);
  }

  /** What a claim can write, once the row's pair is past it: nothing. */
  ghost predicate ChangesNothing(r: Row, p: Pair) {
    && (forall found :: AdoptRow(r, p, found) == r)
    && (forall kind, at :: BeginSyncRow(r, p, kind, at) == r)
    && (forall progress, failure, delay, now :: CompleteRow(r, p, progress, failure, delay, now) == r)
  }

  /** A claim behind the row's pair is fenced off for good: after any later claim, retry or
      registration, none of its writes changes the row, in any run. */
  lemma {:induction false} StaleClaimsChangeNothing(s: State, steps: seq<Step>, p: Pair)
    requires Run(s, steps) && Before(p, RowPair(s.row))
    ensures ChangesNothing(After(s, steps).row, p)
    decreases |steps|
  {
    if steps != [] {
      PairNeverGoesBack(s, steps[0]);
      StaleClaimsChangeNothing(Apply(s, steps[0]), steps[1..], p);
    } else {
      forall found ensures AdoptRow(s.row, p, found) == s.row {
        assert s.row.phones + {} == s.row.phones;
      }
    }
  }

  /** A committed success stands until a new registration: no worker's catch branch, retry or operator
      recovery takes an active row back. */
  lemma ActiveIsLeftOnlyByRegistration(s: State, step: Step)
    requires Possible(s, step) && s.row.status.Active?
    ensures !Apply(s, step).row.status.Active? ==>
              (step.PRegister? && !step.status.Active?) || (step.PBegin? && !SameHandoff(s.row, step.fingerprint))
  {
  }

  // ---- Once only ----------------------------------------------------------------------------

  predicate Marked(s: State, kind: Kind) { SyncOf(s.row.coex, kind).startedAt.Some? }

  /** Requests and calling workers of the current generation have the sync's durable mark. */
  ghost predicate MarksOk(s: State) {
    && (forall i :: Calling(s, i) ==>
          var st := s.workers[i].stage;
          st.gen <= GenOf(s.gens, st.kind) && (st.gen == GenOf(s.gens, st.kind) ==> Marked(s, st.kind)))
    && (forall c :: 0 <= c < |s.calls| ==>
          s.calls[c].gen <= s.calls[c].madeIn <= GenOf(s.gens, s.calls[c].kind)
          && (s.calls[c].gen == GenOf(s.gens, s.calls[c].kind) ==> Marked(s, s.calls[c].kind)))
  }

  predicate SameSync(a: Stage, b: Stage)
    requires a.CallPhones? && b.CallPhones?
  {
    a.kind == b.kind && a.gen == b.gen
  }

  predicate Calling(s: State, i: nat) { i in s.workers && s.workers[i].stage.CallPhones? }

  predicate IsFor(call: SyncCall, stage: Stage)
    requires stage.CallPhones?
  {
    call.kind == stage.kind && call.gen == stage.gen
  }

  /** One worker calls for a mark, and the phones it has left were not called. */
  ghost predicate CallersOk(s: State) {
    && (forall i, j :: Calling(s, i) && Calling(s, j) && SameSync(s.workers[i].stage, s.workers[j].stage) ==> i == j)
    && (forall i, c :: Calling(s, i) && 0 <= c < |s.calls| && IsFor(s.calls[c], s.workers[i].stage) ==>
                         s.calls[c].phone !in s.workers[i].stage.left)
  }

  ghost predicate Once(s: State) {
    forall c, d :: 0 <= c < d < |s.calls| && s.calls[c].kind == s.calls[d].kind && s.calls[c].phone == s.calls[d].phone ==>
      s.calls[c].gen != s.calls[d].gen
  }

  ghost predicate OnceInv(s: State) { MarksOk(s) && CallersOk(s) && Once(s) }

  /** A step that makes no call and starts none is safe when marks are lost only with their generation. */
  lemma SafeStep(s: State, s': State)
    requires OnceInv(s) && s'.calls == s.calls
    requires forall i :: Calling(s', i) ==> Calling(s, i) && s'.workers[i].stage == s.workers[i].stage
    requires forall kind :: GenOf(s.gens, kind) <= GenOf(s'.gens, kind)
    requires forall kind :: GenOf(s.gens, kind) == GenOf(s'.gens, kind) && Marked(s, kind) ==> Marked(s', kind)
    ensures OnceInv(s')
  {
  }

  /** Before a sync is marked, nothing of its generation was called or is being called. */
  lemma UnmarkedIsUncalled(s: State, kind: Kind)
    requires MarksOk(s) && !Marked(s, kind)
    ensures forall i :: Calling(s, i) && s.workers[i].stage.kind == kind ==> s.workers[i].stage.gen < GenOf(s.gens, kind)
    ensures forall c :: 0 <= c < |s.calls| && s.calls[c].kind == kind ==> s.calls[c].gen < GenOf(s.gens, kind)
  {
  }

  lemma BeginKeepsMarks(s: State, i: nat, at: Time)
    requires MarksOk(s) && Possible(s, PBeginSync(i, at, false))
    ensures MarksOk(SyncBegun(s, i, at, false))
  {
    var s' := SyncBegun(s, i, at, false);
    OtherCallersStay(s, i, at);
    if Calling(s', i) {
      assert Marked(s', s.workers[i].stage.kind);
    }
  }

  lemma OtherCallersStay(s: State, i: nat, at: Time)
    requires Possible(s, PBeginSync(i, at, false))
    ensures var s' := SyncBegun(s, i, at, false);
            && s'.calls == s.calls && s'.gens == s.gens && (forall kind :: Marked(s, kind) ==> Marked(s', kind))
            && forall j :: Calling(s', j) && j != i ==> Calling(s, j) && s'.workers[j] == s.workers[j]
  {
  }

  lemma BeginKeepsCallers(s: State, i: nat, at: Time)
    requires OnceInv(s) && Possible(s, PBeginSync(i, at, false)) && MayBeginSync(s.row, s.workers[i].pair, s.workers[i].stage.kind)
    ensures CallersOk(SyncBegun(s, i, at, false))
  {
    UnmarkedIsUncalled(s, s.workers[i].stage.kind);
    var s' := SyncBegun(s, i, at, false);
    assert forall j :: Calling(s', j) && j != i ==> Calling(s, j) && s'.workers[j] == s.workers[j];
  }

  lemma BeginIsSafe(s: State, i: nat, at: Time, lost: bool)
    requires OnceInv(s) && Possible(s, PBeginSync(i, at, lost))
    ensures OnceInv(SyncBegun(s, i, at, lost))
  {
    if lost || !MayBeginSync(s.row, s.workers[i].pair, s.workers[i].stage.kind) {
      SafeStep(s, SyncBegun(s, i, at, lost));
    } else {
      BeginKeepsMarks(s, i, at);
      BeginKeepsCallers(s, i, at);
    }
  }

  /** The caller has one phone less to call; the other calling workers stay as they are. */
  lemma CallersAfterCall(s: State, i: nat, phone: string, answer: Option<Answer>)
    requires Possible(s, PCall(i, phone, answer))
    ensures var s' := Called(s, i, phone, answer);
            && s'.calls == s.calls + [SyncCall(s.workers[i].stage.kind, phone, s.workers[i].stage.gen,
                                               GenOf(s.gens, s.workers[i].stage.kind), answer)]
            && forall j :: Calling(s', j) ==>
                 Calling(s, j) && SameSync(s'.workers[j].stage, s.workers[j].stage)
                 && s'.workers[j].stage.left <= s.workers[j].stage.left && (j == i ==> phone !in s'.workers[j].stage.left)
  {
  }

  lemma CallKeepsMarks(s: State, i: nat, phone: string, answer: Option<Answer>)
    requires MarksOk(s) && Possible(s, PCall(i, phone, answer))
    ensures MarksOk(Called(s, i, phone, answer))
  {
    CallersAfterCall(s, i, phone, answer);
    assert Calling(s, i);
  }

  lemma CallKeepsCallers(s: State, i: nat, phone: string, answer: Option<Answer>)
    requires CallersOk(s) && Possible(s, PCall(i, phone, answer))
    ensures CallersOk(Called(s, i, phone, answer))
  {
    CallersAfterCall(s, i, phone, answer);
    assert Calling(s, i);
  }

  lemma CallIsSafe(s: State, i: nat, phone: string, answer: Option<Answer>)
    requires OnceInv(s) && Possible(s, PCall(i, phone, answer))
    ensures OnceInv(Called(s, i, phone, answer))
  {
    CallKeepsMarks(s, i, phone, answer);
    CallKeepsCallers(s, i, phone, answer);
    assert Calling(s, i);
    assert forall c :: 0 <= c < |s.calls| && IsFor(s.calls[c], s.workers[i].stage) ==> s.calls[c].phone != phone;
  }

  /** Only starting and calling phones touch the calls and the calling workers. */
  lemma OtherStepsAreSafe(s: State, step: Step)
    requires OnceInv(s) && Possible(s, step) && !step.PBeginSync? && !step.PCall?
    ensures OnceInv(Apply(s, step))
  {
    CallersStay(s, step);
    MarksStay(s, step);
    SafeStep(s, Apply(s, step));
  }

  lemma CallersStay(s: State, step: Step)
    requires Possible(s, step) && !step.PBeginSync? && !step.PCall?
    ensures var s' := Apply(s, step);
            && s'.calls == s.calls
            && forall i :: Calling(s', i) ==> Calling(s, i) && s'.workers[i].stage == s.workers[i].stage
  {
    if WorkerOf(step).Some? {
      WorkerStartsNoCalls(s, step);
    } else if !step.PClaim? {
      OperatorsKeepWorkers(s, step);
    }
  }

  lemma WorkerStartsNoCalls(s: State, step: Step)
    requires Possible(s, step) && WorkerOf(step).Some? && !step.PBeginSync? && !step.PCall?
    ensures var s' := Apply(s, step);
            && s'.calls == s.calls
            && forall i :: Calling(s', i) ==> Calling(s, i) && s'.workers[i].stage == s.workers[i].stage
  {
    if GoesOn(step) {
      GoingOnStartsNoCalls(s, step);
    }
  }

  lemma NoCallsYet(w: Worker, verdict: Onboarding, now: Time, phones: set<string>)
    ensures !AfterVerdict(w, verdict, now).stage.CallPhones? && !WithPhones(w, phones).stage.CallPhones?
    ensures !w.stage.CallPhones? ==> !AfterConfig(w, now).stage.CallPhones?
  {
  }

  lemma GoingOnStartsNoCalls(s: State, step: Step)
    requires Possible(s, step) && GoesOn(step)
    ensures var s' := Apply(s, step);
            && s'.calls == s.calls
            && forall i :: Calling(s', i) ==> Calling(s, i) && s'.workers[i].stage == s.workers[i].stage
  {
    var i := WorkerOf(step).value;
    match step
    case PAdopted(_, lost) => NoCallsYet(s.workers[i], Standard, 0, if lost then {} else AdoptedPhones(s.row, s.workers[i].pair, s.workers[i].stage.found));
    case PConfigured(_, now) => NoCallsYet(s.workers[i], Standard, now, {});
    case PVerified(_, verdict, now) => NoCallsYet(s.workers[i], verdict, now, {});
    case _ =>
  }

  lemma MarksStay(s: State, step: Step)
    requires Possible(s, step)
    ensures var s' := Apply(s, step);
            forall kind :: GenOf(s.gens, kind) <= GenOf(s'.gens, kind)
                           && (GenOf(s.gens, kind) == GenOf(s'.gens, kind) && Marked(s, kind) ==> Marked(s', kind))
  {
  }

  lemma {:induction false} RunIsSafe(s: State, steps: seq<Step>)
    requires OnceInv(s) && Run(s, steps)
    ensures OnceInv(After(s, steps))
    decreases |steps|
  {
    if steps != [] {
      match steps[0] {
        case PBeginSync(i, at, lost) => BeginIsSafe(s, i, at, lost);
        case PCall(i, phone, answer) => CallIsSafe(s, i, phone, answer);
        case _ => OtherStepsAreSafe(s, steps[0]);
      }
      RunIsSafe(Apply(s, steps[0]), steps[1..]);
    }
  }

  /** Main result: under one mark of a sync, and a registration or reset allows one, no phone is asked twice,
      whatever workers interleave, die, lose answers or outlive their lease. */
  lemma SyncsAreRequestedOnce(steps: seq<Step>, c: nat, d: nat)
    requires Run(Initial, steps) && c < d < |After(Initial, steps).calls|
    requires var calls := After(Initial, steps).calls; calls[c].kind == calls[d].kind && calls[c].phone == calls[d].phone
    ensures var calls := After(Initial, steps).calls; calls[c].gen != calls[d].gen
  {
    RunIsSafe(Initial, steps);
  }

  /** Of two requests made between one registration or reset and the next, one left a worker whose mark is
      older than that. */
  lemma OnlyALateWorkerRepeats(steps: seq<Step>, c: nat, d: nat)
    requires Run(Initial, steps) && c < d < |After(Initial, steps).calls|
    requires var calls := After(Initial, steps).calls;
             calls[c].kind == calls[d].kind && calls[c].phone == calls[d].phone && calls[c].madeIn == calls[d].madeIn
    ensures var calls := After(Initial, steps).calls;
            calls[c].gen < calls[c].madeIn || calls[d].gen < calls[d].madeIn
  {
    RunIsSafe(Initial, steps);
  }

  /** A sync spent without an answer stays spent: no claim may start it until a registration or a reset. */
  lemma SpentSyncStaysSpent(s: State, steps: seq<Step>, kind: Kind, p: Pair)
    requires Run(s, steps) && Marked(s, kind)
    requires GenOf(After(s, steps).gens, kind) == GenOf(s.gens, kind)
    ensures Marked(After(s, steps), kind) && !MayBeginSync(After(s, steps).row, p, kind)
    decreases |steps|
  {
    if steps != [] {
      MarksStay(s, steps[0]);
      GensGrow(Apply(s, steps[0]), steps[1..], kind);
      SpentSyncStaysSpent(Apply(s, steps[0]), steps[1..], kind, p);
    }
  }

  lemma {:induction false} GensGrow(s: State, steps: seq<Step>, kind: Kind)
    requires Run(s, steps)
    ensures GenOf(s.gens, kind) <= GenOf(After(s, steps).gens, kind)
    decreases |steps|
  {
    if steps != [] {
      MarksStay(s, steps[0]);
      GensGrow(Apply(s, steps[0]), steps[1..], kind);
    }
  }
}
