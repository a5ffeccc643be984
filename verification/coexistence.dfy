/** The coexistence policy (apps/gateway/src/coexistence.ts): what a WABA onboarded from the WhatsApp
    Business app still owes Meta, given what was issued, what Meta answered and the clock. */
module Coexistence {
  import opened Core

  datatype Onboarding = Standard | Coexistence

  datatype Kind = Contacts | History

  datatype Status =
    | NotApplicable
    | Pending
    | Initiated
    | Unconfirmed
    | Unavailable
    | NotCoexistence
    | Expired

  datatype Reason = AlreadySynced | HistorySharingOff | NotPermitted

  /** One sync: when its request was about to leave, and what Meta answered. */
  datatype Sync = Sync(startedAt: Option<Time>, requestId: Option<string>)

  datatype Coex = Coex(
    onboarding: Onboarding,
    verified: Option<Onboarding>,
    contacts: Sync,
    history: Sync,
    deadlineAt: Option<Time>)

  const WINDOW_MS: int := 86_400_000
  const MARGIN_MS: int := 1_800_000

  function SyncOf(c: Coex, kind: Kind): Sync {
    if kind.Contacts? then c.contacts else c.history
  }

  function WithSync(c: Coex, kind: Kind, sync: Sync): Coex {
    if kind.Contacts? then c.(contacts := sync) else c.(history := sync)
  }

  /** What a registration starts from. */
  function Fresh(onboarding: Onboarding, now: Time): Coex {
    Coex(onboarding, None, Sync(None, None), Sync(None, None),
         if onboarding.Coexistence? then Some(now + WINDOW_MS) else None)
  }

  function Verified(isOnBizApp: Option<bool>, platformType: Option<string>): Onboarding {
    if isOnBizApp == Some(true) && platformType == Some("CLOUD_API") then Coexistence else Standard
  }

  predicate WindowExpired(deadlineAt: Option<Time>, now: Time) {
    deadlineAt.Some? && now >= deadlineAt.value
  }

  predicate WorthAttempting(deadlineAt: Option<Time>, now: Time) {
    deadlineAt.None? || now < deadlineAt.value - MARGIN_MS
  }

  function Marker(reason: Reason): string {
    match reason
    case AlreadySynced => "unavailable:already_synced"
    case HistorySharingOff => "unavailable:history_sharing_off"
    case NotPermitted => "unavailable:not_permitted"
  }

  /** The refusal recorded in a request-id column. */
  function RefusalOf(requestId: Option<string>): Option<Reason> {
    if requestId == Some(Marker(AlreadySynced)) then Some(AlreadySynced)
    else if requestId == Some(Marker(HistorySharingOff)) then Some(HistorySharingOff)
    else if requestId == Some(Marker(NotPermitted)) then Some(NotPermitted)
    else None
  }

  predicate Spent(sync: Sync) { sync.startedAt.Some? && sync.requestId.None? }

  function StatusOf(c: Coex, now: Time): Status {
    if c.onboarding.Standard? then NotApplicable
    else if c.contacts.requestId.Some? && c.history.requestId.Some? then
      if RefusalOf(c.contacts.requestId).Some? || RefusalOf(c.history.requestId).Some? then Unavailable else Initiated
    else if Spent(c.contacts) || Spent(c.history) then Unconfirmed
    else if c.verified == Some(Standard) then NotCoexistence
    else if WindowExpired(c.deadlineAt, now) then Expired
    else Pending
  }

  /** May the saga still issue a sync? */
  predicate Outstanding(c: Coex) {
    c.onboarding.Coexistence? && c.verified != Some(Standard) && (c.contacts.startedAt.None? || c.history.startedAt.None?)
  }

  /** A request was issued and never confirmed. */
  predicate SpentUnconfirmed(c: Coex) {
    c.onboarding.Coexistence? && (Spent(c.contacts) || Spent(c.history))
  }

  predicate SettledStatus(status: Status) {
    status.NotApplicable? || status.Initiated? || status.Unavailable? || status.NotCoexistence?
  }

  /** Nothing is owed, whatever the clock says. */
  predicate Settled(c: Coex) {
    || c.onboarding.Standard?
    || (c.contacts.requestId.Some? && c.history.requestId.Some?)
    || (c.verified == Some(Standard) && !Spent(c.contacts) && !Spent(c.history))
  }

  /** A refusal reads back as itself, and never as an acceptance. */
  lemma MarkersReadBack(reason: Reason)
    ensures RefusalOf(Some(Marker(reason))) == Some(reason)
    ensures Marker(reason) != "accepted"
  {
  }

  /** The status says "settled" at some time exactly when the WABA owes nothing at any time. */
  lemma SettledForGood(c: Coex, now: Time)
    ensures SettledStatus(StatusOf(c, now)) <==> Settled(c)
    ensures Settled(c) ==> forall t :: StatusOf(c, t) == StatusOf(c, now)
  {
  }

  /** "Unconfirmed" is exactly the state the saga refuses to act on, and it does not age. */
  lemma UnconfirmedIsSpent(c: Coex, now: Time)
    ensures StatusOf(c, now).Unconfirmed? <==> SpentUnconfirmed(c)
  {
  }

  /** The clock alone moves a status once at most: from pending to expired, at the deadline. */
  lemma OnlyTheDeadlineMoves(c: Coex, now: Time, later: Time)
    requires now <= later
    ensures StatusOf(c, now) != StatusOf(c, later) <==>
            StatusOf(c, now).Pending? && WindowExpired(c.deadlineAt, later)
    ensures StatusOf(c, now) != StatusOf(c, later) ==> StatusOf(c, later).Expired?
  {
  }

  predicate BothAnswered(c: Coex) { c.contacts.requestId.Some? && c.history.requestId.Some? }

  predicate BothStarted(c: Coex) { c.contacts.startedAt.Some? && c.history.startedAt.Some? }

  /** The saga may issue a sync exactly when the status is pending or expired, except in two states: every
      sync has an answer and one of the answers has no request, or one request is unanswered while the other
      sync was never started. */
  lemma OutstandingIsPending(c: Coex, now: Time)
    requires c.onboarding.Coexistence?
    ensures (Outstanding(c) <==> StatusOf(c, now).Pending? || StatusOf(c, now).Expired?)
            <==> (c.verified != Some(Standard) && (BothAnswered(c) || SpentUnconfirmed(c)) ==> BothStarted(c))
  {
  }

  /** With a request unanswered the saga's question whether a sync is outstanding still says yes, exactly when
      the other sync was never started and Meta has not called the number standard. */
  lemma SpentIsOutstandingExactly(c: Coex)
    requires SpentUnconfirmed(c)
    ensures Outstanding(c) <==> c.verified != Some(Standard) && !BothStarted(c)
  {
  }
}
