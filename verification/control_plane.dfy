/** The control plane's `wabas` and `phones` tables, written in place. A phone has one row, so giving it
    to a WABA takes it from any other. */
module ControlPlane {
  import opened Core
  import opened Coexistence
  import opened Provisioning
  import opened ProvisioningRows

  function PhonesOf(phones: map<string, string>, id: string): set<string> {
    set p | p in phones && phones[p] == id
  }

  /** INSERT OR REPLACE of `given` for one WABA. */
  function Given(phones: map<string, string>, id: string, given: set<string>): map<string, string> {
    phones + (map p | p in given :: id)
  }

  /** Whether no phone of `phones` belongs to another WABA. */
  predicate Unclaimed(table: map<string, string>, id: string, phones: set<string>) {
    forall p :: p in phones && p in table ==> table[p] == id
  }

  /** Giving phones adds them to one WABA and takes them from the others, in one step of each. */
  lemma GivenMovesPhones(phones: map<string, string>, id: string, given: set<string>)
    ensures PhonesOf(Given(phones, id, given), id) == PhonesOf(phones, id) + given
    ensures forall other :: other != id ==> PhonesOf(Given(phones, id, given), other) == PhonesOf(phones, other) - given
  {
    forall other | other != id
      ensures PhonesOf(Given(phones, id, given), other) == PhonesOf(phones, other) - given
    {
    }
  }

  /** A registration, which checks owners first, takes nothing from anybody; a registration that would
      is refused. `adoptWabaPhones` has no such check. */
  lemma OnlyUnclaimedPhonesTakeNothing(phones: map<string, string>, id: string, given: set<string>)
    ensures Unclaimed(phones, id, given) <==>
            forall other :: other != id ==> PhonesOf(Given(phones, id, given), other) == PhonesOf(phones, other)
  {
    if p :| p in given && p in phones && phones[p] != id {
      var other := phones[p];
      assert p in PhonesOf(phones, other) && p !in PhonesOf(Given(phones, id, given), other);
    } else {
      GivenMovesPhones(phones, id, given);
      forall other | other != id
        ensures PhonesOf(Given(phones, id, given), other) == PhonesOf(phones, other)
      {
        assert PhonesOf(phones, other) - given == PhonesOf(phones, other);
      }
    }
  }

  class Store {
    /** The `phones` field of a stored row is always empty: phones are their own table. */
    var wabas: map<string, Row>
    var phones: map<string, string>

    ghost predicate Valid()
      reads this
    {
      && (forall id :: id in wabas ==> wabas[id].phones == {} && !wabas[id].status.Unregistered?)
      && (forall p :: p in phones ==> phones[p] in wabas)
    }

    /** The row of a WABA as the saga sees it. */
    ghost function View(id: string): Row
      reads this
    {
      if id in wabas then wabas[id].(phones := PhonesOf(phones, id)) else NoRow
    }

    constructor ()
      ensures Valid() && forall id :: View(id) == NoRow
    {
      wabas, phones := map[], map[];
    }

    method InsertPhones(id: string, given: set<string>)
      modifies this`phones
      ensures phones == Given(old(phones), id, given)
    {
      ghost var before := phones;
      var left := given;
      while left != {}
        invariant left <= given && phones == Given(before, id, given - left)
        decreases left
      {
        var p :| p in left;
        phones := phones[p := id];
        left := left - {p};
      }
      assert given - {} == given;
    }

    method RemovePhones(id: string, retained: set<string>)
      modifies this`phones
      ensures phones == map p | p in old(phones) && (old(phones)[p] != id || p in retained) :: old(phones)[p]
    {
      phones := map p | p in phones && (phones[p] != id || p in retained) :: phones[p];
    }

    /** Registers a WABA with a status of the caller's choosing. Refused when a phone is another WABA's. */
    method RegisterWaba(id: string, status: Lifecycle, onboarding: Onboarding, given: set<string>, now: Time)
      returns (registered: bool)
      requires Valid() && !status.Unregistered?
      modifies this
      ensures Valid() && registered == Unclaimed(old(phones), id, given)
      ensures registered ==> View(id) == RegisterRow(old(View(id)), status, onboarding, given, now)
      ensures registered <==> forall p :: p in given && p in old(phones) ==> old(phones)[p] == id
      ensures registered ==> RegisterDone(old(View(id)), View(id), status, onboarding, given, now)
      ensures forall other :: other != id || !registered ==> View(other) == old(View(other))
    {
      RegistrationsKeepTheirWord(View(id), status, "", onboarding, given, now);
      registered := forall p | p in given :: p in phones ==> phones[p] == id;
      if !registered {
        return;
      }
      OnlyUnclaimedPhonesTakeNothing(phones, id, given);
      GivenMovesPhones(phones, id, given);
      var revision := if id in wabas then wabas[id].revision + 1 else 1;
      wabas := wabas[id := Row(status, revision, 0, 0, None, None, Fresh(onboarding, now), StatusOf(Fresh(onboarding, now), now), {})];
      InsertPhones(id, given);
      NoPhonesBeforeRegistration(old(phones), old(wabas), id);
    }

    lemma NoPhonesBeforeRegistration(table: map<string, string>, rows: map<string, Row>, id: string)
      requires forall p :: p in table ==> table[p] in rows
      ensures id !in rows ==> PhonesOf(table, id) == {}
    {
    }

    /** A new Embedded Signup handoff. The same one delivered again changes nothing; naming phones drops the others. */
    method BeginWabaProvisioning(id: string, fingerprint: string, onboarding: Onboarding, given: set<string>, now: Time)
      returns (registered: bool)
      requires Valid()
      modifies this
      ensures Valid() && registered == Unclaimed(old(phones), id, given)
      ensures registered ==> View(id) == BeginRow(old(View(id)), fingerprint, onboarding, given, now)
      ensures registered <==> forall p :: p in given && p in old(phones) ==> old(phones)[p] == id
      ensures registered ==> HandoffDone(old(View(id)), View(id), fingerprint, onboarding, given, now)
      ensures forall other :: other != id || !registered ==> View(other) == old(View(other))
    {
      RegistrationsKeepTheirWord(View(id), Waiting, fingerprint, onboarding, given, now);
      registered := forall p | p in given :: p in phones ==> phones[p] == id;
      if !registered || (id in wabas && wabas[id].fingerprint == Some(fingerprint) && !wabas[id].status.Dead?) {
        return;
      }
      NoPhonesBeforeRegistration(phones, wabas, id);
      var revision := if id in wabas then wabas[id].revision + 1 else 1;
      wabas := wabas[id := Row(Waiting, revision, 0, now, None, Some(fingerprint), Fresh(onboarding, now),
                               StatusOf(Fresh(onboarding, now), now), {})];
      ReplacePhones(id, given);
    }

    /** The phones a handoff names become the WABA's phones; none named keeps what it has. */
    method ReplacePhones(id: string, given: set<string>)
      requires Unclaimed(phones, id, given)
      modifies this`phones
      ensures PhonesOf(phones, id) == if given == {} then old(PhonesOf(phones, id)) else given
      ensures forall other :: other != id ==> PhonesOf(phones, other) == old(PhonesOf(phones, other))
      ensures forall p :: p in phones ==> phones[p] == id || (p in old(phones) && phones[p] == old(phones[p]))
    {
      if given != {} {
        RemovePhones(id, given);
      }
      InsertPhones(id, given);
    }

    /** Claims a pending row whose lease has run out. */
    method ClaimProvisioning(id: string, expected: Option<nat>, now: Time) returns (claim: Option<Worker>)
      requires Valid()
      modifies this`wabas
      ensures Valid() && (claim.Some? <==> old(Claimable(View(id), now, expected)))
      ensures View(id) == if claim.Some? then ClaimRow(old(View(id)), now) else old(View(id))
      ensures claim.Some? ==> claim.value == NewWorker(View(id))
      ensures claim.Some? <==> MayClaim(old(View(id)), now, expected)
      ensures if claim.Some? then ClaimDone(old(View(id)), View(id), claim.value, now) else View(id) == old(View(id))
      ensures forall other :: other != id ==> View(other) == old(View(other))
    {
      ClaimsKeepTheirWord(View(id), expected, now);
      claim := None;
      if id in wabas {
        var r := wabas[id];
        if r.status.Waiting? && r.nextAttemptAt <= now && (r.leaseUntil.None? || r.leaseUntil.value <= now)
           && (expected.None? || expected.value == r.revision) {
          wabas := wabas[id := r.(attempts := r.attempts + 1, nextAttemptAt := now + LEASE_MS, leaseUntil := Some(now + LEASE_MS))];
          claim := Some(NewWorker(wabas[id]));
        }
      }
    }

    /** The rest of the claim, after the token was decrypted: the phones as they are now. */
    method PhonesOfClaim(id: string, claim: Worker) returns (worker: Worker)
      requires Valid() && claim.stage.ReadPhones?
      ensures worker == claim.(phones := View(id).phones, stage := Subscribe)
    {
      worker := claim.(phones := PhonesOf(phones, id), stage := Subscribe);
    }

    method RetryWabaProvisioning(id: string, now: Time)
      requires Valid()
      modifies this`wabas
      ensures Valid() && View(id) == RetryRow(old(View(id)), now)
      ensures RetryDone(old(View(id)), View(id), now)
      ensures forall other :: other != id ==> View(other) == old(View(other))
    {
      ClaimsKeepTheirWord(View(id), None, now);
      if id in wabas && !wabas[id].status.Active? {
        wabas := wabas[id := wabas[id].(status := Waiting, attempts := 0, nextAttemptAt := now, leaseUntil := None,
                                        revision := wabas[id].revision + 1)];
      }
    }

    /** Fills an empty phone set with what Meta lists, under the claim's guard and no owner check. */
    method AdoptWabaPhones(id: string, p: Pair, found: set<string>) returns (adopted: set<string>)
      requires Valid()
      modifies this`phones
      ensures Valid() && adopted == AdoptedPhones(old(View(id)), p, found)
      ensures View(id) == AdoptRow(old(View(id)), p, found)
      ensures AdoptDone(old(View(id)), View(id), p, found, adopted)
      ensures forall other :: other != id ==> View(other) == old(View(other)).(phones := old(View(other)).phones - adopted)
    {
      GuardedWritesKeepTheirWord(View(id), p, found, Contacts, 0);
      adopted := {};
      if id in wabas && wabas[id].status.Waiting? && wabas[id].revision == p.revision && wabas[id].attempts == p.attempt
         && PhonesOf(phones, id) == {} {
        GivenMovesPhones(phones, id, found);
        InsertPhones(id, found);
        adopted := found;
      }
    }

    /** Marks a sync as about to be requested. False: the caller must not make the call. */
    method BeginCoexistenceSync(id: string, p: Pair, kind: Kind, at: Time) returns (started: bool)
      requires Valid()
      modifies this`wabas
      ensures Valid() && (started <==> MayBeginSync(old(View(id)), p, kind))
      ensures View(id) == BeginSyncRow(old(View(id)), p, kind, at)
      ensures BeginDone(old(View(id)), View(id), p, kind, at, started)
      ensures forall other :: other != id ==> View(other) == old(View(other))
    {
      GuardedWritesKeepTheirWord(View(id), p, {}, kind, at);
      started := false;
      if id in wabas && wabas[id].status.Waiting? && wabas[id].revision == p.revision && wabas[id].attempts == p.attempt
         && wabas[id].coex.onboarding.Coexistence? && SyncOf(wabas[id].coex, kind).startedAt.None? {
        var coex := wabas[id].coex;
        wabas := wabas[id := wabas[id].(coex := WithSync(coex, kind, SyncOf(coex, kind).(startedAt := Some(at))))];
        started := true;
      }
    }

    /** Ends an attempt: `failure` is None for a success, `delay` the wait before the next one. */
    method CompleteWabaProvisioning(id: string, p: Pair, progress: Progress, failure: Option<Failure>, delay: int, now: Time)
      requires Valid()
      modifies this`wabas
      ensures Valid() && View(id) == CompleteRow(old(View(id)), p, progress, failure, delay, now)
      ensures CompleteDone(old(View(id)), View(id), p, progress, failure, delay, now)
      ensures forall other :: other != id ==> View(other) == old(View(other))
    {
      CompletionKeepsItsWord(View(id), p, progress, failure, delay, now);
      if id !in wabas || !wabas[id].status.Waiting? || wabas[id].revision != p.revision || wabas[id].attempts != p.attempt {
        return;
      }
      var r := wabas[id];
      r := r.(coex := Learned(r.coex, progress), leaseUntil := None);
      r := r.(coexStatus := StatusOf(r.coex, now));
      if failure.None? {
        r := r.(status := Active, nextAttemptAt := 0);
      } else if Terminal(failure.value, p.attempt) {
        r := r.(status := Dead, nextAttemptAt := 0);
      } else {
        r := r.(nextAttemptAt := now + delay);
      }
      wabas := wabas[id := r];
    }

    /** The operator forgets an unanswered sync. False: nothing changed. */
    method ResetUnconfirmedSync(id: string, kind: Kind) returns (reset: bool)
      requires Valid()
      modifies this`wabas
      ensures Valid() && View(id) == ResetRow(old(View(id)), kind) && ResetDone(old(View(id)), View(id), kind)
      ensures reset <==> View(id) != old(View(id))
      ensures forall other :: other != id ==> View(other) == old(View(other))
    {
      OperatorsKeepTheirWord(View(id), kind, 0);
      reset := false;
      if id in wabas && |PhonesOf(phones, id)| <= 1 && wabas[id].status.Dead? && Spent(SyncOf(wabas[id].coex, kind)) {
        var coex := wabas[id].coex;
        wabas := wabas[id := wabas[id].(coex := WithSync(coex, kind, SyncOf(coex, kind).(startedAt := None)))];
        reset := true;
      }
    }

    /** The operator records that Meta refused an unanswered sync with a permission error. */
    method SettleSyncNotPermitted(id: string, kind: Kind) returns (settled: bool)
      requires Valid()
      modifies this`wabas
      ensures Valid() && View(id) == SettleRow(old(View(id)), kind) && SettleDone(old(View(id)), View(id), kind)
      ensures settled <==> View(id) != old(View(id))
      ensures forall other :: other != id ==> View(other) == old(View(other))
    {
      OperatorsKeepTheirWord(View(id), kind, 0);
      settled := false;
      if id in wabas && wabas[id].status.Dead? && Spent(SyncOf(wabas[id].coex, kind)) {
        var coex := wabas[id].coex;
        wabas := wabas[id := wabas[id].(coex := WithSync(coex, kind, SyncOf(coex, kind).(requestId := Some(Marker(NotPermitted)))))];
        settled := true;
      }
    }

    /** The history webhook reported that sharing is off. */
    method MarkHistorySharingOff(id: string, now: Time)
      requires Valid()
      modifies this`wabas
      ensures Valid() && View(id) == SharingOffRow(old(View(id)), now) && SharingOffDone(old(View(id)), View(id), now)
      ensures forall other :: other != id ==> View(other) == old(View(other))
    {
      OperatorsKeepTheirWord(View(id), Contacts, now);
      if id in wabas && wabas[id].coex.onboarding.Coexistence? {
        var coex := wabas[id].coex.(history := wabas[id].coex.history.(requestId := Some(Marker(HistorySharingOff))));
        wabas := wabas[id := wabas[id].(coex := coex, coexStatus := StatusOf(coex, now))];
      }
    }
  }

  // ---- Asking every phone -------------------------------------------------------------------

  /** What the phones asked so far answered, in order. */
  function FirstRefusal(answers: seq<Answer>): Option<Reason> {
    if answers == [] then None
    else if answers[0].Refuses? then Some(answers[0].reason)
    else FirstRefusal(answers[1..])
  }

  function FirstId(answers: seq<Answer>): Option<string> {
    if answers == [] then None
    else if answers[0].Accepts? && answers[0].id.Some? then answers[0].id
    else FirstId(answers[1..])
  }

  /** `k` is the first phone that refused. */
  predicate RefusedFirst(answers: seq<Answer>, k: nat) {
    k < |answers| && answers[k].Refuses? && forall j :: 0 <= j < k ==> !answers[j].Refuses?
  }

  /** `k` is the first phone that Meta gave an id for. */
  predicate NamedFirst(answers: seq<Answer>, k: nat) {
    k < |answers| && answers[k].Accepts? && answers[k].id.Some? && forall j :: 0 <= j < k ==> !(answers[j].Accepts? && answers[j].id.Some?)
  }

  /** The sync is recorded as the first phone's refusal, if one refused, else by the first id, if there is one. */
  ghost predicate AllAnswered(answers: seq<Answer>, recorded: Option<string>) {
    && (forall k: nat :: RefusedFirst(answers, k) ==> RecordedAs(None, Some(answers[k].reason), recorded))
    && ((forall j :: 0 <= j < |answers| ==> !answers[j].Refuses?) ==>
          && (forall k: nat :: NamedFirst(answers, k) ==> recorded == answers[k].id)
          && ((forall j :: 0 <= j < |answers| ==> !(answers[j].Accepts? && answers[j].id.Some?)) ==> recorded == Some("accepted")))
  }

  lemma {:induction false} FirstRefusalIs(answers: seq<Answer>)
    ensures forall k: nat :: RefusedFirst(answers, k) ==> FirstRefusal(answers) == Some(answers[k].reason)
    ensures (forall j :: 0 <= j < |answers| ==> !answers[j].Refuses?) ==> FirstRefusal(answers).None?
  {
    if answers != [] {
      var rest := answers[1..];
      FirstRefusalIs(rest);
      assert forall j :: 0 <= j < |rest| ==> rest[j] == answers[j + 1];
      forall k: nat | RefusedFirst(answers, k) ensures FirstRefusal(answers) == Some(answers[k].reason) {
        if k > 0 {
          assert RefusedFirst(rest, k - 1);
        }
      }
    }
  }

  lemma {:induction false} FirstIdIs(answers: seq<Answer>)
    ensures forall k: nat :: NamedFirst(answers, k) ==> FirstId(answers) == answers[k].id
    ensures (forall j :: 0 <= j < |answers| ==> !(answers[j].Accepts? && answers[j].id.Some?)) ==> FirstId(answers).None?
  {
    if answers != [] {
      var rest := answers[1..];
      FirstIdIs(rest);
      assert forall j :: 0 <= j < |rest| ==> rest[j] == answers[j + 1];
      forall k: nat | NamedFirst(answers, k) ensures FirstId(answers) == answers[k].id {
        if k > 0 {
          assert NamedFirst(rest, k - 1);
        }
      }
    }
  }

  lemma FirstsComeFirst(answers: seq<Answer>)
    ensures AllAnswered(answers, Some(Recorded(FirstId(answers), FirstRefusal(answers))))
  {
    FirstRefusalIs(answers);
    FirstIdIs(answers);
  }

  lemma {:induction false} OneMoreAnswer(answers: seq<Answer>, a: Answer)
    ensures FirstRefusal(answers + [a]) == FirstOf(FirstRefusal(answers), if a.Refuses? then Some(a.reason) else None)
    ensures FirstId(answers + [a]) == FirstOf(FirstId(answers), if a.Accepts? then a.id else None)
  {
    if answers == [] {
      assert answers + [a] == [a] && [a][1..] == [];
    } else {
      OneMoreAnswer(answers[1..], a);
      assert (answers + [a])[1..] == answers[1..] + [a];
    }
  }

  /** The sync's loop over the phones: stops at the first failure that settles nothing; otherwise one
      refusal by any phone settles the sync as refused, and an acceptance needs no id. */
  method AskPhones(answers: seq<Answer>) returns (recorded: Option<string>, asked: nat)
    ensures asked <= |answers|
    ensures recorded.None? <==> exists k :: 0 <= k < |answers| && answers[k].Fails?
    ensures recorded.None? ==> 0 < asked && answers[asked - 1].Fails? && forall k :: 0 <= k < asked - 1 ==> !answers[k].Fails?
    ensures recorded.Some? ==> asked == |answers| && recorded.value == Recorded(FirstId(answers), FirstRefusal(answers))
    ensures recorded.Some? ==> AllAnswered(answers, recorded)
  {
    FirstsComeFirst(answers);
    var requestId: Option<string> := None;
    var refusal: Option<Reason> := None;
    asked := 0;
    while asked < |answers|
      invariant asked <= |answers|
      invariant forall k :: 0 <= k < asked ==> !answers[k].Fails?
      invariant requestId == FirstId(answers[..asked]) && refusal == FirstRefusal(answers[..asked])
    {
      var answer := answers[asked];
      assert answers[..asked + 1] == answers[..asked] + [answer];
      OneMoreAnswer(answers[..asked], answer);
      asked := asked + 1;
      match answer {
        case Accepts(id) => requestId := if requestId.Some? then requestId else id;
        case Refuses(reason) => refusal := if refusal.Some? then refusal else Some(reason);
        case Fails(_) => return None, asked;
      }
    }
    assert answers[..|answers|] == answers;
    recorded := Some(Recorded(requestId, refusal));
  }
}
