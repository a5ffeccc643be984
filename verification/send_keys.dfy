/** Idempotency keys for single sends: `claimSendKey` and `settleSendKey` (apps/gateway/src/gateway.ts)
    with the request workers around them (`sendOnce` in rpc.ts, `sendMessageRoute` in worker.ts).

    A worker claims its key, calls Meta, and stores the answer unless it leaves open whether the message
    was sent. Workers interleave at each of those points, and any of them may die. */
module SendKeys {
  import opened Core
  import opened MetaSend

  const SEND_KEY_TTL_MS: int := 86_400_000

  datatype KeyId = KeyId(account: string, key: string)

  datatype Row = Row(hash: string, result: Option<SendResult>, createdAt: Time)

  /** A request that was told to send. */
  datatype Claim = Claim(id: KeyId, hash: string, at: Time)

  datatype Stage = Ready | Waiting(call: nat) | Answered(result: SendResult)

  /** `answer` is None while Meta has not answered, and stays None when the worker dies. */
  datatype Call = Call(claim: nat, answer: Option<SendResult>)

  datatype Body = Replayed(result: SendResult) | InProgress | KeyReused

  /** What a request that did not send was told. */
  datatype Reply = Reply(id: KeyId, hash: string, at: Time, body: Body)

  /** `owners` names the last claim of each key, `settled` the claim whose answer its row holds. */
  datatype State = State(
    keys: map<KeyId, Row>,
    claims: seq<Claim>,
    owners: map<KeyId, nat>,
    settled: map<KeyId, nat>,
    tasks: map<nat, Stage>,
    calls: seq<Call>,
    replies: seq<Reply>,
    clock: Time)

  const Empty: State := State(map[], [], map[], map[], map[], [], [], 0)

  /** The rows a DELETE of `created_at < before` leaves. */
  function Since(keys: map<KeyId, Row>, before: Time): map<KeyId, Row> {
    map k | k in keys && keys[k].createdAt >= before :: keys[k]
  }

  predicate Live(s: State, id: KeyId, at: Time) {
    id in s.keys && s.keys[id].createdAt >= at - SEND_KEY_TTL_MS
  }

  function BodyFor(row: Row, hash: string): Body {
    if row.hash != hash then KeyReused
    else if row.result.None? then InProgress
    else Replayed(row.result.value)
  }

  function ClaimKey(s: State, id: KeyId, hash: string, at: Time): State {
    if Live(s, id, at) then s.(replies := s.replies + [Reply(id, hash, at, BodyFor(s.keys[id], hash))], clock := at)
    else
      var claim := |s.claims|;
      s.(keys := s.keys[id := Row(hash, None, at)], claims := s.claims + [Claim(id, hash, at)],
         owners := s.owners[id := claim], tasks := s.tasks[claim := Ready], clock := at)
  }

  function CallMeta(s: State, claim: nat): State {
    s.(tasks := s.tasks[claim := Waiting(|s.calls|)], calls := s.calls + [Call(claim, None)])
  }

  /** An open outcome is not stored: the key stays pending. */
  function MetaAnswers(s: State, claim: nat, result: SendResult): State
    requires claim in s.tasks && s.tasks[claim].Waiting? && s.tasks[claim].call < |s.calls|
  {
    s.(calls := s.calls[s.tasks[claim].call := Call(claim, Some(result))],
       tasks := if OutcomeUnknown(result) then s.tasks - {claim} else s.tasks[claim := Answered(result)])
  }

  /** The UPDATE names the account and the key only. */
  function Settle(s: State, claim: nat, at: Time): State
    requires claim in s.tasks && s.tasks[claim].Answered? && claim < |s.claims|
  {
    var id := s.claims[claim].id;
    s.(keys := if id in s.keys then s.keys[id := s.keys[id].(result := Some(s.tasks[claim].result))] else s.keys,
       settled := if id in s.keys then s.settled[id := claim] else s.settled,
       tasks := s.tasks - {claim}, clock := at)
  }

  datatype Step =
    | KClaim(id: KeyId, hash: string, at: Time)
    | KCall(claim: nat)
    | KAnswer(claim: nat, result: SendResult)
    | KSettle(claim: nat, at: Time)
    | KPrune(at: Time)
    | KCrash(claim: nat)

  predicate Possible(s: State, step: Step) {
    match step
    case KClaim(_, _, at) => at >= s.clock
    case KCall(i) => i in s.tasks && s.tasks[i].Ready?
    case KAnswer(i, _) => i in s.tasks && s.tasks[i].Waiting? && s.tasks[i].call < |s.calls|
    case KSettle(i, at) => i in s.tasks && s.tasks[i].Answered? && i < |s.claims| && at >= s.clock
    case KPrune(at) => at >= s.clock
    case KCrash(i) => i in s.tasks
  }

  function Apply(s: State, step: Step): State
    requires Possible(s, step)
  {
    match step
    case KClaim(id, hash, at) => ClaimKey(s, id, hash, at)
    case KCall(i) => CallMeta(s, i)
    case KAnswer(i, result) => MetaAnswers(s, i, result)
    case KSettle(i, at) => Settle(s, i, at)
    case KPrune(at) => s.(keys := Since(s.keys, at - SEND_KEY_TTL_MS), clock := at)
    case KCrash(i) => s.(tasks := s.tasks - {i})
  }

  predicate Run(s: State, steps: seq<Step>)
    decreases |steps|
  {
    steps == [] || (Possible(s, steps[0]) && Run(Apply(s, steps[0]), steps[1..]))
  }

  function After(s: State, steps: seq<Step>): State
    requires Run(s, steps)
    decreases |steps|
  {
    if steps == [] then s else After(Apply(s, steps[0]), steps[1..])
  }

  /** A settle that finds its own request's row: the row has the time of its claim. Or it finds none. */
  predicate FindsOwnRow(s: State, step: Step)
    requires Possible(s, step)
  {
    step.KSettle? ==>
      var claim := s.claims[step.claim];
      claim.id !in s.keys || s.keys[claim.id].createdAt == claim.at
  }

  predicate OwnSettles(s: State, steps: seq<Step>)
    requires Run(s, steps)
    decreases |steps|
  {
    steps != [] ==> FindsOwnRow(s, steps[0]) && OwnSettles(Apply(s, steps[0]), steps[1..])
  }

  /** Every send stores its answer within 24 hours of its claim. */
  predicate TimelyStep(s: State, step: Step)
    requires Possible(s, step)
  {
    step.KSettle? ==> step.at <= s.claims[step.claim].at + SEND_KEY_TTL_MS
  }

  predicate Timely(s: State, steps: seq<Step>)
    requires Run(s, steps)
    decreases |steps|
  {
    steps != [] ==> TimelyStep(s, steps[0]) && Timely(Apply(s, steps[0]), steps[1..])
  }

  // ---- One send a day -----------------------------------------------------------------------

  /** Claims of one key are more than 24 hours apart. */
  ghost predicate Spaced(s: State) {
    forall i, j :: 0 <= i < j < |s.claims| && s.claims[i].id == s.claims[j].id ==>
      s.claims[i].at + SEND_KEY_TTL_MS < s.claims[j].at
  }

  /** The table holds the last claim of a key for 24 hours. */
  ghost predicate LastClaimKept(s: State, k: KeyId)
    requires k in s.owners
  {
    && s.owners[k] < |s.claims| && s.claims[s.owners[k]].id == k
    && (k in s.keys ==> s.claims[s.owners[k]] == Claim(k, s.keys[k].hash, s.keys[k].createdAt))
    && (k !in s.keys ==> s.claims[s.owners[k]].at < s.clock - SEND_KEY_TTL_MS)
  }

  ghost predicate KeysOk(s: State) {
    && (forall i :: 0 <= i < |s.claims| ==>
          s.claims[i].at <= s.clock && s.claims[i].id in s.owners && i <= s.owners[s.claims[i].id])
    && (forall k :: k in s.owners ==> LastClaimKept(s, k))
    && (forall k :: k in s.keys ==> k in s.owners)
  }

  /** Every claim calls Meta once at most. */
  ghost predicate CallsOk(s: State) {
    && (forall c :: 0 <= c < |s.calls| ==> s.calls[c].claim < |s.claims|)
    && (forall c, d :: 0 <= c < d < |s.calls| ==> s.calls[c].claim != s.calls[d].claim)
    && (forall i :: i in s.tasks ==> i < |s.claims|)
    && (forall i :: i in s.tasks && s.tasks[i].Ready? ==> forall c :: 0 <= c < |s.calls| ==> s.calls[c].claim != i)
    && (forall i :: i in s.tasks && s.tasks[i].Waiting? ==>
          s.tasks[i].call < |s.calls| && s.calls[s.tasks[i].call] == Call(i, None))
  }

  ghost predicate Inv(s: State) { Spaced(s) && KeysOk(s) && CallsOk(s) }

  lemma ClaimKeepsSpaces(s: State, id: KeyId, hash: string, at: Time)
    requires Spaced(s) && KeysOk(s) && at >= s.clock
    ensures Spaced(ClaimKey(s, id, hash, at))
  {
    if !Live(s, id, at) && id in s.owners {
      assert LastClaimKept(s, id);
      assert s.claims[s.owners[id]].at < at - SEND_KEY_TTL_MS;
      forall i | 0 <= i < |s.claims| && s.claims[i].id == id
        ensures s.claims[i].at + SEND_KEY_TTL_MS < at
      {
        assert i <= s.owners[id];
      }
    }
  }

  /** Nothing but the clock moved. */
  lemma LaterKeepsKeys(s: State, s': State)
    requires KeysOk(s) && s'.clock >= s.clock
    requires s'.keys == s.keys && s'.claims == s.claims && s'.owners == s.owners
    ensures KeysOk(s')
  {
    forall k | k in s'.owners ensures LastClaimKept(s', k) {
      assert LastClaimKept(s, k);
    }
  }

  /** A claim writes its own key's row and owner only. */
  lemma ClaimKeepsOwner(s: State, id: KeyId, hash: string, at: Time, k: KeyId)
    requires KeysOk(s) && at >= s.clock && !Live(s, id, at)
    requires k in ClaimKey(s, id, hash, at).owners
    ensures LastClaimKept(ClaimKey(s, id, hash, at), k)
  {
    var s' := ClaimKey(s, id, hash, at);
    if k != id {
      assert k in s.owners && LastClaimKept(s, k);
      assert s'.claims[s.owners[k]] == s.claims[s.owners[k]];
    }
  }

  lemma ClaimKeepsKeys(s: State, id: KeyId, hash: string, at: Time)
    requires KeysOk(s) && at >= s.clock
    ensures KeysOk(ClaimKey(s, id, hash, at))
  {
    var s' := ClaimKey(s, id, hash, at);
    if Live(s, id, at) {
      LaterKeepsKeys(s, s');
    } else {
      forall k | k in s'.owners ensures LastClaimKept(s', k) {
        ClaimKeepsOwner(s, id, hash, at, k);
      }
      forall i | 0 <= i < |s'.claims|
        ensures s'.claims[i].at <= s'.clock && s'.claims[i].id in s'.owners && i <= s'.owners[s'.claims[i].id]
      {
        if i < |s.claims| {
          assert s'.claims[i] == s.claims[i];
        }
      }
    }
  }

  lemma ClaimKeepsCalls(s: State, id: KeyId, hash: string, at: Time)
    requires CallsOk(s)
    ensures CallsOk(ClaimKey(s, id, hash, at))
  {
  }

  lemma PruneKeepsKeys(s: State, at: Time)
    requires KeysOk(s) && at >= s.clock
    ensures KeysOk(Apply(s, KPrune(at)))
  {
    assert forall k :: k in s.owners ==> LastClaimKept(s, k);
  }

  lemma SettleKeepsKeys(s: State, claim: nat, at: Time)
    requires KeysOk(s) && Possible(s, KSettle(claim, at))
    ensures KeysOk(Settle(s, claim, at))
  {
    assert forall k :: k in s.owners ==> LastClaimKept(s, k);
  }

  lemma StepKeepsKeys(s: State, step: Step)
    requires KeysOk(s) && Possible(s, step)
    ensures KeysOk(Apply(s, step))
  {
    match step
    case KClaim(id, hash, at) => ClaimKeepsKeys(s, id, hash, at);
    case KSettle(i, at) => SettleKeepsKeys(s, i, at);
    case KPrune(at) => PruneKeepsKeys(s, at);
    case KCall(i) => LaterKeepsKeys(s, Apply(s, step));
    case KAnswer(i, result) => LaterKeepsKeys(s, Apply(s, step));
    case KCrash(i) => LaterKeepsKeys(s, Apply(s, step));
  }

  lemma StepKeepsCalls(s: State, step: Step)
    requires CallsOk(s) && Possible(s, step)
    ensures CallsOk(Apply(s, step))
  {
    match step
    case KClaim(id, hash, at) => ClaimKeepsCalls(s, id, hash, at);
    case KSettle(i, at) =>
    case KPrune(at) =>
    case KCall(i) =>
    case KAnswer(i, result) =>
    case KCrash(i) =>
  }

  lemma StepKeepsInv(s: State, step: Step)
    requires Inv(s) && Possible(s, step)
    ensures Inv(Apply(s, step))
  {
    StepKeepsKeys(s, step);
    StepKeepsCalls(s, step);
    if step.KClaim? {
      ClaimKeepsSpaces(s, step.id, step.hash, step.at);
    }
  }

  /** For the methods that take a step. */
  lemma StepLeadsToInv(s: State, step: Step, s': State)
    ensures Inv(s) && Possible(s, step) && s' == Apply(s, step) ==> Inv(s')
  {
    if Inv(s) && Possible(s, step) {
      StepKeepsInv(s, step);
    }
  }

  lemma {:induction false} RunKeepsInv(s: State, steps: seq<Step>)
    requires Inv(s) && Run(s, steps)
    ensures Inv(After(s, steps))
    decreases |steps|
  {
    if steps != [] {
      StepKeepsInv(s, steps[0]);
      RunKeepsInv(Apply(s, steps[0]), steps[1..]);
    }
  }

  /** Main result: over every run, with workers dying anywhere, two requests with one key that both
      reached Meta were claimed more than 24 hours apart. */
  lemma ResendsAreADayApart(steps: seq<Step>, c: nat, d: nat)
    requires Run(Empty, steps)
    requires var s := After(Empty, steps);
             && c < |s.calls| && d < |s.calls| && c != d
             && s.calls[c].claim < |s.claims| && s.calls[d].claim < |s.claims|
             && s.claims[s.calls[c].claim].id == s.claims[s.calls[d].claim].id
    ensures var s := After(Empty, steps);
            var t, u := s.claims[s.calls[c].claim].at, s.claims[s.calls[d].claim].at;
            t + SEND_KEY_TTL_MS < u || u + SEND_KEY_TTL_MS < t
  {
    RunKeepsInv(Empty, steps);
    var s := After(Empty, steps);
    assert s.calls[c].claim != s.calls[d].claim;
  }

  /** A request sends exactly when no row of its key is younger than 24 hours; otherwise it changes
      nothing that is stored, whatever its body. */
  lemma OnlyAFreshKeySends(s: State, id: KeyId, hash: string, at: Time)
    requires Inv(s) && at >= s.clock
    ensures var s' := ClaimKey(s, id, hash, at);
            (s'.claims != s.claims <==> !Live(s, id, at))
            && (Live(s, id, at) ==> s'.keys == s.keys && s'.tasks == s.tasks && s'.calls == s.calls)
    ensures Live(s, id, at) <==> id in s.owners && s.claims[s.owners[id]].at >= at - SEND_KEY_TTL_MS
  {
  }

  // ---- Stored answers -----------------------------------------------------------------------

  predicate Answers(s: State, c: nat, claim: nat, result: SendResult) {
    c < |s.calls| && s.calls[c] == Call(claim, Some(result))
  }

  /** Meta gave this claim's call this answer, and it leaves nothing open. */
  ghost predicate GivenTo(s: State, claim: nat, result: SendResult) {
    !OutcomeUnknown(result) && exists c :: Answers(s, c, claim, result)
  }

  /** The reply repeats the answer of the one request of its key claimed in the 24 hours before it. */
  ghost predicate RepliesFrom(s: State, reply: Reply, claim: nat) {
    && claim < |s.claims| && s.claims[claim].id == reply.id && s.claims[claim].hash == reply.hash
    && s.claims[claim].at <= reply.at <= s.claims[claim].at + SEND_KEY_TTL_MS
    && reply.body.Replayed? && GivenTo(s, claim, reply.body.result)
  }

  ghost predicate AnswersOk(s: State) {
    && (forall i :: i in s.tasks && s.tasks[i].Answered? ==> GivenTo(s, i, s.tasks[i].result))
    && (forall k :: k in s.keys && k in s.owners && s.keys[k].result.Some? ==>
          k in s.settled && s.settled[k] == s.owners[k] && GivenTo(s, s.owners[k], s.keys[k].result.value))
    && (forall q :: 0 <= q < |s.replies| && s.replies[q].body.Replayed? ==> exists i :: RepliesFrom(s, s.replies[q], i))
  }

  /** Answers and replies survive: the log of claims and calls only grows. */
  lemma GivenStays(s: State, s': State)
    requires forall c, i, r :: Answers(s, c, i, r) ==> Answers(s', c, i, r)
    requires |s.claims| <= |s'.claims| && forall i :: 0 <= i < |s.claims| ==> s'.claims[i] == s.claims[i]
    ensures forall i, r :: GivenTo(s, i, r) ==> GivenTo(s', i, r)
    ensures forall reply, i :: RepliesFrom(s, reply, i) ==> RepliesFrom(s', reply, i)
  {
    forall i, r | GivenTo(s, i, r) ensures GivenTo(s', i, r) {
      var c :| Answers(s, c, i, r);
      assert Answers(s', c, i, r);
    }
  }

  lemma ReplyKeepsAnswers(s: State, id: KeyId, hash: string, at: Time)
    requires Inv(s) && AnswersOk(s) && at >= s.clock && Live(s, id, at)
    ensures AnswersOk(ClaimKey(s, id, hash, at))
  {
    var s' := ClaimKey(s, id, hash, at);
    GivenStays(s, s');
    if BodyFor(s.keys[id], hash).Replayed? {
      assert LastClaimKept(s, id);
      assert RepliesFrom(s', Reply(id, hash, at, BodyFor(s.keys[id], hash)), s.owners[id]);
    }
  }

  lemma FreshKeepsAnswers(s: State, id: KeyId, hash: string, at: Time)
    requires Inv(s) && AnswersOk(s) && at >= s.clock && !Live(s, id, at)
    ensures AnswersOk(ClaimKey(s, id, hash, at))
  {
    GivenStays(s, ClaimKey(s, id, hash, at));
  }

  lemma ClaimKeepsAnswers(s: State, id: KeyId, hash: string, at: Time)
    requires Inv(s) && AnswersOk(s) && at >= s.clock
    ensures AnswersOk(ClaimKey(s, id, hash, at))
  {
    if Live(s, id, at) {
      ReplyKeepsAnswers(s, id, hash, at);
    } else {
      FreshKeepsAnswers(s, id, hash, at);
    }
  }

  lemma AnswerKeepsAnswers(s: State, claim: nat, result: SendResult)
    requires Inv(s) && AnswersOk(s) && Possible(s, KAnswer(claim, result))
    ensures AnswersOk(MetaAnswers(s, claim, result))
  {
    var s' := MetaAnswers(s, claim, result);
    GivenStays(s, s');
    assert Answers(s', s.tasks[claim].call, claim, result);
  }

  lemma OwnSettleKeepsAnswers(s: State, claim: nat, at: Time)
    requires Inv(s) && AnswersOk(s) && Possible(s, KSettle(claim, at)) && FindsOwnRow(s, KSettle(claim, at))
    ensures AnswersOk(Settle(s, claim, at))
  {
    var s' := Settle(s, claim, at);
    GivenStays(s, s');
    var id := s.claims[claim].id;
    if id in s.keys {
      assert LastClaimKept(s, id);
      assert s.owners[id] == claim;
    }
  }

  /** A settle stores its own request's answer, and so keeps every row's answer its own request's, exactly
      when the row it finds has the time of its claim, or is gone. */
  lemma SettleKeepsAnswersExactly(s: State, claim: nat, at: Time)
    requires Inv(s) && AnswersOk(s) && Possible(s, KSettle(claim, at))
    ensures AnswersOk(Settle(s, claim, at)) <==> FindsOwnRow(s, KSettle(claim, at))
  {
    var id := s.claims[claim].id;
    if FindsOwnRow(s, KSettle(claim, at)) {
      OwnSettleKeepsAnswers(s, claim, at);
    } else {
      assert LastClaimKept(s, id);
      assert s.owners[id] != claim;
      assert id in Settle(s, claim, at).keys && Settle(s, claim, at).keys[id].result.Some?;
    }
  }

  lemma OtherStepsKeepAnswers(s: State, step: Step)
    requires Inv(s) && AnswersOk(s) && Possible(s, step) && !step.KSettle?
    ensures AnswersOk(Apply(s, step))
  {
    match step
    case KClaim(id, hash, at) => ClaimKeepsAnswers(s, id, hash, at);
    case KAnswer(i, result) => AnswerKeepsAnswers(s, i, result);
    case KCall(i) => GivenStays(s, CallMeta(s, i));
    case KPrune(at) => GivenStays(s, Apply(s, step));
    case KCrash(i) => GivenStays(s, Apply(s, step));
  }

  lemma StepKeepsAnswersExactly(s: State, step: Step)
    requires Inv(s) && AnswersOk(s) && Possible(s, step)
    ensures AnswersOk(Apply(s, step)) <==> FindsOwnRow(s, step)
  {
    if step.KSettle? {
      SettleKeepsAnswersExactly(s, step.claim, step.at);
    } else {
      OtherStepsKeepAnswers(s, step);
    }
  }

  /** The answers are right after every step of the run. */
  ghost predicate AlwaysAnswersOk(s: State, steps: seq<Step>)
    requires Run(s, steps)
    decreases |steps|
  {
    AnswersOk(s) && (steps != [] ==> AlwaysAnswersOk(Apply(s, steps[0]), steps[1..]))
  }

  /** Main result: throughout a run every stored answer is its own request's, and every answer given back the
      first request's, exactly when every settle of the run finds its own request's row, or none. */
  lemma {:induction false} AnswersAreRightExactly(s: State, steps: seq<Step>)
    requires Inv(s) && AnswersOk(s) && Run(s, steps)
    ensures AlwaysAnswersOk(s, steps) <==> OwnSettles(s, steps)
    decreases |steps|
  {
    if steps != [] {
      StepKeepsInv(s, steps[0]);
      StepKeepsAnswersExactly(s, steps[0]);
      if FindsOwnRow(s, steps[0]) {
        AnswersAreRightExactly(Apply(s, steps[0]), steps[1..]);
      } else {
        assert !AnswersOk(Apply(s, steps[0]));
      }
    }
  }

  lemma {:induction false} AlwaysMeansAtTheEnd(s: State, steps: seq<Step>)
    requires Run(s, steps) && AlwaysAnswersOk(s, steps)
    ensures AnswersOk(After(s, steps))
    decreases |steps|
  {
    if steps != [] {
      AlwaysMeansAtTheEnd(Apply(s, steps[0]), steps[1..]);
    }
  }

  lemma TimelySettleFindsItsRow(s: State, step: Step)
    requires Inv(s) && Possible(s, step) && TimelyStep(s, step)
    ensures FindsOwnRow(s, step)
  {
    if step.KSettle? && s.claims[step.claim].id in s.keys {
      assert LastClaimKept(s, s.claims[step.claim].id);
    }
  }

  /** A row younger than 24 hours can only be the settling request's own: sends that settle within 24 hours
      find their own row. */
  lemma {:induction false} TimelySettlesFindTheirRow(s: State, steps: seq<Step>)
    requires Inv(s) && Run(s, steps) && Timely(s, steps)
    ensures OwnSettles(s, steps)
    decreases |steps|
  {
    if steps != [] {
      StepKeepsInv(s, steps[0]);
      TimelySettleFindsItsRow(s, steps[0]);
      TimelySettlesFindTheirRow(Apply(s, steps[0]), steps[1..]);
    }
  }

  /** No other request of the reply's key was told to send in the 24 hours before the reply. */
  ghost predicate OnlyClaimBefore(s: State, reply: Reply, i: nat) {
    forall j :: 0 <= j < |s.claims| && s.claims[j].id == reply.id ==>
      s.claims[j].at < reply.at - SEND_KEY_TTL_MS || reply.at < s.claims[j].at || j == i
  }

  /** While settles find their own rows, a stored answer that is given back is the one Meta gave the single
      request of that key in the 24 hours before, which had the same body. */
  lemma ReplaysAreTheFirstAnswer(steps: seq<Step>, q: nat) returns (i: nat)
    requires Run(Empty, steps) && OwnSettles(Empty, steps)
    requires var s := After(Empty, steps); q < |s.replies| && s.replies[q].body.Replayed?
    ensures var s := After(Empty, steps); RepliesFrom(s, s.replies[q], i) && OnlyClaimBefore(s, s.replies[q], i)
  {
    RunKeepsInv(Empty, steps);
    AnswersAreRightExactly(Empty, steps);
    AlwaysMeansAtTheEnd(Empty, steps);
    var s := After(Empty, steps);
    i :| RepliesFrom(s, s.replies[q], i);
  }

  lemma {:induction false} RunsJoin(s: State, a: seq<Step>, b: seq<Step>)
    requires Run(s, a) && Run(After(s, a), b)
    ensures Run(s, a + b) && After(s, a + b) == After(After(s, a), b)
    decreases |a|
  {
    if a == [] {
      assert a + b == b;
    } else {
      RunsJoin(Apply(s, a[0]), a[1..], b);
      assert (a + b)[1..] == a[1..] + b;
    }
  }

  lemma OneStep(s: State, step: Step)
    requires Possible(s, step)
    ensures Run(s, [step]) && After(s, [step]) == Apply(s, step)
  {
    assert [step][1..] == [] && Run(Apply(s, step), []);
  }

  lemma TwoSteps(s: State, a: Step, b: Step)
    requires Possible(s, a) && Possible(Apply(s, a), b)
    ensures Run(s, [a, b]) && After(s, [a, b]) == Apply(Apply(s, a), b)
  {
    OneStep(Apply(s, a), b);
    assert [a, b][1..] == [b];
  }

  /** One request has its answer and has not stored it. */
  lemma AnsweredUnsettled(k: KeyId, ok: SendResult) returns (steps: seq<Step>)
    requires !OutcomeUnknown(ok)
    ensures Run(Empty, steps)
    ensures var s := After(Empty, steps);
            && s.claims == [Claim(k, "first", 0)] && s.keys == map[k := Row("first", None, 0)] && s.clock == 0
            && s.tasks == map[0 := Answered(ok)]
  {
    TwoSteps(Empty, KClaim(k, "first", 0), KCall(0));
    var s := CallMeta(ClaimKey(Empty, k, "first", 0), 0);
    OneStep(s, KAnswer(0, ok));
    RunsJoin(Empty, [KClaim(k, "first", 0), KCall(0)], [KAnswer(0, ok)]);
    steps := [KClaim(k, "first", 0), KCall(0)] + [KAnswer(0, ok)];
  }

  /** Settled late, the first request's answer is stored for the second, and given to a third. */
  lemma LateSettleAnswersAnotherRequest() returns (steps: seq<Step>)
    ensures Run(Empty, steps) && !AnswersOk(After(Empty, steps))
  {
    var k, later := KeyId("acct", "key"), SEND_KEY_TTL_MS + 1;
    var before := AnsweredUnsettled(k, Accepted("wamid.1"));
    var s := After(Empty, before);
    var second := ClaimKey(s, k, "second", later);
    assert second.owners[k] == 1 && second.tasks[0] == Answered(Accepted("wamid.1"));
    TwoSteps(s, KClaim(k, "second", later), KSettle(0, later));
    RunsJoin(Empty, before, [KClaim(k, "second", later), KSettle(0, later)]);
    steps := before + [KClaim(k, "second", later), KSettle(0, later)];
    var s' := Settle(second, 0, later);
    assert s'.settled[k] == 0 && s'.owners[k] == 1 && s'.keys[k].result.Some?;
  }

  // ---- What a repeat is told ------------------------------------------------------------------

  /** A claim, by the rows it finds: another body under a row younger than a day is refused, the same body is told
      to wait or given the stored answer, and without such a row the request sends and the key is its own. */
  predicate ClaimDone(keys: map<KeyId, Row>, keys': map<KeyId, Row>, id: KeyId, hash: string, at: Time, body: Option<Body>) {
    if id in keys && at - keys[id].createdAt <= 86_400_000 then
      && keys' == keys
      && (keys[id].hash != hash ==> body == Some(KeyReused))
      && (keys[id].hash == hash && keys[id].result.None? ==> body == Some(InProgress))
      && (keys[id].hash == hash && keys[id].result.Some? ==> body == Some(Replayed(keys[id].result.value)))
    else body.None? && keys' == keys[id := Row(hash, None, at)]
  }

  lemma ClaimKeepsItsWord(s: State, id: KeyId, hash: string, at: Time)
    ensures var s' := ClaimKey(s, id, hash, at);
            ClaimDone(s.keys, s'.keys, id, hash, at,
                      if |s'.claims| != |s.claims| then None else Some(s'.replies[|s.replies|].body))
  {
  }

  /** The reply is to a repeat of the claim `i`, made within a day, and says whether the bodies agree. */
  ghost predicate TellsBodiesApart(s: State, reply: Reply, i: nat) {
    && i < |s.claims| && s.claims[i].id == reply.id && s.claims[i].at <= reply.at <= s.claims[i].at + SEND_KEY_TTL_MS
    && (reply.body.KeyReused? <==> s.claims[i].hash != reply.hash)
  }

  ghost predicate RepeatsSome(s: State, reply: Reply) { exists i: nat :: TellsBodiesApart(s, reply, i) }

  ghost predicate RepliesOk(s: State) { forall q :: 0 <= q < |s.replies| ==> RepeatsSome(s, s.replies[q]) }

  lemma OldRepliesStayOk(s: State, s': State, q: nat)
    requires RepliesOk(s) && s.claims <= s'.claims
    requires q < |s.replies| && q < |s'.replies| && s'.replies[q] == s.replies[q]
    ensures RepeatsSome(s', s'.replies[q])
  {
    assert RepeatsSome(s, s.replies[q]);
    var i: nat :| TellsBodiesApart(s, s.replies[q], i);
    assert s'.claims[i] == s.claims[i];
    assert TellsBodiesApart(s', s'.replies[q], i);
  }

  lemma NewReplyTells(s: State, id: KeyId, hash: string, at: Time)
    requires Inv(s) && at >= s.clock && Live(s, id, at)
    ensures var s' := ClaimKey(s, id, hash, at);
            && s'.claims == s.claims && |s'.replies| == |s.replies| + 1 && s.replies <= s'.replies && id in s.owners
            && TellsBodiesApart(s', s'.replies[|s.replies|], s.owners[id])
  {
    assert LastClaimKept(s, id);
  }

  lemma OthersAddNoReply(s: State, step: Step)
    requires Possible(s, step) && !(step.KClaim? && Live(s, step.id, step.at))
    ensures var s' := Apply(s, step);
            s'.replies == s.replies && s.claims <= s'.claims
  {
  }

  lemma StepKeepsReplies(s: State, step: Step)
    requires Inv(s) && RepliesOk(s) && Possible(s, step)
    ensures RepliesOk(Apply(s, step))
  {
    var s' := Apply(s, step);
    if step.KClaim? && Live(s, step.id, step.at) {
      NewReplyTells(s, step.id, step.hash, step.at);
    } else {
      OthersAddNoReply(s, step);
    }
    forall q | 0 <= q < |s'.replies| ensures RepeatsSome(s', s'.replies[q]) {
      if q < |s.replies| {
        assert s'.replies[q] == s.replies[q];
        OldRepliesStayOk(s, s', q);
      } else {
        assert TellsBodiesApart(s', s'.replies[q], s.owners[step.id]);
      }
    }
  }

  lemma {:induction false} RunKeepsReplies(s: State, steps: seq<Step>)
    requires Inv(s) && RepliesOk(s) && Run(s, steps)
    ensures Inv(After(s, steps)) && RepliesOk(After(s, steps))
    decreases |steps|
  {
    if steps != [] {
      StepKeepsInv(s, steps[0]);
      StepKeepsReplies(s, steps[0]);
      RunKeepsReplies(Apply(s, steps[0]), steps[1..]);
    }
  }

  /** Over every run, late settles included, a request told anything is a repeat of the one request of its key
      claimed in the 24 hours before, and is told that the key is used exactly when its body is another. */
  lemma RepliesTellBodiesApart(steps: seq<Step>, q: nat) returns (i: nat)
    requires Run(Empty, steps) && q < |After(Empty, steps).replies|
    ensures var s := After(Empty, steps); TellsBodiesApart(s, s.replies[q], i) && OnlyClaimBefore(s, s.replies[q], i)
  {
    RunKeepsReplies(Empty, steps);
    assert RepeatsSome(After(Empty, steps), After(Empty, steps).replies[q]);
    i :| TellsBodiesApart(After(Empty, steps), After(Empty, steps).replies[q], i);
  }

  /** The answer the claim's own settle stored in the run. */
  ghost function Stored(s: State, steps: seq<Step>, claim: nat, was: Option<SendResult>): Option<SendResult>
    requires Run(s, steps)
    decreases |steps|
  {
    if steps == [] then was
    else Stored(Apply(s, steps[0]), steps[1..], claim,
                if steps[0].KSettle? && steps[0].claim == claim then Some(s.tasks[claim].result) else was)
  }

  /** For a day the claim's row has its body, its time and what it stored. */
  ghost predicate HoldsRow(s: State, i: nat, stored: Option<SendResult>) {
    && (i in s.tasks || i >= |s.claims| ==> stored.None?)
    && (i < |s.claims| && s.clock <= s.claims[i].at + SEND_KEY_TTL_MS ==>
          s.claims[i].id in s.keys && s.keys[s.claims[i].id] == Row(s.claims[i].hash, stored, s.claims[i].at))
  }

  lemma ClaimHoldsRow(s: State, step: Step, i: nat, stored: Option<SendResult>)
    requires Inv(s) && Possible(s, step) && step.KClaim? && HoldsRow(s, i, stored)
    ensures HoldsRow(Apply(s, step), i, stored)
  {
    assert i in s.tasks ==> i < |s.claims|;
  }

  lemma SettleHoldsRow(s: State, step: Step, i: nat, stored: Option<SendResult>)
    requires Inv(s) && Possible(s, step) && step.KSettle? && FindsOwnRow(s, step) && HoldsRow(s, i, stored)
    ensures HoldsRow(Apply(s, step), i, if step.claim == i then Some(s.tasks[i].result) else stored)
  {
    var j := step.claim;
    if i < |s.claims| && s.clock <= s.claims[i].at + SEND_KEY_TTL_MS && s.claims[j].id == s.claims[i].id {
      assert s.claims[j].at == s.claims[i].at && j == i;
    }
  }

  lemma OthersHoldRow(s: State, step: Step, i: nat, stored: Option<SendResult>)
    requires Inv(s) && Possible(s, step) && !step.KClaim? && !step.KSettle? && HoldsRow(s, i, stored)
    ensures HoldsRow(Apply(s, step), i, stored)
  {
  }

  lemma {:induction false} RunHoldsRow(s: State, steps: seq<Step>, i: nat, stored: Option<SendResult>)
    requires Inv(s) && Run(s, steps) && OwnSettles(s, steps) && HoldsRow(s, i, stored)
    ensures HoldsRow(After(s, steps), i, Stored(s, steps, i, stored))
    decreases |steps|
  {
    if steps != [] {
      var step := steps[0];
      StepKeepsInv(s, step);
      if step.KClaim? {
        ClaimHoldsRow(s, step, i, stored);
      } else if step.KSettle? {
        SettleHoldsRow(s, step, i, stored);
      } else {
        OthersHoldRow(s, step, i, stored);
      }
      RunHoldsRow(Apply(s, step), steps[1..], i,
                  if step.KSettle? && step.claim == i then Some(s.tasks[i].result) else stored);
    }
  }

  /** Main result, the other way round: while settles find their own rows, a request that repeats a claim within
      24 hours is always told what became of it, and sends nothing: with another body that the key is used, with
      the same body the answer the claim stored, and before there is one to wait. */
  lemma RepeatsAreAnswered(steps: seq<Step>, i: nat, hash: string, at: Time)
    requires Run(Empty, steps) && OwnSettles(Empty, steps) && at >= After(Empty, steps).clock
    requires i < |After(Empty, steps).claims| && at <= After(Empty, steps).claims[i].at + SEND_KEY_TTL_MS
    ensures var s := After(Empty, steps);
            var s' := Apply(s, KClaim(s.claims[i].id, hash, at));
            && s'.claims == s.claims && s'.tasks == s.tasks && s'.keys == s.keys && |s'.replies| == |s.replies| + 1
            && var body, stored := s'.replies[|s.replies|].body, Stored(Empty, steps, i, None);
               if hash != s.claims[i].hash then body.KeyReused?
               else if stored.Some? then body == Replayed(stored.value) else body.InProgress?
  {
    RunKeepsInv(Empty, steps);
    RunHoldsRow(Empty, steps, i, None);
    ClaimKeepsItsWord(After(Empty, steps), After(Empty, steps).claims[i].id, hash, at);
  }

  /** A worker goes on to store the answer exactly when it leaves nothing open: an acceptance, or a 3xx or 4xx. */
  lemma DefiniteAnswersAreKept(s: State, claim: nat, result: SendResult)
    requires Possible(s, KAnswer(claim, result))
    ensures var s' := Apply(s, KAnswer(claim, result));
            && (claim in s'.tasks <==> result.Accepted? || 300 <= result.status < 500)
            && (claim in s'.tasks ==> s'.tasks[claim] == Answered(result))
            && Answers(s', s.tasks[claim].call, claim, result) && s'.keys == s.keys
  {
  }

  // ---- The table ----------------------------------------------------------------------------

  /** The `send_keys` table, written in place. */
  class Store {
    var keys: map<KeyId, Row>
    ghost var claims: seq<Claim>
    ghost var owners: map<KeyId, nat>
    ghost var settled: map<KeyId, nat>
    ghost var tasks: map<nat, Stage>
    ghost var calls: seq<Call>
    ghost var replies: seq<Reply>
    ghost var clock: Time

    ghost function Table(): State
      reads this
    {
      State(keys, claims, owners, settled, tasks, calls, replies, clock)
    }

    ghost predicate Valid()
      reads this
    {
      Inv(Table())
    }

    constructor ()
      ensures Valid() && Table() == Empty
    {
      keys, claims, owners, settled, tasks, calls, replies, clock := map[], [], map[], map[], map[], [], [], 0;
    }

    /** The writes of a claim: a row older than 24 hours makes way. */
    method WriteClaim(id: KeyId, hash: string, now: Time) returns (body: Option<Body>)
      modifies this
      ensures Table() == ClaimKey(old(Table()), id, hash, now)
      ensures body == if old(Live(Table(), id, now)) then Some(BodyFor(old(keys)[id], hash)) else None
      ensures ClaimDone(old(keys), keys, id, hash, now, body)
    {
      ghost var before := Table();
      if id in keys && keys[id].createdAt < now - SEND_KEY_TTL_MS {
        keys := keys - {id};
      }
      assert id in keys <==> Live(before, id, now);
      clock := now;
      if id !in keys {
        keys := keys[id := Row(hash, None, now)];
        assert keys == before.keys[id := Row(hash, None, now)];
        owners, tasks, claims := owners[id := |claims|], tasks[|claims| := Ready], claims + [Claim(id, hash, now)];
        body := None;
      } else {
        body := Some(BodyFor(keys[id], hash));
        replies := replies + [Reply(id, hash, now, body.value)];
      }
    }

    /** Claims `id` for one send. None: this request sends. */
    method ClaimSendKey(id: KeyId, hash: string, now: Time) returns (body: Option<Body>)
      requires Valid() && now >= clock
      modifies this
      ensures Valid() && Table() == ClaimKey(old(Table()), id, hash, now)
      ensures ClaimDone(old(keys), keys, id, hash, now, body)
      ensures body.None? ==> claims == old(claims) + [Claim(id, hash, now)] && replies == old(replies)
      ensures body.Some? ==> claims == old(claims) && replies == old(replies) + [Reply(id, hash, now, body.value)]
    {
      ghost var before := Table();
      body := WriteClaim(id, hash, now);
      StepLeadsToInv(before, KClaim(id, hash, now), Table());
    }

    method SettleSendKey(claim: nat, id: KeyId, result: SendResult, now: Time)
      requires Valid() && Possible(Table(), KSettle(claim, now))
      requires tasks[claim].result == result && claims[claim].id == id
      modifies this
      ensures Valid() && Table() == Settle(old(Table()), claim, now)
      ensures keys.Keys == old(keys).Keys && keys - {id} == old(keys) - {id}
      ensures id in keys ==> keys[id] == Row(old(keys)[id].hash, Some(result), old(keys)[id].createdAt)
    {
      ghost var before := Table();
      WriteResult(claim, id, result, now);
      StepLeadsToInv(before, KSettle(claim, now), Table());
    }

    method WriteResult(claim: nat, id: KeyId, result: SendResult, now: Time)
      requires Possible(Table(), KSettle(claim, now)) && tasks[claim].result == result && claims[claim].id == id
      modifies this
      ensures Table() == Settle(old(Table()), claim, now)
      ensures keys.Keys == old(keys).Keys && keys - {id} == old(keys) - {id}
      ensures id in keys ==> keys[id] == Row(old(keys)[id].hash, Some(result), old(keys)[id].createdAt)
    {
      if id in keys {
        keys := keys[id := keys[id].(result := Some(result))];
        settled := settled[id := claim];
      }
      tasks, clock := tasks - {claim}, now;
    }

    /** Retention. */
    method PruneSendKeys(now: Time)
      requires Valid() && now >= clock
      modifies this
      ensures Valid() && Table() == Apply(old(Table()), KPrune(now))
      ensures forall id :: id in keys <==> id in old(keys) && now - old(keys)[id].createdAt <= 86_400_000
      ensures forall id :: id in keys ==> keys[id] == old(keys)[id]
    {
      ghost var before := Table();
      DeleteBefore(now);
      StepLeadsToInv(before, KPrune(now), Table());
    }

    method DeleteBefore(now: Time)
      requires now >= clock
      modifies this
      ensures Table() == Apply(old(Table()), KPrune(now))
      ensures forall id :: id in keys <==> id in old(keys) && now - old(keys)[id].createdAt <= 86_400_000
      ensures forall id :: id in keys ==> keys[id] == old(keys)[id]
    {
      keys := Since(keys, now - SEND_KEY_TTL_MS);
      clock := now;
    }
  }
}
