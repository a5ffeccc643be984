/** What has to be true before the saga spends a once-only sync: Meta itself reported the number as one
    that stays on the WhatsApp Business app, and enough of the 24-hour window is left. */
module ProvisioningEvidence {
  import opened Core
  import opened Coexistence
  import opened Provisioning

  predicate Spends(stage: Stage) { stage.Begin? || stage.CallPhones? }

  /** Read back from Meta, not taken from what the onboarding asked for. */
  predicate HasEvidence(w: Worker) {
    w.snap.onboarding.Coexistence? && w.progress.verified == Some(Coexistence) && !SpentUnconfirmed(w.snap)
  }

  ghost predicate EvidenceOk(s: State) {
    forall i :: i in s.workers && Spends(s.workers[i].stage) ==> HasEvidence(s.workers[i])
  }

  /** A worker that asks Meta is one that may still owe a sync. */
  ghost predicate AsksOk(s: State) {
    forall i :: i in s.workers && s.workers[i].stage.Verify? ==>
      s.workers[i].snap.onboarding.Coexistence? && !SpentUnconfirmed(s.workers[i].snap)
  }

  lemma AnswerKeepsEvidence(w: Worker, phone: string, answer: Answer)
    requires w.stage.CallPhones? && HasEvidence(w)
    ensures Spends(AfterAnswer(w, phone, answer).stage) ==> HasEvidence(AfterAnswer(w, phone, answer))
  {
  }

  lemma CallKeepsEvidence(s: State, i: nat, phone: string, answer: Option<Answer>)
    requires EvidenceOk(s) && AsksOk(s) && Possible(s, PCall(i, phone, answer))
    ensures EvidenceOk(Called(s, i, phone, answer)) && AsksOk(Called(s, i, phone, answer))
  {
    if answer.Some? {
      AnswerKeepsEvidence(s.workers[i], phone, answer.value);
    }
  }

  lemma MoveKeepsEvidence(s: State, step: Step)
    requires EvidenceOk(s) && AsksOk(s) && Possible(s, step) && (step.PConfigured? || step.PVerified?)
    ensures EvidenceOk(Apply(s, step)) && AsksOk(Apply(s, step))
  {
    if step.PConfigured? {
      EnteringSync(s.workers[step.i], Coexistence, step.now);
    } else {
      EnteringSync(s.workers[step.i], step.verdict, step.now);
    }
  }

  lemma BeginKeepsEvidence(s: State, i: nat, at: Time, lost: bool)
    requires EvidenceOk(s) && AsksOk(s) && Possible(s, PBeginSync(i, at, lost))
    ensures EvidenceOk(SyncBegun(s, i, at, lost)) && AsksOk(SyncBegun(s, i, at, lost))
  {
  }

  /** The other steps start no sync and ask for no evidence. */
  lemma OthersKeepEvidence(s: State, step: Step)
    requires EvidenceOk(s) && AsksOk(s) && Possible(s, step)
    requires !step.PCall? && !step.PConfigured? && !step.PVerified? && !step.PBeginSync?
    ensures EvidenceOk(Apply(s, step)) && AsksOk(Apply(s, step))
  {
    var s' := Apply(s, step);
    assert forall i :: i in s'.workers && (Spends(s'.workers[i].stage) || s'.workers[i].stage.Verify?) ==>
      i in s.workers && s'.workers[i] == s.workers[i];
  }

  lemma StepKeepsEvidence(s: State, step: Step)
    requires EvidenceOk(s) && AsksOk(s) && Possible(s, step)
    ensures EvidenceOk(Apply(s, step)) && AsksOk(Apply(s, step))
  {
    if step.PCall? {
      CallKeepsEvidence(s, step.i, step.phone, step.answer);
    } else if step.PConfigured? || step.PVerified? {
      MoveKeepsEvidence(s, step);
    } else if step.PBeginSync? {
      BeginKeepsEvidence(s, step.i, step.at, step.lost);
    } else {
      OthersKeepEvidence(s, step);
    }
  }

  lemma {:induction false} RunKeepsEvidence(s: State, steps: seq<Step>)
    requires EvidenceOk(s) && AsksOk(s) && Run(s, steps)
    ensures EvidenceOk(After(s, steps)) && AsksOk(After(s, steps))
    decreases |steps|
  {
    if steps != [] {
      StepKeepsEvidence(s, steps[0]);
      RunKeepsEvidence(Apply(s, steps[0]), steps[1..]);
    }
  }

  /** Main result: in every run, whoever marks or requests a sync has Meta's own report that the number
      coexists, and claimed the WABA with no earlier request left unanswered. */
  lemma NothingIsIssuedOnTrust(steps: seq<Step>, i: nat)
    requires Run(Initial, steps)
    ensures var s := After(Initial, steps);
            i in s.workers && Spends(s.workers[i].stage) ==> HasEvidence(s.workers[i])
  {
    RunKeepsEvidence(Initial, steps);
  }

  /** A worker goes on to a sync exactly when the WABA owes one, Meta says it coexists, nothing is
      unanswered, and the window has more than its margin left. */
  lemma EnteringSync(w: Worker, verdict: Onboarding, now: Time)
    ensures AfterConfig(w, now).stage.Begin? <==>
              Outstanding(w.snap) && !SpentUnconfirmed(w.snap) && w.snap.verified == Some(Coexistence)
              && WorthAttempting(w.snap.deadlineAt, now)
    ensures AfterVerdict(w, verdict, now).stage.Begin? <==>
              verdict.Coexistence? && WorthAttempting(w.snap.deadlineAt, now)
              && (w.snap.contacts.startedAt.None? || w.snap.history.startedAt.None?)
    ensures AfterVerdict(w, verdict, now).stage.Begin? ==> AfterVerdict(w, verdict, now).progress.verified == Some(Coexistence)
    ensures AfterConfig(w, now).stage.Begin? ==> AfterConfig(w, now).progress.verified == Some(Coexistence)
  {
  }

  /** What Meta reports about one phone. */
  datatype Evidence = Evidence(isOnBizApp: Option<bool>, platformType: Option<string>)

  /** Asks about one phone after the other, and stops at the first that does not coexist: the WABA counts
      as one that does only when every phone is reported so. A field Meta leaves out is not a yes. */
  method VerifyOnboardingType(phones: seq<Evidence>) returns (verdict: Onboarding, asked: nat)
    ensures verdict.Coexistence? <==>
              forall k :: 0 <= k < |phones| ==> phones[k] == Evidence(Some(true), Some("CLOUD_API"))
    ensures asked <= |phones| && (verdict.Coexistence? ==> asked == |phones|)
    ensures verdict.Standard? ==> asked > 0 && Verified(phones[asked - 1].isOnBizApp, phones[asked - 1].platformType).Standard?
  {
    asked := 0;
    while asked < |phones|
      invariant asked <= |phones|
      invariant forall k :: 0 <= k < asked ==> phones[k] == Evidence(Some(true), Some("CLOUD_API"))
    {
      var phone := phones[asked];
      asked := asked + 1;
      if Verified(phone.isOnBizApp, phone.platformType) != Coexistence {
        return Standard, asked;
      }
    }
    verdict := Coexistence;
  }
}
