/** agreements/services.py: the methods that edit, seal, close and reopen an agreement in place. */
module AgreementService {
  import opened Wrappers
  import opened Lifecycle
  import opened Rows
  import opened Policies
  import opened Validators
  import opened SealSteps
  import opened AgreementDb
  import opened ConsentSelectors

  /** What update_draft and update_active do once the status is theirs to edit. */
  method UpdateTermsOf(db: Db, required: Status, edit: TermsEdit) returns (outcome: Outcome)
    modifies db`terms
    ensures Reply(db.View(), outcome) == UpdateTerms(old(db.View()), required, edit)
  {
    if db.status != required {
      return Rejected(WrongStatus);
    }
    var terms := db.terms;
    if edit.title.Some? {
      terms := terms.(title := edit.title.value);
    }
    if edit.description.Some? {
      terms := terms.(description := edit.description.value);
    }
    if edit.scenario.Some? {
      terms := terms.(scenario := edit.scenario.value);
    }
    if edit.fieldData.Some? {
      terms := terms.(fieldData := edit.fieldData.value);
    }
    db.terms := terms;
    return Done;
  }

  /** agreement.status = next_state(agreement.status, ...) */
  method MoveStatus(db: Db, move: Move) returns (outcome: Outcome)
    modifies db`status
    ensures NextState(old(db.status), move) == if outcome == Done then Some(db.status) else None
    ensures outcome in {Done, Rejected(IllegalTransition)}
    ensures outcome != Done ==> db.status == old(db.status)
  {
    var next := NextState(db.status, move);
    if next.None? {
      return Rejected(IllegalTransition);
    }
    db.status := next.value;
    return Done;
  }

  method RequestConsentOf(db: Db) returns (outcome: Outcome)
    modifies db`status
    ensures Reply(db.View(), outcome) == RequestConsent(old(db.View()))
    ensures outcome == Done <==> old(db.status) in {Draft, Active} && |db.parties| >= 2
    ensures db.status == if outcome == Done then PendingConsent else old(db.status)
  {
    if !CanRequestConsent(db.View()) {
      return Rejected(WrongStatus);
    }
    outcome := MoveStatus(db, RequestConsentMove);
  }

  /** can_seal */
  method MaySeal(db: Db) returns (may: bool)
    requires Linked(db.View())
    ensures may <==> CanSeal(db.View())
  {
    if db.status !in {PendingConsent, Active} {
      return false;
    }
    if !HasConfirmedEvidence(db.evidence) {
      return false;
    }
    if db.status == PendingConsent {
      may := AllConsented(db.parties, db.records);
      return;
    }
    return true;
  }

  /** seal_agreement; `planAllows` is the verdict of the creator's billing plan. */
  method SealAgreement(env: Env, db: Db, planAllows: bool) returns (outcome: Outcome)
    requires Linked(db.View())
    modifies db`status, db`sealedAt, db`sealHash
    ensures Reply(db.View(), outcome) == Seal(env, old(db.View()), planAllows)
  {
    hide CanSeal, AgreementValid, PayloadOf;
    if !planAllows {
      return Rejected(PlanCap);
    }
    var may := MaySeal(db);
    if !may {
      return Rejected(NotSealable);
    }
    var errors := ValidateAgreement(env.text, db.terms, db.parties, db.evidence, db.verifications);
    if errors != [] {
      return Rejected(NotValid);
    }
    outcome := MoveStatus(db, SealMove);
    if outcome == Done {
      db.sealedAt := Some(db.now);
      db.sealHash := env.digest(PayloadOf(env, db.terms, db.parties, db.evidence));
    }
  }

  method CloseAgreement(db: Db) returns (outcome: Outcome)
    modifies db`status, db`closedAt
    ensures Reply(db.View(), outcome) == Close(old(db.View()))
    ensures outcome == Done <==> old(db.status) == Sealed
    ensures outcome == Done ==> db.status == Closed && db.closedAt == Some(db.now)
  {
    outcome := MoveStatus(db, CloseMove);
    if outcome == Done {
      db.closedAt := Some(db.now);
    }
  }

  method RequestReopenOf(db: Db) returns (outcome: Outcome)
    modifies db`status
    ensures Reply(db.View(), outcome) == RequestReopen(old(db.View()))
    ensures outcome == Done <==> old(db.status) == Sealed
    ensures outcome == Done ==> db.status == ReopenRequested
  {
    if db.status != Sealed {
      return Rejected(WrongStatus);
    }
    outcome := MoveStatus(db, RequestReopenMove);
  }

  /** complete_bilateral_reopen: the revision is written before the seal is cleared. */
  method CompleteBilateralReopenOf(env: Env, db: Db) returns (outcome: Outcome)
    modifies db`revisions, db`status, db`sealedAt, db`sealHash
    ensures Reply(db.View(), outcome) == CompleteBilateralReopen(env, old(db.View()))
  {
    var next := NextState(db.status, BilateralConfirmMove);
    if next.None? {
      return Rejected(IllegalTransition);
    }
    var snapshot := SnapshotNow(env, db.View());
    if db.sealedAt.None? {
      return Rejected(IntegrityError);
    }
    db.revisions := db.revisions + [Revision(|db.revisions| + 1, db.sealHash, db.sealedAt.value, snapshot)];
    db.status := next.value;
    db.sealedAt := None;
    db.sealHash := "";
    return Done;
  }

  method CancelReopenOf(db: Db) returns (outcome: Outcome)
    modifies db`status
    ensures Reply(db.View(), outcome) == CancelReopen(old(db.View()))
    ensures outcome == Done <==> old(db.status) == ReopenRequested
    ensures outcome == Done ==> db.status == Sealed
  {
    outcome := MoveStatus(db, CancelReopenMove);
  }

  method ReopenAgreement(db: Db) returns (outcome: Outcome)
    modifies db`status, db`sealedAt
    ensures Reply(db.View(), outcome) == Reopen(old(db.View()))
    ensures outcome == Done ==> old(db.status) == Sealed && db.status == Active && db.sealedAt.None?
    ensures outcome == Done <==> CanReopen(old(db.View()))
  {
    if !CanReopen(db.View()) {
      return Rejected(ReopenWindowOver);
    }
    outcome := MoveStatus(db, ReopenMove);
    if outcome == Done {
      db.sealedAt := None;
    }
  }
}
