/** agreements/services.py as state changes: editing terms, sealing, closing and the ways back. */
module SealSteps {
  import opened Wrappers
  import opened Text
  import opened Lifecycle
  import opened Ordering
  import opened Rows
  import opened Policies
  import opened Validators

  // ---- What a seal covers ----

  function RowOfParty(p: Party): PartyRow {
    PartyRow(p.role, p.displayName, p.idType, p.idNumber, p.phone)
  }

  function PartyRows(parties: seq<Party>): (rows: seq<PartyRow>)
    ensures |rows| == |parties|
    ensures forall i :: 0 <= i < |rows| ==> rows[i] == RowOfParty(parties[i])
  {
    seq(|parties|, i requires 0 <= i < |parties| => RowOfParty(parties[i]))
  }

  function ConfirmedRows(items: seq<Evidence>): seq<EvidenceRow> {
    if items == [] then []
    else
      var e := items[|items| - 1];
      ConfirmedRows(items[..|items| - 1]) + if e.confirmed then [EvidenceRow(e.kind, e.fileHash, e.fileKey)] else []
  }

  /** ORDER BY role */
  predicate ByRole(a: PartyRow, b: PartyRow) {
    TextLeq(a.role, b.role)
  }

  /** ORDER BY evidence_type, file_key */
  predicate ByKindAndKey(a: EvidenceRow, b: EvidenceRow) {
    TextLeq(a.kind, b.kind) && (a.kind == b.kind ==> TextLeq(a.fileKey, b.fileKey))
  }

  /** The dictionary both _compute_seal_hash and _build_snapshot fill. */
  function PayloadOf(env: Env, terms: Terms, parties: seq<Party>, items: seq<Evidence>): Payload {
    Payload(env.agreementId, terms.title, terms.description, terms.scenario,
            OrderBy(PartyRows(parties), ByRole), OrderBy(ConfirmedRows(items), ByKindAndKey))
  }

  function PayloadNow(env: Env, s: State): Payload {
    PayloadOf(env, s.terms, s.parties, s.evidence)
  }

  function SnapshotNow(env: Env, s: State): Snapshot {
    Snapshot(PayloadNow(env, s), s.terms.fieldData)
  }

  // ---- Editing ----

  datatype TermsEdit = TermsEdit(
    title: Option<string>, description: Option<string>, scenario: Option<string>, fieldData: Option<string>)

  function Edited(terms: Terms, e: TermsEdit): Terms {
    Terms(if e.title.Some? then e.title.value else terms.title,
          if e.description.Some? then e.description.value else terms.description,
          if e.scenario.Some? then e.scenario.value else terms.scenario,
          if e.fieldData.Some? then e.fieldData.value else terms.fieldData)
  }

  /** update_draft and update_active differ in the status they ask for. */
  ghost function UpdateTerms(s: State, required: Status, e: TermsEdit): (reply: Reply)
    ensures reply.state == s.(terms := reply.state.terms)
    ensures reply.outcome.Rejected? ==> reply.state == s
  {
    if s.status != required then Reject(s, WrongStatus)
    else Reply(s.(terms := Edited(s.terms, e)), Done)
  }

  // ---- Sealing and after ----

  ghost predicate ValidNow(env: Env, s: State) {
    AgreementValid(env.text, s.terms, s.parties, s.evidence, s.verifications)
  }

  /** AgreementService.request_consent, which only moves the status. */
  ghost function RequestConsent(s: State): (reply: Reply)
    ensures reply.state == s.(status := reply.state.status)
    ensures reply.outcome.Rejected? ==> reply.state == s
  {
    if !CanRequestConsent(s) then Reject(s, WrongStatus) else
    var next := NextState(s.status, RequestConsentMove);
    if next.None? then Reject(s, IllegalTransition) else Reply(s.(status := next.value), Done)
  }

  /** seal_agreement; `planAllows` is the verdict of the creator's billing plan. */
  ghost function Seal(env: Env, s: State, planAllows: bool): (reply: Reply)
    ensures reply.state == s.(
      status := reply.state.status, sealedAt := reply.state.sealedAt, sealHash := reply.state.sealHash)
    ensures reply.outcome.Rejected? ==> reply.state == s
    ensures reply.outcome == Done ==>
      && planAllows && CanSeal(s) && ValidNow(env, s)
      && reply.state == s.(status := Sealed, sealedAt := Some(s.now), sealHash := env.digest(PayloadNow(env, s)))
  {
    if !planAllows then Reject(s, PlanCap)
    else if !CanSeal(s) then Reject(s, NotSealable)
    else if !ValidNow(env, s) then Reject(s, NotValid)
    else
      var next := NextState(s.status, SealMove);
      if next.None? then Reject(s, IllegalTransition)
      else Reply(s.(status := next.value, sealedAt := Some(s.now), sealHash := env.digest(PayloadNow(env, s))), Done)
  }

  ghost function Close(s: State): (reply: Reply)
    ensures reply.state == s.(status := reply.state.status, closedAt := reply.state.closedAt)
    ensures reply.outcome.Rejected? ==> reply.state == s
  {
    var next := NextState(s.status, CloseMove);
    if next.None? then Reject(s, IllegalTransition)
    else Reply(s.(status := next.value, closedAt := Some(s.now)), Done)
  }

  ghost function RequestReopen(s: State): (reply: Reply)
    ensures reply.state == s.(status := reply.state.status)
    ensures reply.outcome.Rejected? ==> reply.state == s
  {
    if s.status != Sealed then Reject(s, WrongStatus) else
    var next := NextState(s.status, RequestReopenMove);
    if next.None? then Reject(s, IllegalTransition) else Reply(s.(status := next.value), Done)
  }

  /** complete_bilateral_reopen; the revision's seal time is a non-null column. */
  ghost function CompleteBilateralReopen(env: Env, s: State): (reply: Reply)
    ensures reply.state == s.(
      revisions := reply.state.revisions, status := reply.state.status,
      sealedAt := reply.state.sealedAt, sealHash := reply.state.sealHash)
    ensures reply.outcome.Rejected? ==> reply.state == s
    ensures reply.outcome == Done ==> s.status == ReopenRequested && reply.state.status == Active
  {
    var next := NextState(s.status, BilateralConfirmMove);
    if next.None? then Reject(s, IllegalTransition)
    else if s.sealedAt.None? then Reject(s, IntegrityError)
    else
      var revision := Revision(|s.revisions| + 1, s.sealHash, s.sealedAt.value, SnapshotNow(env, s));
      Reply(s.(revisions := s.revisions + [revision], status := next.value, sealedAt := None, sealHash := ""), Done)
  }

  ghost function CancelReopen(s: State): (reply: Reply)
    ensures reply.state == s.(status := reply.state.status)
    ensures reply.outcome.Rejected? ==> reply.state == s
  {
    var next := NextState(s.status, CancelReopenMove);
    if next.None? then Reject(s, IllegalTransition) else Reply(s.(status := next.value), Done)
  }

  /** reopen_agreement, the older one-sided reopen; it leaves seal_hash in place. */
  ghost function Reopen(s: State): (reply: Reply)
    ensures reply.state == s.(status := reply.state.status, sealedAt := reply.state.sealedAt)
    ensures reply.outcome.Rejected? ==> reply.state == s
  {
    if !CanReopen(s) then Reject(s, ReopenWindowOver) else
    var next := NextState(s.status, ReopenMove);
    if next.None? then Reject(s, IllegalTransition)
    else Reply(s.(status := next.value, sealedAt := None), Done)
  }
}
