/** Bilateral reopening: what it takes to complete, and what a revision preserves. */
module ReopenTheorems {
  import opened Lifecycle
  import opened Ordering
  import opened Rows
  import opened Policies
  import opened IdentitySteps
  import opened PartySteps
  import opened EvidenceSteps
  import opened SealSteps
  import opened ConsentSteps
  import opened Protocol
  import opened Integrity
  import opened SealTheorems

  // ---- Completing a reopen ----

  /** The call moves a requested reopen to ACTIVE. */
  ghost predicate Reopens(env: Env, s: State, a: Action) {
    s.status == ReopenRequested && Apply(env, s, a).state.status == Active
  }

  /** A revision appears exactly when a reopen completes, numbered next; then every party holds a
      reopen grant, and the revision keeps the hash and time of the seal with a snapshot of the
      agreement as it is. */
  lemma RevisionStep(env: Env, s: State, a: Action)
    ensures var s' := Apply(env, s, a).state;
      if Reopens(env, s, a) then
        && s.sealedAt.Some?
        && s'.revisions == s.revisions
             + [Revision(|s.revisions| + 1, s.sealHash, s.sealedAt.value, SnapshotNow(env, s))]
        && s'.parties == s.parties && s.parties != []
        && (forall p <- s'.parties :: HoldsReopenGrant(s'.records, p.pk))
      else s'.revisions == s.revisions
  {
    hide SetParties, PatchParties, AddParty, UpdateTerms, GenerateUploadUrl, UploadEvidence, ConfirmUpload;
    hide VerifyIdentity, CreateLivenessSession, ProcessLivenessResult, ResolveManualReview, CleanupReference;
    hide ConfirmByPhone, ConfirmReopenByPhone, VerifyOtp, RequestReopenOtp;
    hide ReissueConsent, IssueCodes, AllPartiesConsented;
    hide HoldsReopenGrant, SnapshotNow;
    Frame(env, s, a);
    StatusStep(env, s, a);
    if a.DoConfirmReopenByPhone? {
      CompletionStep(env, s, a.phone, a.code);
    }
  }

  lemma CompletionStep(env: Env, s: State, phone: string, code: string)
    ensures var s' := ConfirmReopenByPhone(env, s, phone, code).state;
      if s.status == ReopenRequested && s'.status == Active then
        && s.sealedAt.Some?
        && s'.revisions == s.revisions
             + [Revision(|s.revisions| + 1, s.sealHash, s.sealedAt.value, SnapshotNow(env, s))]
        && s'.parties == s.parties && s.parties != []
        && (forall p <- s'.parties :: HoldsReopenGrant(s'.records, p.pk))
      else s'.revisions == s.revisions
  {
  }

  lemma RevisionStepAt(env: Env, tr: Trace, i: nat)
    requires tr.Valid(env) && i < |tr.actions|
    ensures var s, s' := tr.states[i], tr.states[i + 1];
      if s.status == ReopenRequested && s'.status == Active then
        && s.sealedAt.Some?
        && s'.revisions == s.revisions
             + [Revision(|s.revisions| + 1, s.sealHash, s.sealedAt.value, SnapshotNow(env, s))]
        && s'.parties == s.parties
        && (forall p <- s'.parties :: HoldsReopenGrant(s'.records, p.pk))
      else s'.revisions == s.revisions
  {
    assert tr.Follows(env, i);
    RevisionStep(env, tr.states[i], tr.actions[i]);
  }

  ghost predicate ReopenedAt(tr: Trace, i: nat)
    requires |tr.states| == |tr.actions| + 1 && i < |tr.actions|
  {
    tr.states[i].status == ReopenRequested && tr.states[i + 1].status == Active
  }

  /** How many bilateral reopens the first n steps completed. */
  ghost function Completions(tr: Trace, n: nat): nat
    requires |tr.states| == |tr.actions| + 1 && n <= |tr.actions|
  {
    if n == 0 then 0 else Completions(tr, n - 1) + if ReopenedAt(tr, n - 1) then 1 else 0
  }

  /** What revision r remembers: the agreement was sealed at step k, reopened at step i, and held that
      seal in between. */
  ghost predicate RemembersSeal(env: Env, tr: Trace, r: Revision, k: nat, i: nat)
    requires tr.Valid(env) && i < |tr.actions|
  {
    && HeldSince(env, tr, k, i) && ReopenedAt(tr, i)
    && r.sealHash == env.digest(PayloadNow(env, tr.states[k + 1]))
    && r.sealedAt == tr.states[k].now
    && Covers(r.snapshot, SnapshotNow(env, tr.states[k + 1]))
  }

  /** The snapshot has the sealed core fields and parties, and every piece of evidence that was sealed. */
  ghost predicate Covers(snapshot: Snapshot, sealedOne: Snapshot) {
    && snapshot == sealedOne.(payload := sealedOne.payload.(evidence := snapshot.payload.evidence))
    && multiset(sealedOne.payload.evidence) <= multiset(snapshot.payload.evidence)
  }

  lemma SnapshotCovers(env: Env, u: State, s: State)
    requires Frozen(u, s)
    ensures Covers(SnapshotNow(env, s), SnapshotNow(env, u))
  {
    OrdersAreTotal();
    ConfirmedRowsGrow(u.evidence, s.evidence);
    OrderBySorts(ConfirmedRows(u.evidence), ByKindAndKey);
    OrderBySorts(ConfirmedRows(s.evidence), ByKindAndKey);
  }

  lemma NewRevision(env: Env, tr: Trace, i: nat) returns (k: nat)
    requires tr.Valid(env) && i < |tr.actions| && ReopenedAt(tr, i)
    ensures |tr.states[i + 1].revisions| == |tr.states[i].revisions| + 1
    ensures RemembersSeal(env, tr, tr.states[i + 1].revisions[|tr.states[i].revisions|], k, i)
  {
    k := SealOf(env, tr, i);
    RevisionStepAt(env, tr, i);
    FrozenSinceSeal(env, tr, k, i);
    SnapshotCovers(env, tr.states[k + 1], tr.states[i]);
  }

  ghost predicate RemembersSome(env: Env, tr: Trace, r: Revision)
    requires tr.Valid(env)
  {
    exists k: nat, i: nat :: i < |tr.actions| && RemembersSeal(env, tr, r, k, i)
  }

  /** Revisions are numbered 1..n, one per completed reopen, and each keeps its seal. */
  lemma {:induction false} RevisionsRememberSeals(env: Env, tr: Trace, n: nat)
    requires tr.Valid(env) && n < |tr.states|
    ensures |tr.states[n].revisions| == Completions(tr, n)
    ensures forall j :: 0 <= j < |tr.states[n].revisions| ==>
      tr.states[n].revisions[j].number == j + 1 && RemembersSome(env, tr, tr.states[n].revisions[j])
  {
    hide Apply, RemembersSome;
    if n > 0 {
      RevisionsRememberSeals(env, tr, n - 1);
      RevisionStepAt(env, tr, n - 1);
      if ReopenedAt(tr, n - 1) {
        NewRevisionRemembered(env, tr, n - 1);
      }
    }
  }

  lemma NewRevisionRemembered(env: Env, tr: Trace, i: nat)
    requires tr.Valid(env) && i < |tr.actions| && ReopenedAt(tr, i)
    ensures |tr.states[i + 1].revisions| == |tr.states[i].revisions| + 1
    ensures RemembersSome(env, tr, tr.states[i + 1].revisions[|tr.states[i].revisions|])
  {
    var k := NewRevision(env, tr, i);
  }

  /** Leaving REOPEN_REQUESTED for ACTIVE needs a reopen grant held by every current party. */
  lemma ReopenNeedsEveryGrant(env: Env, tr: Trace, i: nat)
    requires tr.Valid(env) && i < |tr.actions| && ReopenedAt(tr, i)
    ensures forall p <- tr.states[i + 1].parties :: HoldsReopenGrant(tr.states[i + 1].records, p.pk)
  {
    RevisionStepAt(env, tr, i);
  }

  // ---- Grants outlive the reopen they were given for ----

  lemma GrantEffect(records: map<nat, Record>, r: nat, now: int, pk: nat)
    requires r in records && records[r].purpose == ForReopen && !records[r].granted
    ensures HoldsReopenGrant(GrantRecord(records, r, now), pk) <==>
      pk == records[r].party || HoldsReopenGrant(records, pk)
  {
    var after := GrantRecord(records, r, now);
    assert after[r].granted && after[r].purpose == ForReopen;
    if HoldsReopenGrant(records, pk) {
      var k :| k in records && records[k].party == pk && records[k].purpose == ForReopen && records[k].granted;
      assert after[k] == records[k];
    }
    if HoldsReopenGrant(after, pk) && pk != records[r].party {
      var k :| k in after && after[k].party == pk && after[k].purpose == ForReopen && after[k].granted;
      assert k != r && records[k] == after[k];
    }
  }

  lemma RightIsOpen(env: Env, s: State, tries: map<nat, Counter>, purpose: Purpose, phone: string, code: string)
    requires Judge(env, s, tries, purpose, phone, code).Right?
    ensures var r := Judge(env, s, tries, purpose, phone, code).r;
      && r in s.records && s.records[r].purpose == purpose && !s.records[r].granted
      && s.records[r].party in PartyPks(s.parties)
      && CodeFits(env, s, r, code) && LiveCount(tries, r, s.now) < OTP_MAX_ATTEMPTS
  {
  }

  /** A right code completes the reopen exactly when every other party already holds a grant, of
      this or any earlier reopen. */
  lemma RightCodeCompletesExactly(env: Env, s: State, phone: string, code: string)
    requires s.status == ReopenRequested && s.sealedAt.Some?
    requires Judge(env, s, s.reopenTries, ForReopen, phone, code).Right?
    ensures var r := Judge(env, s, s.reopenTries, ForReopen, phone, code).r;
      Reopens(env, s, DoConfirmReopenByPhone(phone, code)) <==>
        forall p <- s.parties :: p.pk != s.records[r].party ==> HoldsReopenGrant(s.records, p.pk)
  {
    hide Apply, Judge, HoldsReopenGrant, GrantRecord, ConfirmReopenByPhone;
    RightIsOpen(env, s, s.reopenTries, ForReopen, phone, code);
    var r := Judge(env, s, s.reopenTries, ForReopen, phone, code).r;
    forall p | p in s.parties
      ensures HoldsReopenGrant(GrantRecord(s.records, r, s.now), p.pk) <==>
        p.pk == s.records[r].party || HoldsReopenGrant(s.records, p.pk)
    {
      GrantEffect(s.records, r, s.now, p.pk);
    }
    RightCodeReply(env, s, phone, code, r);
    ConfirmApplied(env, s, phone, code);
  }

  lemma ConfirmApplied(env: Env, s: State, phone: string, code: string)
    ensures Apply(env, s, DoConfirmReopenByPhone(phone, code)) == ConfirmReopenByPhone(env, s, phone, code)
  {
    hide ConfirmReopenByPhone;
  }

  lemma RightCodeReply(env: Env, s: State, phone: string, code: string, r: nat)
    requires s.status == ReopenRequested && s.sealedAt.Some?
    requires Judge(env, s, s.reopenTries, ForReopen, phone, code) == Right(r)
    ensures ConfirmReopenByPhone(env, s, phone, code).state.status == Active <==>
      s.parties != [] && forall p <- s.parties :: HoldsReopenGrant(GrantRecord(s.records, r, s.now), p.pk)
  {
  }

  // ---- Later reopens ----

  ghost predicate AllHoldReopenGrants(s: State) {
    forall p <- s.parties :: HoldsReopenGrant(s.records, p.pk)
  }

  lemma GrantsStep(env: Env, s: State, a: Action)
    requires RecordsKept(s) && s.status != Draft && AllHoldReopenGrants(s)
    requires !(a.DoSetParties? && Apply(env, s, a).outcome == Done)
    ensures AllHoldReopenGrants(Apply(env, s, a).state)
  {
    hide Apply;
    var s' := Apply(env, s, a).state;
    forall p' | p' in s'.parties ensures HoldsReopenGrant(s'.records, p'.pk) {
      PartyKeyKept(env, s, a, p');
      var p :| p in s.parties && p.pk == p'.pk;
      var k :| k in s.records && s.records[k].party == p.pk && s.records[k].purpose == ForReopen
        && s.records[k].granted;
      GrantedReopenKept(env, s, a, k);
    }
  }

  lemma PartyKeyKept(env: Env, s: State, a: Action, p': Party)
    requires s.status != Draft && p' in Apply(env, s, a).state.parties
    requires !(a.DoSetParties? && Apply(env, s, a).outcome == Done)
    ensures p'.pk in PartyPks(s.parties)
  {
    Frame(env, s, a);
    if a.DoPatchParties? {
      PatchingKeepsPks(env, s, a.patches);
    }
  }

  /** A granted reopen record is never deleted or changed, short of replacing the parties. */
  lemma GrantedReopenKept(env: Env, s: State, a: Action, k: nat)
    requires k in s.records && s.records[k].purpose == ForReopen && s.records[k].granted
    requires RecordsKept(s)
    requires !(a.DoSetParties? && Apply(env, s, a).outcome == Done)
    ensures var s' := Apply(env, s, a).state; k in s'.records && s'.records[k] == s.records[k]
  {
    hide ConfirmByPhone, ConfirmReopenByPhone, RequestOtp, ReissueConsent, RequestReopenOtp;
    hide RecordsKept, SetParties, PatchParties, Seal;
    hide VerifyIdentity, CreateLivenessSession, ProcessLivenessResult;
    hide ResolveManualReview, CleanupReference, ConfirmUpload;
    assert k < s.nextPk by {
      RecordKeyed(s, k);
    }
    Frame(env, s, a);
    match a
    case DoConfirmByPhone(phone, code) => ConfirmKeepsOthers(env, s, phone, code, k);
    case DoConfirmReopenByPhone(phone, code) => ConfirmReopenKeepsOthers(env, s, phone, code, k);
    case DoRequestOtp(codes) => RoundsKeepOld(env, s, codes, k);
    case DoReissueConsent(codes) => RoundsKeepOld(env, s, codes, k);
    case DoRequestReopenOtp(codes) => RoundsKeepOld(env, s, codes, k);
    case _ =>
  }

  lemma RoundsKeepOld(env: Env, s: State, codes: seq<string>, k: nat)
    requires k in s.records && s.records[k].purpose == ForReopen && s.records[k].granted && k < s.nextPk
    ensures var rs := RequestOtp(env, s, codes).state.records; k in rs && rs[k] == s.records[k]
    ensures var rs := ReissueConsent(env, s, codes).state.records; k in rs && rs[k] == s.records[k]
    ensures var rs := RequestReopenOtp(env, s, codes).state.records; k in rs && rs[k] == s.records[k]
  {
    hide IssueCodes, AllPartiesConsented;
    IssueKeepsOld(env, s.(status := PendingConsent, records := DropConsent(s.records)), ForConsent, codes, k);
    IssueKeepsOld(env, s.(records := DropConsent(s.records)), ForConsent, codes, k);
    IssueKeepsOld(env, s.(records := DropOpenReopen(s.records)), ForReopen, codes, k);
  }

  lemma RecordKeyed(s: State, k: nat)
    requires RecordsKept(s) && k in s.records
    ensures k < s.nextPk
  {
    assert RecordKept(s, k, s.records[k]);
  }

  lemma IssueKeepsOld(env: Env, s: State, purpose: Purpose, codes: seq<string>, k: nat)
    requires k in s.records && k < s.nextPk
    ensures var s' := IssueCodes(env, s, purpose, codes); k in s'.records && s'.records[k] == s.records[k]
  {
  }

  lemma ConfirmKeepsOthers(env: Env, s: State, phone: string, code: string, k: nat)
    requires k in s.records && s.records[k].granted
    ensures var s' := ConfirmByPhone(env, s, phone, code).state; k in s'.records && s'.records[k] == s.records[k]
  {
    hide ConfirmByPhone;
    var v := Judge(env, s, s.consentTries, ForConsent, phone, code);
    if v.Right? {
      RightIsOpen(env, s, s.consentTries, ForConsent, phone, code);
    }
  }

  lemma ConfirmReopenKeepsOthers(env: Env, s: State, phone: string, code: string, k: nat)
    requires k in s.records && s.records[k].granted
    ensures var s' := ConfirmReopenByPhone(env, s, phone, code).state; k in s'.records && s'.records[k] == s.records[k]
  {
    hide ConfirmReopenByPhone;
    var v := Judge(env, s, s.reopenTries, ForReopen, phone, code);
    if v.Right? {
      RightIsOpen(env, s, s.reopenTries, ForReopen, phone, code);
    }
  }

  ghost predicate PartiesReplacedAt(env: Env, tr: Trace, j: nat)
    requires tr.Valid(env) && j < |tr.actions|
  {
    tr.actions[j].DoSetParties? && tr.Committed(env, j)
  }

  lemma GrantsStepAt(env: Env, tr: Trace, j: nat)
    requires tr.Valid(env) && j < |tr.actions| && !PartiesReplacedAt(env, tr, j)
    requires tr.states[j].status != Draft && AllHoldReopenGrants(tr.states[j])
    ensures AllHoldReopenGrants(tr.states[j + 1])
  {
    hide Apply, AllHoldReopenGrants;
    AlwaysSound(env, tr, j);
    assert tr.Follows(env, j);
    GrantsStep(env, tr.states[j], tr.actions[j]);
  }

  lemma {:induction false} GrantsPersist(env: Env, tr: Trace, i: nat, n: nat)
    requires tr.Valid(env) && i < |tr.actions| && ReopenedAt(tr, i) && i < n < |tr.states|
    requires forall j: nat :: i < j < n ==> !PartiesReplacedAt(env, tr, j)
    ensures AllHoldReopenGrants(tr.states[n])
  {
    hide Apply, HoldsReopenGrant;
    if n == i + 1 {
      ReopenNeedsEveryGrant(env, tr, i);
    } else {
      GrantsPersist(env, tr, i, n - 1);
      DraftIsNeverReentered(env, tr, i, n - 1);
      GrantsStepAt(env, tr, n - 1);
    }
  }

  /** Once an agreement was reopened and its parties were not replaced since, one right code from a
      single party completes every later reopen: nobody else is asked again. */
  lemma LaterReopenNeedsOneCode(env: Env, tr: Trace, i: nat, n: nat, phone: string, code: string)
    requires tr.Valid(env) && i < |tr.actions| && ReopenedAt(tr, i) && i < n < |tr.states|
    requires forall j: nat :: i < j < n ==> !PartiesReplacedAt(env, tr, j)
    requires tr.states[n].status == ReopenRequested
    requires Judge(env, tr.states[n], tr.states[n].reopenTries, ForReopen, phone, code).Right?
    ensures Reopens(env, tr.states[n], DoConfirmReopenByPhone(phone, code))
  {
    hide Apply, Judge, HoldsReopenGrant;
    GrantsPersist(env, tr, i, n);
    var k := SealOf(env, tr, n);
    FrozenSinceSeal(env, tr, k, n);
    RightCodeCompletesExactly(env, tr.states[n], phone, code);
  }
}
