/** What sealing fixes: frozen terms, recomputable hashes, and the standing facts of sealed agreements,
    over every run of the protocol. */
module SealTheorems {
  import opened Wrappers
  import opened Text
  import opened Lifecycle
  import opened Ordering
  import opened Rows
  import opened Policies
  import opened IdentitySteps
  import opened PartySteps
  import opened EvidenceSteps
  import opened SealSteps
  import opened ConsentSteps
  import opened Protocol
  import opened Integrity

  predicate SealHeld(status: Status) {
    status in {Sealed, ReopenRequested, Closed}
  }

  // ---- The status graph over all calls ----

  predicate Edge(a: Status, b: Status) {
    match a
    case Draft => b.PendingConsent?
    case PendingConsent => b.Active? || b.Sealed?
    case Active => b.PendingConsent? || b.Sealed?
    case Sealed => b.Closed? || b.ReopenRequested? || b.Active?
    case ReopenRequested => b.Active? || b.Sealed?
    case _ => false
  }

  lemma StatusStep(env: Env, s: State, a: Action)
    ensures var s' := Apply(env, s, a).state; s'.status == s.status || Edge(s.status, s'.status)
  {
    hide SetParties, PatchParties, AddParty, UpdateTerms, GenerateUploadUrl, UploadEvidence, ConfirmUpload;
    hide VerifyIdentity, CreateLivenessSession, ProcessLivenessResult, ResolveManualReview, CleanupReference;
    hide ConfirmByPhone, ConfirmReopenByPhone, VerifyOtp, RequestReopenOtp;
    hide ReissueConsent, IssueCodes, AllPartiesConsented;
  }

  lemma StatusStepAt(env: Env, tr: Trace, i: nat)
    requires tr.Valid(env) && i < |tr.actions|
    ensures tr.states[i + 1].status == tr.states[i].status || Edge(tr.states[i].status, tr.states[i + 1].status)
  {
    assert tr.Follows(env, i);
    StatusStep(env, tr.states[i], tr.actions[i]);
  }

  lemma {:induction false} DraftIsNeverReentered(env: Env, tr: Trace, i: nat, j: nat)
    requires tr.Valid(env) && i <= j < |tr.states| && tr.states[i].status != Draft
    ensures tr.states[j].status != Draft
  {
    if i < j {
      DraftIsNeverReentered(env, tr, i, j - 1);
      StatusStepAt(env, tr, j - 1);
    }
  }

  /** No call can change the terms or the parties. */
  ghost predicate TermsLocked(env: Env, s: State) {
    forall a :: Apply(env, s, a).state.terms == s.terms && Apply(env, s, a).state.parties == s.parties
  }

  /** The terms and parties can be edited exactly in DRAFT and ACTIVE. */
  lemma TermsLockedExactly(env: Env, s: State)
    ensures TermsLocked(env, s) <==> s.status !in {Draft, Active}
  {
    var edit := TermsEdit(Some(s.terms.title + "."), None, None, None);
    if s.status == Draft {
      assert Apply(env, s, DoUpdateDraft(edit)).state.terms != s.terms;
    } else if s.status == Active {
      assert Apply(env, s, DoUpdateActive(edit)).state.terms != s.terms;
    } else {
      forall a ensures Apply(env, s, a).state.terms == s.terms && Apply(env, s, a).state.parties == s.parties {
        Frame(env, s, a);
      }
    }
  }

  /** An edit goes through exactly in the status its call asks for, sets what it names and keeps the rest. */
  lemma EditsExactly(s: State, required: Status, e: TermsEdit)
    ensures UpdateTerms(s, required, e).outcome == Done <==> s.status == required
    ensures s.status == required ==>
      var after := UpdateTerms(s, required, e).state.terms;
      && (e.title.Some? ==> after.title == e.title.value)
      && (e.title.None? ==> after.title == s.terms.title)
      && (e.description.Some? ==> after.description == e.description.value)
      && (e.description.None? ==> after.description == s.terms.description)
      && (e.scenario.Some? ==> after.scenario == e.scenario.value)
      && (e.scenario.None? ==> after.scenario == s.terms.scenario)
      && (e.fieldData.Some? ==> after.fieldData == e.fieldData.value)
      && (e.fieldData.None? ==> after.fieldData == s.terms.fieldData)
  {
  }

  // ---- From a seal until the agreement is ACTIVE again ----

  ghost predicate Frozen(u: State, s: State) {
    && s.terms == u.terms && s.parties == u.parties
    && s.sealHash == u.sealHash && s.sealedAt == u.sealedAt
    && EvidenceGrows(u.evidence, s.evidence)
  }

  lemma SealedStepIsFrozen(env: Env, s: State, a: Action)
    requires SealHeld(s.status) && SealHeld(Apply(env, s, a).state.status)
    ensures Frozen(s, Apply(env, s, a).state)
  {
    hide SetParties, PatchParties, AddParty, UpdateTerms, GenerateUploadUrl, UploadEvidence, ConfirmUpload;
    hide VerifyIdentity, CreateLivenessSession, ProcessLivenessResult, ResolveManualReview, CleanupReference;
    hide ConfirmByPhone, VerifyOtp, RequestReopenOtp, ReissueConsent, RequestOtp, AllPartiesConsented, Judge, ValidNow;
    TermsLockedExactly(env, s);
    var s' := Apply(env, s, a).state;
    assert s'.terms == s.terms && s'.parties == s.parties;
    EvidenceStep(env, s, a);
  }

  ghost predicate SealsAt(env: Env, tr: Trace, k: nat)
    requires tr.Valid(env)
  {
    k < |tr.actions| && tr.actions[k].DoSeal? && tr.Committed(env, k)
  }

  /** The agreement has held its seal without a break since the seal at step k. */
  ghost predicate HeldSince(env: Env, tr: Trace, k: nat, n: nat)
    requires tr.Valid(env)
  {
    && SealsAt(env, tr, k) && k < n < |tr.states|
    && forall j :: k < j <= n ==> SealHeld(tr.states[j].status)
  }

  lemma FrozenTransitive(u: State, m: State, s: State)
    requires Frozen(u, m) && Frozen(m, s)
    ensures Frozen(u, s)
  {
  }

  lemma JustSealed(env: Env, s: State, a: Action)
    requires a.DoSeal? && Apply(env, s, a).outcome == Done
    ensures Apply(env, s, a).state ==
      s.(status := Sealed, sealedAt := Some(s.now), sealHash := env.digest(PayloadNow(env, s)))
  {
    assert Apply(env, s, a) == Seal(env, s, a.planAllows);
  }

  lemma SealApplied(env: Env, s: State, a: Action)
    requires a.DoSeal?
    ensures Apply(env, s, a) == Seal(env, s, a.planAllows)
  {
  }

  lemma SealAt(env: Env, tr: Trace, k: nat)
    requires tr.Valid(env) && SealsAt(env, tr, k)
    ensures tr.states[k + 1] == tr.states[k].(
      status := Sealed, sealedAt := Some(tr.states[k].now), sealHash := env.digest(PayloadNow(env, tr.states[k])))
  {
    assert tr.Follows(env, k);
    JustSealed(env, tr.states[k], tr.actions[k]);
  }

  lemma FrozenStepAt(env: Env, tr: Trace, i: nat)
    requires tr.Valid(env) && i < |tr.actions|
    requires SealHeld(tr.states[i].status) && SealHeld(tr.states[i + 1].status)
    ensures Frozen(tr.states[i], tr.states[i + 1])
  {
    assert tr.Follows(env, i);
    SealedStepIsFrozen(env, tr.states[i], tr.actions[i]);
  }

  lemma {:induction false} FrozenWhileHeld(env: Env, tr: Trace, i: nat, n: nat)
    requires tr.Valid(env) && i <= n < |tr.states|
    requires forall j :: i <= j <= n ==> SealHeld(tr.states[j].status)
    ensures Frozen(tr.states[i], tr.states[n])
  {
    if i < n {
      FrozenWhileHeld(env, tr, i, n - 1);
      FrozenStepAt(env, tr, n - 1);
      FrozenTransitive(tr.states[i], tr.states[n - 1], tr.states[n]);
    }
  }

  /** While the seal is held the terms, the parties and the hashed evidence are those that were
      sealed, and the stored hash and time are those of that seal. */
  lemma FrozenSinceSeal(env: Env, tr: Trace, k: nat, n: nat)
    requires tr.Valid(env) && HeldSince(env, tr, k, n)
    ensures Frozen(tr.states[k + 1], tr.states[n])
    ensures tr.states[n].sealHash == env.digest(PayloadNow(env, tr.states[k + 1]))
    ensures tr.states[n].sealedAt == Some(tr.states[k].now)
  {
    SealAt(env, tr, k);
    FrozenWhileHeld(env, tr, k + 1, n);
  }

  /** An agreement that holds a seal got it from a seal step it has kept ever since. */
  lemma {:induction false} SealOf(env: Env, tr: Trace, n: nat) returns (k: nat)
    requires tr.Valid(env) && n < |tr.states| && SealHeld(tr.states[n].status)
    ensures HeldSince(env, tr, k, n)
  {
    if SealHeld(tr.states[n - 1].status) {
      k := SealOf(env, tr, n - 1);
    } else {
      OnlySealSealsAt(env, tr, n - 1);
      k := n - 1;
    }
  }

  lemma OnlySealSealsAt(env: Env, tr: Trace, i: nat)
    requires tr.Valid(env) && i < |tr.actions|
    requires !SealHeld(tr.states[i].status) && SealHeld(tr.states[i + 1].status)
    ensures SealsAt(env, tr, i)
  {
    assert tr.Follows(env, i);
    OnlySealSeals(env, tr.states[i], tr.actions[i]);
  }

  lemma OnlySealSeals(env: Env, s: State, a: Action)
    requires !SealHeld(s.status) && SealHeld(Apply(env, s, a).state.status)
    ensures a.DoSeal? && Apply(env, s, a).outcome == Done
  {
    hide SetParties, PatchParties, AddParty, UpdateTerms, GenerateUploadUrl, UploadEvidence, ConfirmUpload;
    hide VerifyIdentity, CreateLivenessSession, ProcessLivenessResult, ResolveManualReview, CleanupReference;
    hide ConfirmByPhone, ConfirmReopenByPhone, VerifyOtp, RequestReopenOtp;
    hide ReissueConsent, IssueCodes, AllPartiesConsented;
  }

  // ---- Recomputing the hash ----

  /** No row is confirmed in b that was not confirmed in a. */
  ghost predicate SameConfirmed(a: seq<Evidence>, b: seq<Evidence>) {
    forall i :: 0 <= i < |b| && b[i].confirmed ==> i < |a| && a[i].confirmed
  }

  lemma ConfirmedLast(items: seq<Evidence>)
    requires items != []
    ensures var l := |items| - 1;
      ConfirmedRows(items) == ConfirmedRows(items[..l])
        + if items[l].confirmed then [EvidenceRow(items[l].kind, items[l].fileHash, items[l].fileKey)] else []
  {
  }

  lemma {:induction false} ConfirmedRowsGrow(a: seq<Evidence>, b: seq<Evidence>)
    requires EvidenceGrows(a, b)
    ensures multiset(ConfirmedRows(a)) <= multiset(ConfirmedRows(b))
    ensures |ConfirmedRows(a)| <= |ConfirmedRows(b)|
    decreases |b|
  {
    if b != [] {
      ConfirmedLast(b);
      if |a| < |b| {
        ConfirmedRowsGrow(a, b[..|b| - 1]);
      } else {
        ConfirmedLast(a);
        ConfirmedRowsGrow(a[..|b| - 1], b[..|b| - 1]);
      }
    }
  }

  lemma {:induction false} ConfirmedRowsSame(a: seq<Evidence>, b: seq<Evidence>)
    requires EvidenceGrows(a, b) && SameConfirmed(a, b)
    ensures ConfirmedRows(a) == ConfirmedRows(b)
    decreases |b|
  {
    if b != [] {
      ConfirmedLast(b);
      if |a| < |b| {
        ConfirmedRowsSame(a, b[..|b| - 1]);
      } else {
        ConfirmedLast(a);
        ConfirmedRowsSame(a[..|b| - 1], b[..|b| - 1]);
      }
    }
  }

  lemma {:induction false} ConfirmedRowsMore(a: seq<Evidence>, b: seq<Evidence>, i: nat)
    requires EvidenceGrows(a, b)
    requires i < |b| && b[i].confirmed && !(i < |a| && a[i].confirmed)
    ensures |ConfirmedRows(a)| < |ConfirmedRows(b)|
    decreases |b|
  {
    var l := |b| - 1;
    ConfirmedLast(b);
    var a' := if |a| < |b| then a else a[..l];
    if |a| == |b| {
      ConfirmedLast(a);
    }
    if i == l {
      ConfirmedRowsGrow(a', b[..l]);
    } else {
      ConfirmedRowsMore(a', b[..l], i);
    }
  }

  lemma OrdersAreTotal()
    ensures Total(ByRole) && Transitive(ByRole)
    ensures Total(ByKindAndKey) && Transitive(ByKindAndKey)
  {
    forall x: PartyRow, y: PartyRow ensures ByRole(x, y) || ByRole(y, x) {
      TextLeqTotal(x.role, y.role);
    }
    forall x: PartyRow, y: PartyRow, z: PartyRow | ByRole(x, y) && ByRole(y, z) ensures ByRole(x, z) {
      TextLeqTransitive(x.role, y.role, z.role);
    }
    forall x: EvidenceRow, y: EvidenceRow ensures ByKindAndKey(x, y) || ByKindAndKey(y, x) {
      TextLeqTotal(x.kind, y.kind);
      TextLeqTotal(x.fileKey, y.fileKey);
    }
    forall x: EvidenceRow, y: EvidenceRow, z: EvidenceRow | ByKindAndKey(x, y) && ByKindAndKey(y, z)
      ensures ByKindAndKey(x, z)
    {
      TextLeqTransitive(x.kind, y.kind, z.kind);
      TextLeqTotal(x.kind, y.kind);
      if x.kind == z.kind {
        TextLeqTransitive(x.fileKey, y.fileKey, z.fileKey);
      }
    }
  }

  /** Confirmed rows with the same type and file key are the same row. */
  ghost predicate DistinctFiles(rows: seq<EvidenceRow>) {
    forall x, y :: x in rows && y in rows && x.kind == y.kind && x.fileKey == y.fileKey ==> x == y
  }

  /** The payload is the same whatever order the database returns the rows in. */
  lemma PayloadIgnoresStorage(
    env: Env, terms: Terms, ps: seq<Party>, ps': seq<Party>, es: seq<Evidence>, es': seq<Evidence>)
    requires multiset(ps) == multiset(ps') && multiset(es) == multiset(es')
    requires forall i, j :: 0 <= i < j < |ps| ==> ps[i].role != ps[j].role
    requires DistinctFiles(ConfirmedRows(es))
    ensures PayloadOf(env, terms, ps, es) == PayloadOf(env, terms, ps', es')
  {
    OrdersAreTotal();
    RowsOfPermutation(ps, ps');
    ConfirmedOfPermutation(es, es');
    var rows, files := PartyRows(ps), ConfirmedRows(es);
    forall x, y | x in multiset(rows) && y in multiset(rows) && ByRole(x, y) && ByRole(y, x) ensures x == y {
      TextLeqTotal(x.role, y.role);
      var i :| 0 <= i < |rows| && rows[i] == x;
      var j :| 0 <= j < |rows| && rows[j] == y;
    }
    forall x, y | x in multiset(files) && y in multiset(files) && ByKindAndKey(x, y) && ByKindAndKey(y, x)
      ensures x == y
    {
      TextLeqTotal(x.kind, y.kind);
      TextLeqTotal(x.fileKey, y.fileKey);
      assert x in files && y in files;
    }
    OrderByIgnoresStorage(rows, PartyRows(ps'), ByRole);
    OrderByIgnoresStorage(files, ConfirmedRows(es'), ByKindAndKey);
  }

  lemma Without<T>(rows: seq<T>, j: nat)
    requires j < |rows|
    ensures multiset(rows[..j] + rows[j + 1..]) == multiset(rows) - multiset{rows[j]}
  {
    assert rows == rows[..j] + [rows[j]] + rows[j + 1..];
  }

  lemma PartyRowsConcat(a: seq<Party>, b: seq<Party>)
    ensures PartyRows(a + b) == PartyRows(a) + PartyRows(b)
  {
  }

  ghost function RowBag(parties: seq<Party>): multiset<PartyRow> {
    multiset(PartyRows(parties))
  }

  lemma RowsWithout(parties: seq<Party>, j: nat)
    requires j < |parties|
    ensures RowBag(parties) == RowBag(parties[..j] + parties[j + 1..]) + RowBag([parties[j]])
  {
    var front, one, back := parties[..j], [parties[j]], parties[j + 1..];
    assert parties == front + (one + back);
    PartyRowsConcat(front, one + back);
    PartyRowsConcat(one, back);
    PartyRowsConcat(front, back);
  }

  lemma {:induction false} RowsOfPermutation(a: seq<Party>, b: seq<Party>)
    requires multiset(a) == multiset(b)
    ensures RowBag(a) == RowBag(b)
  {
    hide RowBag;
    if a == [] {
      assert |b| == |multiset(b)|;
    } else {
      var j := FoundIn(a, b);
      RestPermutes(a, b, j);
      RowsOfPermutation(a[1..], b[..j] + b[j + 1..]);
      RowsWithout(b, j);
      RowsWithout(a, 0);
      assert a[..0] + a[1..] == a[1..];
    }
  }

  lemma {:induction false} ConfirmedConcat(a: seq<Evidence>, b: seq<Evidence>)
    ensures ConfirmedRows(a + b) == ConfirmedRows(a) + ConfirmedRows(b)
  {
    if b == [] {
      assert a + b == a;
    } else {
      assert (a + b)[..|a + b| - 1] == a + b[..|b| - 1];
      ConfirmedConcat(a, b[..|b| - 1]);
    }
  }

  lemma ConfirmedWithout(items: seq<Evidence>, j: nat)
    requires j < |items|
    ensures multiset(ConfirmedRows(items)) ==
      multiset(ConfirmedRows(items[..j] + items[j + 1..])) + multiset(ConfirmedRows([items[j]]))
  {
    hide ConfirmedRows;
    var front, one, back := items[..j], [items[j]], items[j + 1..];
    assert items == front + (one + back);
    ConfirmedConcat(front, one + back);
    ConfirmedConcat(one, back);
    ConfirmedConcat(front, back);
  }

  lemma RestPermutes<T>(a: seq<T>, b: seq<T>, j: nat)
    requires multiset(a) == multiset(b) && a != [] && j < |b| && b[j] == a[0]
    ensures multiset(a[1..]) == multiset(b[..j] + b[j + 1..])
  {
    Without(a, 0);
    Without(b, j);
    assert a[..0] + a[1..] == a[1..];
  }

  lemma FoundIn<T>(a: seq<T>, b: seq<T>) returns (j: nat)
    requires multiset(a) == multiset(b) && a != []
    ensures j < |b| && b[j] == a[0]
  {
    assert a[0] in multiset(b);
    j :| 0 <= j < |b| && b[j] == a[0];
  }

  lemma {:induction false} ConfirmedOfPermutation(a: seq<Evidence>, b: seq<Evidence>)
    requires multiset(a) == multiset(b)
    ensures multiset(ConfirmedRows(a)) == multiset(ConfirmedRows(b))
  {
    hide ConfirmedRows;
    if a == [] {
      assert |b| == |multiset(b)|;
    } else {
      var j := FoundIn(a, b);
      RestPermutes(a, b, j);
      ConfirmedOfPermutation(a[1..], b[..j] + b[j + 1..]);
      ConfirmedWithout(b, j);
      ConfirmedWithout(a, 0);
      assert a[..0] + a[1..] == a[1..];
    }
  }

  // ---- The recomputed payload, exactly ----

  /** The call is one that confirms an upload. */
  ghost predicate ConfirmsUpload(env: Env, s: State, a: Action) {
    && Apply(env, s, a).outcome == Done
    && (a.DoUploadEvidence? || (a.DoConfirmUpload? && Awaiting(s.evidence, a.confirmation) != {}))
  }

  lemma UploadStep(env: Env, s: State, a: Action)
    ensures SameConfirmed(s.evidence, Apply(env, s, a).state.evidence) <==> !ConfirmsUpload(env, s, a)
  {
    Frame(env, s, a);
    var s' := Apply(env, s, a).state;
    if a.DoConfirmUpload? {
      ConfirmStep(env, s, a.confirmation);
    } else if a.DoUploadEvidence? && ConfirmsUpload(env, s, a) {
      assert s'.evidence[|s.evidence|].confirmed;
    }
  }

  lemma ConfirmStep(env: Env, s: State, c: Confirmation)
    ensures var r := ConfirmUpload(env, s, c);
      SameConfirmed(s.evidence, r.state.evidence) <==> !(r.outcome == Done && Awaiting(s.evidence, c) != {})
  {
    var r := ConfirmUpload(env, s, c);
    var matches := Awaiting(s.evidence, c);
    if r.outcome == Done && matches != {} {
      var i :| i in matches && r.state.evidence == s.evidence[i := s.evidence[i].(confirmed := true)];
      assert r.state.evidence[i].confirmed && !s.evidence[i].confirmed;
    }
  }

  ghost predicate ConfirmsUploadAt(env: Env, tr: Trace, i: nat)
    requires tr.Valid(env) && i < |tr.actions|
  {
    ConfirmsUpload(env, tr.states[i], tr.actions[i])
  }

  lemma EvidenceStepAt(env: Env, tr: Trace, i: nat)
    requires tr.Valid(env) && i < |tr.actions|
    ensures EvidenceGrows(tr.states[i].evidence, tr.states[i + 1].evidence)
    ensures SameConfirmed(tr.states[i].evidence, tr.states[i + 1].evidence) <==> !ConfirmsUploadAt(env, tr, i)
  {
    assert tr.Follows(env, i);
    EvidenceStep(env, tr.states[i], tr.actions[i]);
    UploadStep(env, tr.states[i], tr.actions[i]);
  }

  lemma GrowsAndSame(a: seq<Evidence>, b: seq<Evidence>, c: seq<Evidence>)
    requires EvidenceGrows(a, b) && EvidenceGrows(b, c)
    ensures EvidenceGrows(a, c)
    ensures SameConfirmed(a, c) <==> SameConfirmed(a, b) && SameConfirmed(b, c)
  {
    if SameConfirmed(a, c) {
      forall i | 0 <= i < |b| && b[i].confirmed ensures i < |a| && a[i].confirmed {
        assert c[i].confirmed;
      }
      forall i | 0 <= i < |c| && c[i].confirmed ensures i < |b| && b[i].confirmed {
        assert i < |a| && a[i].confirmed;
        assert b[i].confirmed;
      }
    }
  }

  lemma SameEvidence(a: seq<Evidence>)
    ensures EvidenceGrows(a, a) && SameConfirmed(a, a)
  {
  }

  lemma {:induction false} EvidenceSince(env: Env, tr: Trace, i: nat, n: nat)
    requires tr.Valid(env) && i <= n < |tr.states|
    ensures EvidenceGrows(tr.states[i].evidence, tr.states[n].evidence)
    ensures SameConfirmed(tr.states[i].evidence, tr.states[n].evidence) <==>
      forall j: nat :: i <= j < n ==> !ConfirmsUploadAt(env, tr, j)
  {
    hide Apply, EvidenceGrows, SameConfirmed, ConfirmsUploadAt;
    if i == n {
      SameEvidence(tr.states[i].evidence);
    } else {
      EvidenceSince(env, tr, i, n - 1);
      EvidenceStepAt(env, tr, n - 1);
      GrowsAndSame(tr.states[i].evidence, tr.states[n - 1].evidence, tr.states[n].evidence);
    }
  }

  /** No upload was confirmed at a step from i up to n. */
  ghost predicate NoUploadBetween(env: Env, tr: Trace, i: nat, n: nat)
    requires tr.Valid(env) && n < |tr.states|
  {
    forall j: nat :: i <= j < n ==> !ConfirmsUploadAt(env, tr, j)
  }

  /** Recomputing the payload of a sealed agreement, from its rows in any order, gives what was
      hashed exactly when no upload was confirmed since the seal; then the hash comes out again. */
  lemma RecomputedExactly(env: Env, tr: Trace, k: nat, n: nat, ps: seq<Party>, es: seq<Evidence>)
    requires tr.Valid(env) && HeldSince(env, tr, k, n)
    requires multiset(ps) == multiset(tr.states[n].parties)
    requires multiset(es) == multiset(tr.states[n].evidence)
    requires DistinctFiles(ConfirmedRows(tr.states[n].evidence))
    ensures PayloadOf(env, tr.states[n].terms, ps, es) == PayloadNow(env, tr.states[k + 1])
      <==> NoUploadBetween(env, tr, k + 1, n)
    ensures NoUploadBetween(env, tr, k + 1, n) ==>
      env.digest(PayloadOf(env, tr.states[n].terms, ps, es)) == tr.states[n].sealHash
  {
    hide Apply, NoUploadBetween, PayloadOf, DistinctFiles, Frozen, SealHeld, ConfirmedRows;
    assert k < n < |tr.states|;
    FrozenSinceSeal(env, tr, k, n);
    SealHoldsTerms(tr.states[k + 1], tr.states[n]);
    RecomputedBetween(env, tr, k + 1, n, ps, es);
  }

  lemma SealHoldsTerms(u: State, s: State)
    requires Frozen(u, s)
    ensures s.terms == u.terms
  {
  }

  lemma RecomputedBetween(env: Env, tr: Trace, i: nat, n: nat, ps: seq<Party>, es: seq<Evidence>)
    requires tr.Valid(env) && i <= n < |tr.states| && Frozen(tr.states[i], tr.states[n])
    requires multiset(ps) == multiset(tr.states[n].parties)
    requires multiset(es) == multiset(tr.states[n].evidence)
    requires DistinctFiles(ConfirmedRows(tr.states[n].evidence))
    ensures PayloadOf(env, tr.states[n].terms, ps, es) == PayloadNow(env, tr.states[i])
      <==> NoUploadBetween(env, tr, i, n)
  {
    RolesDistinctAt(env, tr, n);
    EvidenceSince(env, tr, i, n);
    RecomputedFrom(env, tr.states[i], tr.states[n], ps, es);
  }

  lemma RolesDistinctAt(env: Env, tr: Trace, n: nat)
    requires tr.Valid(env) && n < |tr.states|
    ensures var ps := tr.states[n].parties; forall i, j :: 0 <= i < j < |ps| ==> ps[i].role != ps[j].role
  {
    AlwaysSound(env, tr, n);
  }

  lemma RecomputedFrom(env: Env, u: State, s: State, ps: seq<Party>, es: seq<Evidence>)
    requires Frozen(u, s)
    requires multiset(ps) == multiset(s.parties) && multiset(es) == multiset(s.evidence)
    requires forall i, j :: 0 <= i < j < |s.parties| ==> s.parties[i].role != s.parties[j].role
    requires DistinctFiles(ConfirmedRows(s.evidence))
    ensures PayloadOf(env, s.terms, ps, es) == PayloadNow(env, u) <==> SameConfirmed(u.evidence, s.evidence)
  {
    PayloadIgnoresStorage(env, s.terms, s.parties, ps, s.evidence, es);
    PayloadTellsConfirmed(env, u, s);
  }

  lemma PayloadTellsConfirmed(env: Env, u: State, s: State)
    requires Frozen(u, s)
    ensures PayloadNow(env, s) == PayloadNow(env, u) <==> SameConfirmed(u.evidence, s.evidence)
  {
    OrdersAreTotal();
    var a, b := ConfirmedRows(u.evidence), ConfirmedRows(s.evidence);
    if SameConfirmed(u.evidence, s.evidence) {
      ConfirmedRowsSame(u.evidence, s.evidence);
    } else {
      var i: nat :| i < |s.evidence| && s.evidence[i].confirmed && !(i < |u.evidence| && u.evidence[i].confirmed);
      ConfirmedRowsMore(u.evidence, s.evidence, i);
      OrderBySorts(a, ByKindAndKey);
      OrderBySorts(b, ByKindAndKey);
      assert |OrderBy(a, ByKindAndKey)| == |multiset(OrderBy(a, ByKindAndKey))| == |a|;
      assert |OrderBy(b, ByKindAndKey)| == |multiset(OrderBy(b, ByKindAndKey))| == |b|;
    }
  }
}
