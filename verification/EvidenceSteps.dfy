/** evidence/services.py as state changes: upload slots, confirmations and the resets they cause. */
module EvidenceSteps {
  import opened Wrappers
  import opened Text
  import opened Lifecycle
  import opened Rows
  import opened PartyIdentity
  import opened IdentitySteps

  const MAX_FILE_SIZE := 50 * 1024 * 1024
  const IMAGE_TYPES := {"image/jpeg", "image/png"}
  const UPLOAD_TYPES := {"image/jpeg", "image/png", "audio/wav", "audio/ogg", "audio/mpeg", "application/pdf"}

  predicate IsKindChar(c: char) {
    'a' <= c <= 'z' || '0' <= c <= '9' || c == '_'
  }

  predicate IsKindName(s: string) {
    2 <= |s| <= 127 && 'a' <= s[0] <= 'z' && forall c <- s :: IsKindChar(c)
  }

  /** ^[a-z][a-z0-9_]{1,126}$ under `match`, whose `$` also accepts one final newline. */
  predicate IsKind(s: string) {
    IsKindName(s) || (s != "" && s[|s| - 1] == '\n' && IsKindName(s[..|s| - 1]))
  }

  predicate IsIdentityEvidence(kind: string) {
    EndsWith(kind, "_ghana_card_front") || EndsWith(kind, "_ghana_card_back") || EndsWith(kind, "_selfie")
  }

  /** validate_identity_evidence_type */
  predicate RoleFits(parties: seq<Party>, kind: string) {
    ParseEvidenceType(kind).Some? ==> ParseEvidenceType(kind).value.0 in PartyRoles(parties)
  }

  datatype UploadRequest = UploadRequest(
    kind: string, mime: string, size: int, checksum: string, fileKey: string, storageUp: bool)

  /** generate_upload_url; the file key carries a random suffix and is an input. */
  ghost function GenerateUploadUrl(s: State, r: UploadRequest): (reply: Reply)
    ensures reply.state == s.(evidence := reply.state.evidence, nextPk := reply.state.nextPk)
    ensures reply.outcome.Rejected? ==> reply.state == s
  {
    if !IsKind(r.kind) || r.mime !in UPLOAD_TYPES || !(0 < r.size <= MAX_FILE_SIZE) then Reject(s, BadEvidence)
    else if s.status !in {Draft, PendingConsent, Active} then Reject(s, WrongStatus)
    else if !RoleFits(s.parties, r.kind) then Reject(s, RoleMismatch)
    else if IsIdentityEvidence(r.kind) && r.mime !in IMAGE_TYPES then Reject(s, BadEvidence)
    else if !r.storageUp then Reject(s, StorageUnavailable)
    else
      var item := Evidence(s.nextPk, r.kind, r.mime, r.size, r.fileKey, r.checksum, false);
      Reply(s.(evidence := s.evidence + [item], nextPk := s.nextPk + 1), Done)
  }

  /** The older path that streams a file through the backend stores a confirmed, untyped item. */
  ghost function UploadEvidence(s: State, party: nat, fileHash: string, fileValid: bool): (reply: Reply)
    ensures reply.state == s.(evidence := reply.state.evidence, nextPk := reply.state.nextPk)
    ensures reply.outcome.Rejected? ==> reply.state == s
  {
    if !fileValid then Reject(s, BadEvidence)
    else if PartyAt(s.parties, party).None? then Reject(s, NoSuchParty)
    else
      var item := Evidence(s.nextPk, "", "", 0, "", fileHash, true);
      Reply(s.(evidence := s.evidence + [item], nextPk := s.nextPk + 1), Done)
  }

  /** What object storage reports about the uploaded file. */
  datatype Stored = Unreachable | Object(size: int, mime: string, checksum: string)

  datatype Confirmation = Confirmation(
    fileKey: string, kind: string, mime: string, checksum: string, evidencePk: Option<nat>, stored: Stored)

  predicate Awaits(e: Evidence, c: Confirmation) {
    !e.confirmed && if c.evidencePk.Some? then e.pk == c.evidencePk.value else e.fileKey == c.fileKey
  }

  function Awaiting(items: seq<Evidence>, c: Confirmation): set<nat> {
    set i | 0 <= i < |items| && Awaits(items[i], c)
  }

  predicate AlreadyConfirmed(items: seq<Evidence>, c: Confirmation) {
    exists e <- items :: e.confirmed && e.fileKey == c.fileKey && e.kind == c.kind
      && e.mime == c.mime && e.fileHash == c.checksum
  }

  predicate MatchesRequest(e: Evidence, c: Confirmation) {
    e.fileKey == c.fileKey && e.kind == c.kind && e.mime == c.mime && e.fileHash == c.checksum
  }

  predicate MatchesStored(e: Evidence, o: Stored)
    requires o.Object?
  {
    && o.size == e.size
    && (o.mime != "" ==> o.mime == e.mime)
    && (o.checksum != "" ==> o.checksum == e.fileHash)
  }

  /** evidence_type.split("_", 1)[0] */
  function RolePrefix(kind: string): string {
    if kind == "" || kind[0] == '_' then "" else [kind[0]] + RolePrefix(kind[1..])
  }

  /** _maybe_queue_verification_after_upload */
  function AfterUpload(t: Alphabet, items: seq<Evidence>, checks: map<nat, Verification>, p: Party)
    : map<nat, Verification>
  {
    if p.pk in checks && checks[p.pk].status == Verified then checks else
    var live := p.pk in checks && checks[p.pk].livenessStatus == "passed" && checks[p.pk].referenceKey != "";
    if CardsReady(items, p.role) && (live || SlotConfirmed(items, p.role + "_selfie"))
    then WithReset(t, checks, p) else checks
  }

  /** confirm_upload */
  ghost function ConfirmUpload(env: Env, s: State, c: Confirmation): (reply: Reply)
    ensures reply.state == s.(evidence := reply.state.evidence, verifications := reply.state.verifications)
    ensures reply.outcome.Rejected? ==> reply.state == s
  {
    var matches := Awaiting(s.evidence, c);
    if |matches| > 1 then Reject(s, MultipleRows)
    else if matches == {} then
      if AlreadyConfirmed(s.evidence, c) then Reply(s, Done) else Reject(s, NotPending)
    else
      var i :| i in matches;
      var item := s.evidence[i];
      if !RoleFits(s.parties, c.kind) then Reject(s, RoleMismatch)
      else if !MatchesRequest(item, c) then Reject(s, UploadMismatch)
      else if c.stored.Unreachable? then Reject(s, StorageUnavailable)
      else if !MatchesStored(item, c.stored) then Reject(s, UploadMismatch)
      else
        var items := s.evidence[i := item.(confirmed := true)];
        var owner := PartySlot(s.parties, RolePrefix(c.kind));
        var checks := if IsIdentityEvidence(c.kind) && owner.Some?
          then AfterUpload(env.text, items, s.verifications, owner.value) else s.verifications;
        Reply(s.(evidence := items, verifications := checks), Done)
  }

  /** agreement.parties.filter(role=role).first() */
  function PartySlot(parties: seq<Party>, role: string): (r: Option<Party>)
    ensures r.Some? ==> r.value in parties && r.value.role == role
    ensures r.None? ==> role !in PartyRoles(parties)
  {
    if parties == [] then None
    else if parties[0].role == role then Some(parties[0])
    else PartySlot(parties[1..], role)
  }
}
