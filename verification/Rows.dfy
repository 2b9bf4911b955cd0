/** The rows the agreement protocol reads and writes: one agreement with its parties, evidence,
    consent records, identity verifications, revisions and the cached attempt counters. */
module Rows {
  import opened Wrappers
  import opened Text
  import opened Lifecycle

  datatype Terms = Terms(title: string, description: string, scenario: string, fieldData: string)

  datatype Party = Party(
    pk: nat, role: string, displayName: string, phone: string, idType: string, idNumber: string)

  datatype Evidence = Evidence(
    pk: nat, kind: string, mime: string, size: int, fileKey: string, fileHash: string, confirmed: bool)

  datatype Purpose = ForConsent | ForReopen

  datatype Record = Record(
    party: nat, purpose: Purpose, otpHash: string, granted: bool, grantedAt: Option<int>,
    createdAt: int, expiresAt: int)

  datatype CheckStatus = Pending | Processing | Verified | Failed | ManualReview

  datatype Verification = Verification(
    status: CheckStatus, enteredPin: string, enteredName: string, ocrPin: string,
    frontId: Option<nat>, backId: Option<nat>, selfieId: Option<nat>,
    codes: seq<string>, verifiedAt: Option<int>,
    livenessSession: string, livenessStatus: string,
    referenceKey: string, referenceDeleteAt: Option<int>)

  /** A cache entry: its value and the time it lapses. */
  datatype Counter = Counter(value: nat, deadline: int)

  // What _compute_seal_hash and _build_snapshot read.
  datatype PartyRow = PartyRow(role: string, displayName: string, idType: string, idNumber: string, phone: string)
  datatype EvidenceRow = EvidenceRow(kind: string, fileHash: string, fileKey: string)
  datatype Payload = Payload(
    agreementId: nat, title: string, description: string, scenario: string,
    parties: seq<PartyRow>, evidence: seq<EvidenceRow>)
  datatype Snapshot = Snapshot(payload: Payload, fieldData: string)

  datatype Revision = Revision(number: nat, sealHash: string, sealedAt: int, snapshot: Snapshot)

  type HexDigest = s: string | s != "" witness "0"

  /** What the deployment fixes: text tables, the agreement's key, SHA-256 over the canonical JSON,
      the hash of a one-time code, and the liveness settings. */
  datatype Env = Env(
    text: Alphabet,
    agreementId: nat,
    digest: Payload -> HexDigest,
    otpHash: string -> string,
    livenessPass: real,
    livenessReview: real,
    retention: nat)

  datatype State = State(
    now: int,                              // seconds
    nextPk: nat,                           // next primary key the database hands out
    status: Status,
    terms: Terms,
    sealedAt: Option<int>,
    sealHash: string,
    closedAt: Option<int>,
    parties: seq<Party>,
    evidence: seq<Evidence>,
    records: map<nat, Record>,             // consent records by key
    verifications: map<nat, Verification>, // by party key
    revisions: seq<Revision>,
    consentTries: map<nat, Counter>,       // cache keys otp_attempts:<record>
    reopenTries: map<nat, Counter>)        // cache keys reopen_otp_attempts:<record>

  datatype Reason =
    | WrongStatus | TooFewParties | DuplicateRole | NoSuchRole | NoSuchParty | NoSuchIdentity
    | MissingPhone | DuplicatePhone | InitiatorNotParty
    | MissingIdentity | BadIdentity | DuplicatePin
    | BadEvidence | RoleMismatch | StorageUnavailable | NotPending | UploadMismatch
    | AlreadyConsented | InvalidCode | BadCode(record: nat) | LockedOut(record: nat)
    | Undone(record: nat) | MultipleRows | IllegalTransition | IntegrityError
    | PlanCap | NotSealable | NotValid | ReopenWindowOver
    | NoLivenessSession | LivenessCooldown | ServiceUnavailable | NotReviewable

  /** A service call either commits or raises. */
  datatype Outcome = Done | Rejected(reason: Reason)

  datatype Reply = Reply(state: State, outcome: Outcome)

  function Reject(s: State, reason: Reason): Reply {
    Reply(s, Rejected(reason))
  }

  function PartyPks(parties: seq<Party>): set<nat> {
    set p | p in parties :: p.pk
  }

  function PartyRoles(parties: seq<Party>): set<string> {
    set p | p in parties :: p.role
  }
}
