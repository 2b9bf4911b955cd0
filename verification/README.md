# Kotoku agreement backend: a verified model

Kotoku lets two parties of a deal draw up an agreement, show who they are, consent by one-time codes
sent to their phones, seal the agreement under a hash, and reopen it only together. This project models
the Django backend behind that in Dafny and proves what its service methods keep, over every run.

- **The protocol.** One agreement with its parties, evidence, consent records, identity checks,
  revisions and cached attempt counters is a `State` (`Rows`). Every service method is a function from
  a state to a reply (`SealSteps`, `ConsentSteps`, `PartySteps`, `EvidenceSteps`, `IdentitySteps`), and
  `Protocol` makes them the steps of a state machine whose runs are `Trace`s. A method under
  `transaction.atomic` is one step that commits or leaves the rows as they were; what it wrote to the
  cache stays. The same methods are written again in the form the source has, on the mutable table
  object `AgreementDb.Db` with loops, early exits and undone writes, and proved equal to those functions
  (`AgreementService`, `ConsentService`, `ConsentSelectors`, `PartyService`, `EvidenceService`,
  `IdentityService`, `Validators`, `PartyIdentity`).
- **Theorems about runs.** `Integrity` (keys and cascades), `StandingTheorems`, `SealTheorems`,
  `ReopenTheorems`, `RequestTheorems` (what completing a reopen request rests on), `ReturnTheorems`
  (closing, cancelling and the older calls), `ConsentTheorems`, `RoundTheorems`, `CoverageTheorems`,
  `AttemptTheorems`, `UploadTheorems`, `PartyTheorems`, `IdentityTheorems`; `Runs` makes runs longer.
- **Exact conditions.** When each call goes through and what it changes, on the fields of the rows and
  apart from the step functions: `PayloadTheorems` (what the seal covers), `ValidityTheorems` (sealing),
  `CodeTheorems` (codes), `ReviewTheorems` (checks and reviews), and parts of `PartyTheorems`,
  `UploadTheorems`, `Sessions` and `LoginCodes`; in payments `ChargeTheorems`, `NoticeTheorems` and
  `CheckoutTheorems`.
- **Runs shown.** `SampleRun` builds one agreement call by call, from a draft with two parties, their
  cards, faces and three photos to consent and seal; `CounterRuns` continues it to the runs in which a
  promise fails.
- **Payments.** `Payments` has the books and every call on them, `PaymentTheorems` what delivering a
  charge again does, `EventTheorems` when an event's handler can run, `RecoveryTheorems` how far payments
  extend a period, `InvoiceTheorems` what the provider's notices add up to, `PaymentRuns` and `ChargeRuns` the
  runs in which a promise fails (built with `Histories`), `PaymentService` and `PaymentTasks` the methods in
  place, `Calendar` the month arithmetic.
- **Billing.** `Billing` has month windows, the sealing cap and the misuse check over what billing sees of
  agreements; in `Offices` an account's agreements each follow the protocol, and their runs are shown to
  be runs of `Billing`; `OfficeRuns` exceeds a cap.
- **Around it.** `Phones` (comparison keys and lookup values), `Sessions` and `LoginCodes` (logins,
  refresh tokens, rate limits), `Text`, `Ordering`.

Time is an integer of seconds that never decreases (days in payments and billing). Codes, file keys,
session identifiers, readings of cards and faces, storage and provider answers, the billing verdict at a
seal and the failure cool-down of face checks are inputs of the steps. SHA-256 over the canonical JSON
and the hash of a code are functions in `Env`; the character classes of `isdigit`, `\d`, `strip` and
`upper` are a parameter (`Text.CharTable`) restricted by the few facts the proofs use. "Phone flow" below
means every call except the older paths `add_party`, `AgreementService.request_consent`,
`ConsentService.request_consent`, `verify_otp` and `sync_consent`.

`dafny verify dfyconfig.toml` checks everything (Dafny 4.11).

## What turned out false, and exactly when it holds

- *An agreement is sealed only after every party consented* (Consent_hardening.md, line 13). A seal of the
  phone flow is covered by everyone's consent if and only if the terms and the parties are those the last
  round of codes was issued for (`CoverageTheorems.ConsentCoversExactly`). The title may change between
  the consent and the seal (`CoverageTheorems.EditedStillSeals`; a run that seals so in
  `CounterRuns.SealWithoutConsent`), and every first seal is given from ACTIVE, where it may
  (`RoundTheorems.FirstSealIsFromActive`).
- *Every reopen is confirmed by every party anew.* A reopen request of the phone flow is sure to be, however
  the run goes on, if and only if no party holds a reopen grant when it is made
  (`RequestTheorems.ConfirmedAnewExactly`). Grants outlive completed requests, so that one right code
  completes a later reopen (`ReopenTheorems.LaterReopenNeedsOneCode`, a run in `CounterRuns.OneCodeRun`),
  and cancelled ones, so that one party completes a first reopen (a run in
  `CounterRuns.CancelledRequestRun`). Which code completes a request: `ReopenTheorems.RightCodeCompletesExactly`.
- *Three wrong tries shut a code* holds for consent codes of the phone flow. For reopen codes a right
  code given outside REOPEN_REQUESTED is undone but clears the counter, so four wrong tries fit before the
  grant (`AttemptTheorems.ForgottenTriesReopen`, a run in `CounterRuns.ForgottenTriesRun`); it happens
  exactly when everyone else already holds a grant (`AttemptTheorems.ReopenUndoneExactly`), and without
  it three tries shut those codes too (`AttemptTheorems.ThreeMissesNeverGrant`).
- *The rows of a sealed agreement give back what was sealed.* The payload recomputed from them is the sealed
  one if and only if no upload was confirmed since, and then its hash is the stored one
  (`SealTheorems.RecomputedExactly`). An upload reserved before the seal can be confirmed after it (a run in
  `CounterRuns.LateUploadRun`).
- *Delivering a charge twice does what delivering it once does*, unless it fits a plan and an account but
  no checkout: then, and only then, each delivery makes a subscription (`PaymentTheorems.TwiceIsOnce`).
  A failed renewal between two deliveries of one recovery charge lets it extend the period again
  (`RecoveryTheorems.FailedRenewalAllowsAnother`, a run in `PaymentRuns.SecondMonthRun`); a second month
  always needs a step that undid the first (`RecoveryTheorems.SecondMonthNeedsUndoing`).
- *What is paid for is paid at its price.* Every subscription charge that buys anything is of exactly the
  price of the plan bought (`ChargeTheorems.PlanChargeExactly`, over runs `ChargeTheorems.SubWasPaid`). A
  recovery payment is compared with the plan its checkout was opened for, and extends whatever plan the
  subscription is on by then: the month costs what it should if and only if the two are the same
  (`ChargeTheorems.MonthPriceExactly`, a month of enterprise_plus for 79 cedis in
  `ChargeRuns.UnderpaidMonthRun`).
- *A check under manual review waits for the review.* It turns VERIFIED if and only if a face review is
  approved or its own card is read once more and passes (`ReviewTheorems.VerifiedInRun`, a run without any
  review in `CounterRuns.RereadRun`).
- *A webhook event is handled once.* `process_payment_event` reads the processed mark without a lock and
  sets it after the handler ran. After any run the handler of an event can run, for the first time or again,
  if and only if the event is not processed or some worker has read it and not run the handler yet
  (`EventTheorems.CanRunExactly`). So two workers that overlap run it twice (`EventTheorems.OverlapRunsTwice`,
  two subscriptions of one charge in `PaymentRuns.StrayRun`), and so does one worker after another if the
  first is lost before it marks the event (`PaymentRuns.LostWorkerRun`).
- *The monthly cap is never exceeded* holds while no reopen request is cancelled (`Billing.CapHolds`). In a
  run it is exceeded if and only if some cancelled request brings back a seal of its month with the cap
  used up (`Offices.CapExceededExactly`, a run of two agreements in `OfficeRuns.CapBrokenByCancel`).
- *An agreement without a seal has no seal hash.* It has one if and only if the older one-sided reopen was the
  last way it left a seal (`ReturnTheorems.LeftHashExactly`, a run in `CounterRuns.OneSidedRun`).

## Model

| member | source | states |
|---|---|---|
| SealTheorems.TermsLockedExactly | kotoku-backend/apps/agreements/services.py:149-184 | the terms and parties can be changed by some call exactly in DRAFT and ACTIVE |
| SealTheorems.EditsExactly | kotoku-backend/apps/agreements/services.py:149-205 | an edit goes through exactly in the status its call asks for, sets each field it names and keeps each it does not |
| SealTheorems.StatusStep | kotoku-backend/apps/agreements/domain/state_machine.py:6-35 | whatever service method runs, the status stays or follows one of ten edges |
| SealTheorems.DraftIsNeverReentered | kotoku-backend/apps/agreements/domain/state_machine.py:6-27 | no run comes back to DRAFT |
| SealTheorems.FrozenSinceSeal | kotoku-backend/apps/agreements/services.py:296-300 | from a seal until ACTIVE again the terms, parties, stored hash and seal time are those of that seal and the evidence it read is unchanged |
| SealTheorems.SealOf | kotoku-backend/apps/agreements/services.py:254-300 | an agreement holding a seal got it from one seal step and held it ever since |
| SealTheorems.PayloadIgnoresStorage | kotoku-backend/apps/agreements/services.py:31-56 | the hashed payload does not depend on the order in which rows are stored, given distinct type and file key pairs |
| SealTheorems.UploadStep | kotoku-backend/apps/evidence/services.py:312-481 | the set of confirmed evidence changes exactly by the calls that confirm an upload, in any status |
| SealTheorems.RecomputedExactly | kotoku-backend/apps/agreements/services.py:31-56 | recomputing from the rows in any order gives the sealed payload if and only if no upload was confirmed since, and then the stored hash |
| Ordering.OrderByIgnoresStorage | kotoku-backend/apps/agreements/services.py:37-46 | ORDER BY over distinct keys has one result for every storage order |
| PayloadTheorems.PayloadCoversExactly | kotoku-backend/apps/agreements/services.py:31-56 | two states give one payload if and only if title, description and scenario agree, the parties agree in role, name, card type, card number and phone, and the confirmed evidence in type, hash and file key |
| PayloadTheorems.PayloadNamesFields | kotoku-backend/apps/agreements/services.py:31-66 | every row of the payload, and of the snapshot, has each field from the party or item field of that name, and every party has its row |
| PayloadTheorems.PayloadInOrder | kotoku-backend/apps/agreements/services.py:37-46 | the parties stand in it by role, the evidence by type and file key, in the order of the first character that differs |
| ValidityTheorems.ValidExactly | kotoku-backend/apps/agreements/domain/validators.py:80-283 | validation reports nothing if and only if title and scenario are given, the scenario has its two roles and three or two photos, and each party but a witness has a valid card of its own, both its sides, a face and a passed check |
| ValidityTheorems.SealsExactly | kotoku-backend/apps/agreements/services.py:254-300 | sealing goes through if and only if the plan allows it, the agreement is active, or pending with each party's newest consent granted, some evidence is confirmed and those rules are met |
| ValidityTheorems.SealedWasSealable | kotoku-backend/apps/agreements/services.py:254-300 | in every run an agreement that holds a seal met those rules when it was sealed |
| StandingTheorems.AlwaysStanding | kotoku-backend/apps/agreements/services.py:254-300 | in every state: a seal time exactly in SEALED, REOPEN_REQUESTED and CLOSED; two parties outside DRAFT; and sealed agreements keep a hash, distinct valid card numbers, the scenario's roles, photos and evidence |
| ReopenTheorems.RevisionStep | kotoku-backend/apps/agreements/services.py:376-400 | a revision is written exactly when a reopen completes, with the next number, the seal's hash and time and the present snapshot, and every party then holds a grant |
| ReopenTheorems.RevisionsRememberSeals | kotoku-backend/apps/agreements/services.py:376-400 | revisions are numbered 1 to n, one per completed reopen, each with the hash and time of the seal it ended, a snapshot of the sealed fields and parties and all the sealed evidence |
| ReopenTheorems.ReopenNeedsEveryGrant | kotoku-backend/apps/agreements/domain/policies.py:52-67 | leaving REOPEN_REQUESTED for ACTIVE needs a reopen grant held by every current party |
| ReopenTheorems.RightCodeCompletesExactly | kotoku-backend/apps/consent/services.py:479-493 | a right code completes the reopen if and only if every other party holds a grant already |
| ReopenTheorems.GrantedReopenKept | kotoku-backend/apps/consent/services.py:413-417 | no call but replacing the parties deletes or changes a granted reopen record |
| RequestTheorems.ConfirmedAnewExactly | kotoku-backend/apps/consent/services.py:397-493 | a reopen request of the phone flow is completed with a confirmation by every party after it, in every continuation of the run, if and only if no party holds a reopen grant when it is made |
| RequestTheorems.AnewIfNobodyHeld | kotoku-backend/apps/consent/services.py:433-493 | in that case each party entered its code at a step between the request and its completion |
| RequestTheorems.CompletesWithout | kotoku-backend/apps/consent/services.py:397-493 | else the run goes on to a completion without a confirmation of the party that holds a grant |
| RequestTheorems.GrantIsEntered | kotoku-backend/apps/consent/services.py:433-493 | in the phone flow a party comes to hold a reopen grant only by a right code for its own record |
| CodeTheorems.ConsentRoundExactly | kotoku-backend/apps/consent/services.py:334-389 | consent codes are sent exactly before a seal, to two parties or more, unless everyone has consented; all earlier consent records go and each party has one new open record of its code for 600 seconds |
| CodeTheorems.ReopenRoundExactly | kotoku-backend/apps/consent/services.py:397-429 | reopen codes are sent exactly while a reopen is requested; only records without a grant go, and each party has a new one |
| CodeTheorems.ConsentCodeExactly | kotoku-backend/apps/consent/services.py:498-577 | a code grants the party's open record if and only if fewer than three misses count, it hashes to the record's hash and the record has not expired; else it counts as a miss for 900 seconds; with everyone's consent the pending agreement becomes active |
| CodeTheorems.ReopenCodeExactly | kotoku-backend/apps/consent/services.py:433-493 | so for reopen codes; the last grant reopens the agreement and keeps its seal in a revision, or is undone where no reopen is requested |
| CodeTheorems.KeyCodeExactly | kotoku-backend/apps/consent/services.py:266-330 | so for the older call by record key, which activates when no record at all, of either purpose, is open |
| CodeTheorems.JudgesNothing | kotoku-backend/apps/consent/services.py:109-114 | a phone of no party, or of one without an open record, is refused and counts as no miss |
| ConsentTheorems.ConsentRounds | kotoku-backend/apps/consent/services.py:334-389 | in every phone-flow state: ungranted consent records only in PENDING_CONSENT, there one record per party and, before the first revision, some ungranted; never two ungranted records of one purpose for a party |
| ConsentTheorems.ConfirmationsNeverBreak | kotoku-backend/apps/consent/services.py:498-577 | the record lookups never meet two rows and the all_consented transition never fails |
| ConsentTheorems.ConsentedMeansGranted | kotoku-backend/apps/consent/selectors.py:30-51 | within a round everyone has consented if and only if every consent record is granted |
| RoundTheorems.RoundOf | kotoku-backend/apps/consent/services.py:334-389 | a pending agreement has a latest round, and only grants happened since |
| RoundTheorems.SealedFromPending | kotoku-backend/apps/agreements/domain/policies.py:18-34 | in phone-flow runs a seal from PENDING_CONSENT covers the terms and parties of the latest round, whose records every party granted between issue and expiry |
| RoundTheorems.FirstSealIsFromActive | kotoku-backend/apps/consent/services.py:553-575 | in phone-flow runs every seal before the first revision is given from ACTIVE |
| CoverageTheorems.ConsentCoversExactly | kotoku-backend/apps/agreements/services.py:254-300 | every seal of a phone-flow run has a last round before it, and the parties consented to what is sealed if and only if terms and parties are those of that round |
| CoverageTheorems.EditedStillSeals | kotoku-backend/apps/agreements/services.py:174-205 | an ACTIVE agreement that can be sealed can be sealed under any other title, whatever its consent records |
| CounterRuns.SealWithoutConsent | kotoku-backend/apps/agreements/services.py:254-300 | a phone-flow run from the draft to a seal that no consent covers: both parties consent, then the title is changed |
| CounterRuns.OneCodeRun | kotoku-backend/apps/consent/services.py:433-493 | a phone-flow run that is reopened by both parties, sealed again and reopened by one code |
| CounterRuns.CancelledRequestRun | kotoku-backend/apps/agreements/services.py:421-427 | a phone-flow run whose first completed reopen has no code of the buyer after the request: hers was given to a cancelled one |
| CounterRuns.LateUploadRun | kotoku-backend/apps/evidence/services.py:312-481 | a phone-flow run in which an upload reserved before the seal is confirmed after it, and the recomputed payload is no longer the sealed one |
| CounterRuns.OneSidedRun | kotoku-backend/apps/agreements/services.py:436-449 | a phone-flow run to an ACTIVE agreement with a seal hash |
| CounterRuns.RereadRun | kotoku-backend/apps/identity/services.py:247-430 | a phone-flow run in which a party under manual review is VERIFIED by a second reading of its card, without any review |
| AttemptTheorems.CounterIsMisses | kotoku-backend/apps/consent/services.py:526-547 | in phone-flow runs, while a record can still be granted its cached counter is the number of wrong tries on it |
| AttemptTheorems.ThreeMissesNeverGrant | kotoku-backend/apps/consent/services.py:456-477 | after three wrong tries, counted since the last undone confirmation, no later step of a phone-flow run grants the record |
| AttemptTheorems.ThreeConsentMissesNeverGrant | kotoku-backend/apps/consent/services.py:526-547 | in phone-flow runs three wrong tries on a consent record, whenever made, shut it for good |
| AttemptTheorems.ReopenUndoneExactly | kotoku-backend/apps/consent/services.py:433-493 | a right reopen code is undone, its tries forgotten, exactly outside REOPEN_REQUESTED with all other parties holding grants |
| AttemptTheorems.ForgottenTriesReopen | kotoku-backend/apps/consent/services.py:479-493 | from every state with one such record left over, four wrong tries and the record is still granted |
| CounterRuns.ForgottenTriesRun | kotoku-backend/apps/consent/services.py:413-417 | for any two codes that hash differently, a phone-flow run with four wrong tries on a reopen code, no time passing, that ends with it granted |
| PartyTheorems.SettingGivesContacts | kotoku-backend/apps/parties/services.py:51-78 | an accepted set_parties list ends in distinct non-empty phone keys and distinct valid card numbers |
| PartyTheorems.SetsExactly | kotoku-backend/apps/parties/services.py:84-124 | set_parties is accepted if and only if the agreement is in DRAFT or ACTIVE, there are two entries or more, roles and phones are distinct, phones given, cards given and valid and distinct but for witnesses, and one phone is the initiator's |
| PartyTheorems.SetsTheParties | kotoku-backend/apps/parties/services.py:112-142 | the accepted entries become the parties under new keys, each with the role, name, card type, phone and normalised card number given, and one of them has a phone of the initiator |
| PartyTheorems.SettingStartsChecks | kotoku-backend/apps/parties/services.py:125-142 | each of them but a witness has a pending check under its name, with no face check |
| PartyTheorems.PatchesExactly | kotoku-backend/apps/parties/services.py:164-228 | a patch goes through if and only if the role is there, a phone it names is given and no other party's, and a card it touches ends as a valid Ghana card no other party shows; it changes that row only, field by field as it says |
| PartyTheorems.PatchRestartsExactly | kotoku-backend/apps/parties/services.py:226-232 | the party's check starts over, from the patched row, exactly if it is no witness and the name or the card was named |
| PartyTheorems.PatchesCompose | kotoku-backend/apps/parties/services.py:166-233 | two lists of patches one after the other are one list: applied in order, the first fault undoing all |
| PartyTheorems.AddsExactly | kotoku-backend/apps/agreements/services.py:208-232 | the older call adds one party to a draft, exactly in a role that is free |
| PartyTheorems.PatchingKeepsContacts | kotoku-backend/apps/parties/services.py:160-233 | a patch list that is accepted, repeated roles included, keeps phone keys and card numbers distinct |
| PartyTheorems.AlwaysContacts | kotoku-backend/apps/parties/services.py:84-242 | in every phone-flow state phone keys are non-empty and distinct, and card numbers that were given are valid and distinct |
| PartyTheorems.PhoneNamesOneParty | kotoku-backend/apps/consent/services.py:109-114 | the party found by phone is the only one with the key, in every scan order |
| IdentityTheorems.ReadingDecides | kotoku-backend/apps/identity/services.py:476-549 | a card is verified, or left to review, exactly when number, name, markers and face agree with the row and the similarity is at least 90, or in 80 to 90 |
| ReviewTheorems.VerifiesExactly | kotoku-backend/apps/identity/services.py:247-430 | a call turns a check VERIFIED if and only if it approves its open face review, or reads the party's own cards with its number and name, all markers and a face at least 90 percent like the other |
| ReviewTheorems.VerifiedInRun | kotoku-backend/apps/identity/services.py:247-430 | so in every run |
| ReviewTheorems.ReviewDecides | kotoku-backend/apps/identity/services.py:699-757 | a decision is taken exactly on an open review of one of the two kinds; then the check is VERIFIED if and only if an approved face review, Failed with the code manual_review_rejected if and only if not approved, and Pending with a passed face check if and only if an approved liveness review |
| ReviewTheorems.ReadsRowExactly | kotoku-backend/apps/identity/services.py:247-430 | verifying raises exactly on an outage that is not softened; else the row names the pictures it looked at, has a time exactly if VERIFIED, waits without pictures and ends as the reading does |
| ReviewTheorems.CodesNameFaults | kotoku-backend/apps/identity/services.py:478-500 | a reading's codes are exactly the faults it has, a doubtful face match included |
| ReviewTheorems.FaceCheckDecides | kotoku-backend/apps/identity/services.py:23-41 | a finished face check passes, waits for a person or fails as its confidence reaches the pass threshold, the review threshold only, or neither |
| ReviewTheorems.FaceCheckImage | kotoku-backend/apps/identity/services.py:586-693 | its image is kept, for the retention time, exactly if it did not fail |
| ReviewTheorems.FaceCheckStarts | kotoku-backend/apps/identity/services.py:552-583 | a face check starts exactly for a party outside the cool-down, under the new session, and drops a review in progress |
| ReviewTheorems.ImageForgottenExactly | kotoku-backend/apps/identity/tasks.py:37-80 | the image is forgotten exactly when storage let go of it after its time |
| ReviewTheorems.UploadRestartsExactly | kotoku-backend/apps/evidence/services.py:102-150 | a confirmed identity upload restarts its party's check exactly if it is not VERIFIED and both card sides and a face are there |
| IdentityTheorems.ChecksAlwaysFit | kotoku-backend/apps/identity/services.py:247-430 | in every state VERIFIED and face review mean number and name of the row as it is now, read from confirmed uploads of the party's slots; VERIFIED has no codes and a time; a review has one of two one-code lists |
| IdentityTheorems.PatchAllFits | kotoku-backend/apps/parties/services.py:226-232 | patches in any number keep every check fitting its row |
| IdentityTheorems.SealedPartiesWereRead | kotoku-backend/apps/agreements/services.py:290-300 | every sealed party but a witness has the number and name read from its own confirmed cards |
| Integrity.AlwaysSound | kotoku-backend/apps/parties/services.py:112-124 | keys are distinct and below the counter, records and checks belong to parties that exist, grants lie between issue and expiry |
| Integrity.AlwaysLinked | kotoku-backend/apps/consent/services.py:374-389 | the preconditions of the service methods hold in every state of every run |
| Phones.E164KeepsKey | kotoku-backend/common/phone_numbers.py:13-20 | normalising to E.164 keeps the comparison key |
| Phones.E164Idempotent | kotoku-backend/common/phone_numbers.py:13-20 | normalising twice is normalising once |
| Phones.SameKeyExactly | kotoku-backend/common/phone_numbers.py:6-30 | two numbers have one key if and only if their digits are the same or the one is the other with a leading zero for 233 |
| Phones.LookupValuesKeepKey | kotoku-backend/common/phone_numbers.py:33-43 | every lookup value has the key of the number it came from |
| Phones.LookupFindsSamePhone | kotoku-backend/common/phone_numbers.py:23-43 | a stored canonical number is among the lookup values of an accepted input if and only if they are the same phone |
| Phones.PhoneLookupValues | kotoku-backend/common/phone_numbers.py:33-43 | the add and discard steps build that set |
| PartyIdentity.PinIsNormal | kotoku-backend/apps/parties/identity.py:18-23 | a card number in normal form is its own normal form |
| PartyIdentity.PinExactly | kotoku-backend/apps/parties/identity.py:8-23 | a card number is GHA, nine digits and one digit, with hyphens between, and nothing else |
| PartyIdentity.ParseInvertsFormat | kotoku-backend/apps/parties/identity.py:60-81 | parsing gives a role and side if and only if formatting them gives the string |
| PartyIdentity.LatestIgnoresOrder | kotoku-backend/apps/parties/identity.py:96-122 | the latest item of a slot does not depend on the order of the items |
| PartyIdentity.LatestIdentityEvidenceByParty | kotoku-backend/apps/parties/identity.py:96-122 | the two passes return, per party and side, the highest-keyed confirmed item of the slot |
| Validators.ValidateAgreement | kotoku-backend/apps/agreements/domain/validators.py:266-283 | no error is reported if and only if the agreement meets every rule |
| Validators.CheckIdentityBaseline | kotoku-backend/apps/agreements/domain/validators.py:162-199 | the dictionary loop finds no error if and only if all needed card numbers are valid and distinct |
| Validators.CheckPartyGhanaCardUploads | kotoku-backend/apps/agreements/domain/validators.py:202-254 | no error if and only if each such party has front, back, a selfie or passed face check, and a verified status |
| Validators.BuildPartyIdentityStates | kotoku-backend/apps/parties/identity.py:140-199 | each party's state shows its own slots, status and face check |
| Validators.CheckCoreFields | kotoku-backend/apps/agreements/domain/validators.py:80-95 | no error if and only if title and scenario are not blank |
| Validators.CheckParties | kotoku-backend/apps/agreements/domain/validators.py:98-121 | no error if and only if there are two parties and the scenario's roles |
| Validators.CheckScenario | kotoku-backend/apps/agreements/domain/validators.py:127-156 | no error if and only if the scenario's photo minimum is met |
| ConsentSelectors.AllConsented | kotoku-backend/apps/consent/selectors.py:30-51 | the ordered pass with its dictionary answers whether each party's latest consent record is granted |
| ConsentSelectors.FirstIsLatest | kotoku-backend/apps/consent/selectors.py:40-49 | in that order a party's first row is its latest record |
| ConsentService.GetPartyByPhone | kotoku-backend/apps/consent/services.py:109-114 | the scan finds the first party with the key |
| ConsentService.IssuePartyOtps | kotoku-backend/apps/consent/services.py:175-231 | the loop adds one fresh record per party, in order, and nothing else |
| ConsentService.RequestConsentOtp | kotoku-backend/apps/consent/services.py:334-389 | in place: refused, or pending with a new round replacing all consent records |
| ConsentService.RequestReopenCodes | kotoku-backend/apps/consent/services.py:397-429 | in place: refused with its writes undone, or a new round replacing the ungranted reopen records |
| ConsentService.ConfirmConsentByPhone | kotoku-backend/apps/consent/services.py:498-577 | in place: each refusal leaves the rows, a wrong code counts, a right one grants and may activate |
| ConsentService.ConfirmReopen | kotoku-backend/apps/consent/services.py:433-493 | in place: as for consent, the last grant completing the reopen or being undone |
| ConsentService.AllConfirmedReopen | kotoku-backend/apps/agreements/domain/policies.py:52-67 | the set comparison answers whether every party holds a granted reopen record |
| AgreementService.UpdateTermsOf | kotoku-backend/apps/agreements/services.py:140-205 | in place: only the supplied fields change, only in the required status |
| AgreementService.MaySeal | kotoku-backend/apps/agreements/domain/policies.py:18-34 | can_seal, with consent looked at in PENDING_CONSENT only |
| AgreementService.SealAgreement | kotoku-backend/apps/agreements/services.py:254-300 | in place: plan, policy and validation are checked in turn, then status, time and hash are set |
| AgreementService.CompleteBilateralReopenOf | kotoku-backend/apps/agreements/services.py:378-400 | in place: the revision keeps the seal before the seal is cleared |
| ReturnTheorems.ClosedForGood | kotoku-backend/apps/agreements/services.py:330-342 | a closed agreement stays closed in every run, with terms, parties, hash and evidence as sealed |
| ReturnTheorems.CancelledKeepsSeal | kotoku-backend/apps/agreements/services.py:421-427 | whatever happened since the request, cancelling always succeeds and gives back the seal as it was, with no revision written |
| ReturnTheorems.OneSidedReopenExactly | kotoku-backend/apps/agreements/services.py:436-449 | in every run it succeeds exactly within 24 hours of the seal; the terms can be edited then, no revision is written and the hash stays |
| ReturnTheorems.LeftHashExactly | kotoku-backend/apps/agreements/services.py:436-449 | an agreement that holds no seal has a hash if and only if a one-sided reopen happened and no seal was held since |
| ReturnTheorems.SealAfterRequestExactly | kotoku-backend/apps/agreements/services.py:235-251 | it issues no codes: a seal straight after it succeeds exactly if the latest records of all parties were granted before, and evidence and validation pass |
| AgreementDb.Db.constructor | kotoku-backend/apps/agreements/services.py:117-137 | a new agreement is an empty draft |
| PartyService.CheckedInputs | kotoku-backend/apps/parties/services.py:100-115 | the checks of set_parties find its first fault in their order, and else the normalised phones and numbers |
| PartyService.NormalizedPhones | kotoku-backend/apps/parties/services.py:51-63 | the loop refuses a missing key first and a repeated key after it |
| PartyService.NormalizedPins | kotoku-backend/apps/parties/services.py:66-78 | the loop refuses the first missing or invalid card number, then repeated ones |
| PartyService.EnsureUniquePins | kotoku-backend/apps/parties/identity.py:43-57 | the dictionary pass succeeds if and only if no two needed numbers agree |
| PartyService.RepeatsExactly | kotoku-backend/apps/parties/services.py:106-108 | comparing the list's length with its set's finds exactly the lists with a repeated value |
| PartyService.ReplaceParties | kotoku-backend/apps/parties/services.py:84-146 | in place: refused untouched, or new parties with fresh checks and every row of the old ones gone |
| PartyService.PatchParty | kotoku-backend/apps/parties/services.py:164-232 | in place: one patch changes one row and restarts its check, or raises before it saves |
| PartyService.PatchPartiesOf | kotoku-backend/apps/parties/services.py:149-242 | in place: all patches in order, or all undone |
| UploadTheorems.SlotCountsForNothing | kotoku-backend/apps/evidence/services.py:201-309 | a reserved slot changes neither the hashed payload nor what sealing asks of the evidence |
| UploadTheorems.SlotThenConfirmByKey | kotoku-backend/apps/evidence/services.py:312-481 | reserving a slot and confirming it by its row key adds exactly that item, confirmed |
| UploadTheorems.ConfirmFillsSlot | kotoku-backend/apps/evidence/services.py:312-481 | confirming a pending slot by its row key succeeds in every status, whatever else is pending, and changes that row only |
| UploadTheorems.SlotThenConfirmExactly | kotoku-backend/apps/evidence/services.py:312-481 | without the row key it does so if and only if no other pending slot has the file key |
| UploadTheorems.ReservesExactly | kotoku-backend/apps/evidence/services.py:201-309 | a slot is reserved exactly before a seal, for a named type, a known media type, 1 byte to 50 MB, an image for identity documents, and a role that is there |
| UploadTheorems.AlwaysFitEvidence | kotoku-backend/apps/evidence/services.py:201-309 | in every run every item is such a file or one streamed by the older call |
| UploadTheorems.ConfirmsExactly | kotoku-backend/apps/evidence/services.py:312-481 | the one pending item that is meant is confirmed if and only if key, type, media type and checksum are as announced, the role is there, and storage has an object of its size with no other media type or checksum |
| UploadTheorems.ConfirmedFitsItem | kotoku-backend/apps/evidence/services.py:312-481 | in every run an item turns confirmed only by a confirmation that fits it so |
| UploadTheorems.ConfirmsAgainExactly | kotoku-backend/apps/evidence/services.py:337-357 | where nothing waits, a confirmation succeeds exactly for what is confirmed already, and changes nothing |
| EvidenceService.ConfirmPendingUpload | kotoku-backend/apps/evidence/services.py:312-481 | in place: refused, a repeat, or exactly the matching item confirmed and its party's check perhaps restarted |
| EvidenceService.MaybeQueueVerification | kotoku-backend/apps/evidence/services.py:102-150 | in place: the check restarts unless verified, when both cards and a face source are there |
| IdentityService.ResetPartyVerification | kotoku-backend/apps/identity/services.py:179-217 | in place: all but the face-check fields start over from the party's row |
| IdentityService.CollectCodes | kotoku-backend/apps/identity/services.py:478-500 | the tests append exactly the failure codes of the reading, in order |
| IdentityService.VerifyPartyIdentity | kotoku-backend/apps/identity/services.py:247-430 | in place: waiting, decided from the reading, or undone on an outage |
| IdentityService.StartLiveness | kotoku-backend/apps/identity/services.py:552-583 | in place: a new face check, a review dropped |
| IdentityService.ProcessLiveness | kotoku-backend/apps/identity/services.py:586-693 | in place: the result's fields, and a restarted card check when it passed |
| IdentityService.ResolveReview | kotoku-backend/apps/identity/services.py:699-757 | in place: an open review of one of the two kinds is decided, anything else refused |
| Calendar.OneMonthLength | kotoku-backend/apps/payments/services.py:165-172 | a month step lands 28 to 31 days on, leap years included |
| Calendar.OneMonthMonotone | kotoku-backend/apps/payments/services.py:165-172 | later dates stay later or meet |
| Calendar.AddMonthsLands | kotoku-backend/apps/payments/services.py:165-172 | n steps land n calendar months on, on the first day's number or the length of the shortest month landed in; they fail only past the year 9999 |
| Calendar.AddMonthsLength | kotoku-backend/apps/payments/services.py:165-172 | n steps take 28n to 31n days |
| Calendar.OrdinalOrders | kotoku-backend/apps/payments/services.py:165-172 | counting days orders dates as comparing them does |
| PaymentTheorems.Step | kotoku-backend/apps/payments/services.py:318-442 | only a charge adds a subscription, one at a time, and every call keeps rows, references and links |
| PaymentTheorems.AtMostOneSubscription | kotoku-backend/apps/payments/services.py:318-442 | in every run each checkout gets at most one subscription, however its charge is delivered |
| PaymentTheorems.TwiceIsOnce | kotoku-backend/apps/payments/services.py:318-442 | delivering a charge twice is delivering it once, if and only if it is not a charge without a checkout |
| PaymentTheorems.WebhookThenPoll | kotoku-backend/apps/payments/tasks.py:528-571 | so it is for a webhook followed by a poll |
| ChargeTheorems.PlanChargeExactly | kotoku-backend/apps/payments/services.py:318-368 | a subscription charge is applied if and only if it pays the price of its plan to the pesewa, in cedis or no named currency, under its checkout's reference or a blank one, for an account that exists and has not got that already; else subscriptions, accounts and invoices stay as they are |
| ChargeTheorems.PlanChargeBuys | kotoku-backend/apps/payments/services.py:370-442 | it then buys one subscription on the plan, active or waiting to replace another, and the plan for the account, and touches nothing else |
| ChargeTheorems.MonthChargeExactly | kotoku-backend/apps/payments/services.py:199-250 | so a recovery charge is applied, if and only if it pays its checkout's plan exactly and is not in force |
| ChargeTheorems.MonthChargeBuys | kotoku-backend/apps/payments/services.py:247-303 | it then buys the next month for the subscription, puts the account back on its plan and leaves a paid invoice, and touches nothing else |
| ChargeTheorems.WrongChargeFails | kotoku-backend/apps/payments/services.py:48-130 | a charge of another amount, currency or reference fails its checkout, unless that is over, and does nothing else |
| ChargeTheorems.WrongChargeStep | kotoku-backend/apps/payments/services.py:80-130 | in every run a step that delivers such a charge buys nothing |
| ChargeTheorems.PlanWasPaid | kotoku-backend/apps/payments/services.py:318-442 | in every run an account off the basic plan got its plan from a charge of exactly its price, or from an exact recovery payment for a subscription bought so, and kept it since |
| ChargeTheorems.SubWasPaid | kotoku-backend/apps/payments/services.py:318-442 | in every run every subscription was put on its plan by a charge of exactly its price |
| ChargeTheorems.PeriodStep | kotoku-backend/apps/payments/services.py:199-289 | in every run a period moves only by the provider's word or by an exact recovery payment |
| ChargeTheorems.MonthPriceExactly | kotoku-backend/apps/payments/services.py:241-250 | a month is paid at the price of the plan it extends if and only if the recovery checkout was opened for that plan |
| ChargeRuns.UnderpaidMonthRun | kotoku-backend/apps/payments/services.py:241-289 | a run in which a recovery opened for personal_plus, 79 cedis, extends a subscription on enterprise_plus by a month |
| EventTheorems.CanRunExactly | kotoku-backend/apps/payments/tasks.py:528-571 | after any run the handler of an event can run, again or for the first time, if and only if the event is not processed or some worker has read it and not run the handler yet |
| EventTheorems.RunsOnlyWhile | kotoku-backend/apps/payments/tasks.py:528-571 | once that fails it fails for the rest of the run |
| EventTheorems.ProcessedIsNotTakenUp | kotoku-backend/apps/payments/tasks.py:528-571 | once an event is processed, only the workers that have it in hand by then can still hold it |
| EventTheorems.MarkedTwiceMeansOverlap | kotoku-backend/apps/payments/tasks.py:528-571 | an event is marked processed twice only if two workers had it in hand at once |
| EventTheorems.MarksExactly | kotoku-backend/apps/payments/tasks.py:528-571 | a handler that raised leaves the event to be read again with a note, one that did not settles it |
| EventTheorems.OverlapRunsTwice | kotoku-backend/apps/payments/api/views.py:234-249 | two workers that have read an event both run its handler |
| PaymentRuns.StrayRun | kotoku-backend/apps/payments/services.py:318-442 | a run in which one charge without a checkout, received as one event, makes two active subscriptions |
| PaymentRuns.LostWorkerRun | kotoku-backend/apps/payments/tasks.py:553-560 | a run in which it does so with no two workers on the event at once: the first is lost between the handler and the mark |
| RecoveryTheorems.RecoveryExtendsExactly | kotoku-backend/apps/payments/services.py:199-289 | an accepted recovery payment extends its subscription by one month from the period's end, exactly when not already in force |
| RecoveryTheorems.RecoveryTwiceExtendsOnce | kotoku-backend/apps/payments/services.py:199-289 | delivered twice in a row it extends by one month only |
| RecoveryTheorems.FailedRenewalAllowsAnother | kotoku-backend/apps/payments/tasks.py:286-309 | with a failed renewal between, the same charge extends by a second month |
| RecoveryTheorems.SecondMonthNeedsUndoing | kotoku-backend/apps/payments/services.py:225-240 | in every run a checkout pays for a second month only after a step other than its own payments undid the first |
| PaymentRuns.SecondMonthRun | kotoku-backend/apps/payments/services.py:199-289 | a run in which one recovery payment adds two months, by webhook and by poll |
| RecoveryTheorems.PaymentsAddMonths | kotoku-backend/apps/payments/services.py:247-250 | in every run the period ends as many months after the day the first recovery payment extended from as payments extended it, while the provider sets no period |
| RecoveryTheorems.PaymentsLand | kotoku-backend/apps/payments/services.py:247-250 | that is so many calendar months on, of 28 to 31 days each, on the first day's number or the shortest month landed in |
| RecoveryTheorems.PeriodsMeet | kotoku-backend/apps/payments/services.py:247-250 | and each of those periods starts on the day the one before ended |
| PaymentService.Ledger.ValidateVerifiedCheckout | kotoku-backend/apps/payments/services.py:80-130 | in place: fits, or the open checkout is marked failed, or the plan is unknown |
| PaymentService.Ledger.ReconcileRecoveryCheckout | kotoku-backend/apps/payments/services.py:199-314 | in place: skipped, already applied, refused, or the period extended and the invoice written |
| PaymentService.Ledger.ReconcileVerifiedCharge | kotoku-backend/apps/payments/services.py:318-467 | in place: as the webhook and the poll both run it |
| PaymentService.Ledger.GetCheckoutStatus | kotoku-backend/apps/payments/services.py:471-514 | in place: a poll reconciles, cancels or fails a checkout that is neither cancelled nor failed |
| PaymentService.Ledger.ExpireLapsedSubscriptions | kotoku-backend/apps/payments/tasks.py:444-524 | in place: exactly the lapsed subscriptions expire and their accounts go back to the basic plan |
| PaymentService.ExpiringTwice | kotoku-backend/apps/payments/tasks.py:444-524 | running the daily task again changes nothing |
| PaymentTasks.First | kotoku-backend/apps/payments/tasks.py:33-39 | the newest of a query's rows |
| PaymentTasks.FindCreatedSubscription | kotoku-backend/apps/payments/tasks.py:192-215 | the first of four queries that finds a row wins |
| PaymentTasks.HandleSubscriptionCreate | kotoku-backend/apps/payments/tasks.py:180-245 | in place: the subscription is confirmed, its checkout settled and the replaced one ended |
| InvoiceTheorems.DisabledRunsToItsEnd | kotoku-backend/apps/payments/tasks.py:256-272 | a disabled subscription keeps its account's plan until the day after its period ends, when the daily task ends it; without an end it never lapses |
| InvoiceTheorems.PaidStaysPaid | kotoku-backend/apps/payments/tasks.py:286-324 | no later call, a failed-payment notice for the same reference included, makes a paid invoice unpaid |
| InvoiceTheorems.FailedOpensRecovery | kotoku-backend/apps/payments/tasks.py:286-324 | after a failed renewal of the account's newest subscription a recovery checkout can be opened exactly for its own plan and while none is open |
| InvoiceTheorems.PaidUndoesFailed | kotoku-backend/apps/payments/tasks.py:348-398 | a paid notice after a failed one leaves the books as if the payment had never failed |
| NoticeTheorems.CreateNotice | kotoku-backend/apps/payments/tasks.py:180-245 | a new subscription's notice confirms the subscription it means, by customer before address and unconfirmed before confirmed, settles its checkout and ends the one that supersedes |
| NoticeTheorems.FailedNotice | kotoku-backend/apps/payments/tasks.py:286-324 | a failed payment's notice makes the subscription it means past due and leaves an unpaid invoice of its amount, unless the reference has one |
| NoticeTheorems.PaidNotice | kotoku-backend/apps/payments/tasks.py:348-398 | a paid invoice's notice makes it active, moves the ends of the period it names, and leaves a paid invoice of its amount |
| NoticeTheorems.InvoiceIsNoticed | kotoku-backend/apps/payments/tasks.py:286-398 | in every run every invoice was left, as it is, by an exact recovery payment or by a notice of that amount and outcome |
| NoticeTheorems.ReplacedUntilPaid | kotoku-backend/apps/payments/tasks.py:33-57 | in every run a replaced subscription stays replaced, whatever notices arrive, until an exact payment is made for it |
| CheckoutTheorems.StartsExactly | kotoku-backend/apps/payments/services.py:550-636 | a subscription checkout is opened if and only if the plan is sold, the gateway answers, no checkout of the account is under way, and its newest current subscription, which it is to supersede, is not active on the plan |
| CheckoutTheorems.StartsRecoveryExactly | kotoku-backend/apps/payments/services.py:649-733 | a recovery checkout is opened if and only if that subscription is past due on the plan |
| CheckoutTheorems.PollsExactly | kotoku-backend/apps/payments/services.py:471-506 | a poll settles a checkout of the account as the gateway says, unless it is closed |
| CheckoutTheorems.StopsExactly | kotoku-backend/apps/payments/services.py:736-785 | a subscription is stopped if and only if it is the newest current and only active one, confirmed by the provider, and the gateway agrees; it is only marked to end with its period |
| CheckoutTheorems.DropsExactly | kotoku-backend/apps/payments/api/views.py:154-161 | dropping cancels exactly the account's pending and charged checkouts |
| CheckoutTheorems.ExpiresExactly | kotoku-backend/apps/payments/tasks.py:444-524 | the daily task ends exactly the cancelled and past-due subscriptions whose period ended before today, and takes exactly their accounts back to personal_basic |
| CheckoutTheorems.OnePending | kotoku-backend/apps/payments/services.py:573-624 | in every run an account has at most one checkout that waits for its payment |
| CheckoutTheorems.PlanIsLeft | kotoku-backend/apps/payments/tasks.py:444-524 | in every run an account leaves its plan only by an exact payment of its own or when a subscription of its own is over |
| Sessions.OneLiveSessionPerLogin | kotoku-backend/apps/auth/services.py:348-385 | sessions of one login share user, client and device, and at most one is live |
| Sessions.RevokedForGood | kotoku-backend/apps/auth/services.py:387-417 | a revoked session never becomes live again |
| Sessions.TokenAcceptedOnce | kotoku-backend/apps/auth/services.py:348-385 | each refresh token is accepted at most once |
| Sessions.AcceptsExactly | kotoku-backend/apps/auth/services.py:348-385 | in every run a refresh is accepted exactly for a live session of that client, not expired, whose secret checks, and for a new identifier |
| Sessions.TokenLifetime | kotoku-backend/apps/auth/services.py:111-133 | in every run a session's secret, user and device are those of the call that made it, and it expires 30 days, on the web 8 hours, after |
| Sessions.PinLoginExactly | kotoku-backend/apps/auth/services.py:449-480 | a login by PIN is accepted exactly for a right PIN on a known device, or for a user without known devices |
| Sessions.LogoutExactly | kotoku-backend/apps/auth/services.py:387-403 | signing out revokes exactly the session whose secret checks |
| Sessions.CodeLoginLeavesOne | kotoku-backend/apps/auth/services.py:303-317 | after a login by code the user has exactly one live session, and nobody else's changed |
| Sessions.SessionTable.CreateSession | kotoku-backend/apps/auth/services.py:111-133 | in place: one new row under an unused identifier |
| Sessions.SignOutIsFinal | kotoku-backend/apps/auth/services.py:136-140 | after signing out everywhere the user has no live session, nobody else loses one, and no earlier token of the user is ever accepted |
| Sessions.SessionTable.RefreshToken | kotoku-backend/apps/auth/services.py:348-385 | in place: refused untouched, or the old session revoked for a new one of the same device |
| LoginCodes.AtMostFiveInARow | kotoku-backend/apps/auth/services.py:196-219 | sends are a minute apart and at most five follow each other with gaps under an hour |
| LoginCodes.AtMostFiveAnHour | kotoku-backend/apps/auth/services.py:196-219 | at most five sends fall into any 3600 seconds |
| LoginCodes.CodeUsedOnce | kotoku-backend/apps/auth/services.py:243-280 | each code logs in at most once |
| LoginCodes.FifthMissLocks | kotoku-backend/apps/auth/services.py:243-280 | after the fifth wrong try on a code no code logs the phone in, or is sent, for 900 seconds |
| LoginCodes.AtMostFiveMisses | kotoku-backend/apps/auth/services.py:262-275 | no code is tried wrongly more than five times |
| LoginCodes.SendsExactly | kotoku-backend/apps/auth/services.py:196-219 | in every run a code is sent exactly if the phone is not locked, a minute passed since the last send, and five sends have not followed each other up to less than an hour ago |
| LoginCodes.LogsInExactly | kotoku-backend/apps/auth/services.py:243-280 | in every run a try logs in with a code if and only if the phone is not locked, it is the newest code that is unused and not expired, fewer than five tries on it were wrong, and the entered one checks against its hash |
| LoginCodes.LoginNeedsSend | kotoku-backend/apps/auth/services.py:181-231 | so a login is the entry of a code sent at most 300 seconds before |
| LoginCodes.LocksExactly | kotoku-backend/apps/auth/services.py:243-290 | in every run a call locks the phone, for 900 seconds, exactly if it is a try on a code without tries left or the wrong one that takes its last, and only a login unlocks it |
| LoginCodes.OtpDesk.FindUsable | kotoku-backend/apps/auth/services.py:253-265 | the newest unused code that has not expired |
| LoginCodes.OtpDesk.VerifyOtp | kotoku-backend/apps/auth/services.py:243-290 | in place: what each outcome leaves in the rows and the lock |
| Billing.WindowsTile | kotoku-backend/apps/billing/selectors.py:13-20 | a day lies in a month's window if and only if it is in that month, and the next window starts the day after |
| Billing.CapHolds | kotoku-backend/apps/billing/services.py:10-33 | on a hard cap, without cancelled reopens, the agreements sealed this month never exceed it |
| Billing.SealAllowedExactly | kotoku-backend/apps/billing/services.py:10-33 | a plan allows a seal if and only if it is an enterprise plan, or fewer than 7, 3 or 1 agreements sealed this month are still sealed on personal_protect, personal_plus or any other |
| Billing.CapExceededExactly | kotoku-backend/apps/agreements/services.py:421-427 | in every run a hard cap is exceeded at some time if and only if some cancelled reopen request brings back a seal of its month with the cap used up |
| Offices.CallSeen | kotoku-backend/apps/agreements/services.py:254-300 | every call on an agreement of the account is one billing call, allowed by the same check and with the same result, or changes nothing billing sees |
| Offices.CapExceededExactly | kotoku-backend/apps/billing/services.py:10-33 | the same equivalence over runs of the account's agreements, each following the protocol |
| OfficeRuns.CapBrokenByCancel | kotoku-backend/apps/agreements/services.py:421-427 | a run of two agreements on the basic plan, each consented to and sealed, that ends with two sealed in the month |
| Billing.ChangeCounts | kotoku-backend/apps/billing/selectors.py:23-31 | changing one agreement changes the count by that agreement only |
| Billing.CheckBusinessMisuse | kotoku-backend/apps/billing/selectors.py:34-63 | true if and only if fifteen seals fall in the last ninety days or each of the three latest months reached the cap |

## Left out

- Interleavings inside a step: each service method is atomic, including the reads `reconcile_verified_charge` makes before it locks and the count `check_seal_allowed` takes while another agreement is being sealed. `process_payment_event` is three steps: read, handle, mark.
- A change of the account's plan in the middle of a billing run.
- The clock is read once per step; the source reads it again between a check and a write.
- Repeated random identifiers: a session identifier issued before is refused, file keys are inputs, and one counter hands out all primary keys.
- Deleting accounts, users or agreements, with the cascades that follow; admin edits and management commands.
- SMS, e-mail, websocket and audit output, PDF receipts, consent link tokens: they do not change the rows modelled. A link confirmation ends in `confirm_by_phone`.
- Object storage, Vision, Rekognition and Paystack themselves: only their answers, as inputs.
- How a card's number and name are extracted from recognised text; the reading is an input.
- The failure cool-down of face checks is an input of the step that starts one.
- ConsentSteps.ConfirmByPhone: does not model the `purpose` argument, which no caller passes.
- `PinService.verify` failure counting; a login by PIN is modelled from a verdict on the PIN.
- Demo phones, which skip the send limits; deleting expired login codes, which never makes one usable.
- `BILLING_ENFORCEMENT_FAIL_OPEN`: a billing check that itself breaks; the verdict is an input of the protocol and computed in `Offices`.
- `get_or_create` of users and accounts at login.
- The deposit branch of the room rental check, which the source never reaches.
- Plan metadata other than price, cap and kind; the usage record shown to users.
- The two front ends.
