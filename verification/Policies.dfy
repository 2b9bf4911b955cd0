/** agreements/domain/policies.py and consent/selectors.py: what may happen to an agreement, over
    its status, rows and the clock. */
module Policies {
  import opened Lifecycle
  import opened Rows

  predicate HasConfirmedEvidence(items: seq<Evidence>) {
    exists e <- items :: e.confirmed
  }

  /** Record `r` is among the party's newest of its purpose: latest creation, then highest key. */
  ghost predicate IsLatest(records: map<nat, Record>, r: nat)
    requires r in records
  {
    forall k :: k in records && records[k].party == records[r].party && records[k].purpose == records[r].purpose ==>
      records[k].createdAt < records[r].createdAt || (records[k].createdAt == records[r].createdAt && k <= r)
  }

  ghost predicate PartyConsented(records: map<nat, Record>, party: nat) {
    exists r :: r in records && records[r].party == party && records[r].purpose == ForConsent
      && records[r].granted && IsLatest(records, r)
  }

  /** all_parties_consented: every party's latest consent record is granted. */
  ghost predicate EveryoneConsented(parties: seq<Party>, records: map<nat, Record>) {
    parties != [] && forall p <- parties :: PartyConsented(records, p.pk)
  }

  ghost predicate AllPartiesConsented(s: State) {
    EveryoneConsented(s.parties, s.records)
  }

  ghost predicate HoldsReopenGrant(records: map<nat, Record>, party: nat) {
    exists r :: r in records && records[r].party == party && records[r].purpose == ForReopen && records[r].granted
  }

  /** all_parties_confirmed_reopen */
  ghost predicate AllPartiesConfirmedReopen(s: State) {
    s.parties != [] && forall p <- s.parties :: HoldsReopenGrant(s.records, p.pk)
  }

  predicate CanRequestConsent(s: State) {
    s.status in {Draft, PendingConsent, Active} && |s.parties| >= 2
  }

  ghost predicate CanSeal(s: State) {
    && s.status in {PendingConsent, Active}
    && HasConfirmedEvidence(s.evidence)
    && (s.status == PendingConsent ==> AllPartiesConsented(s))
  }

  const REOPEN_WINDOW := 24 * 3600

  predicate CanReopen(s: State) {
    s.status == Sealed && s.sealedAt.Some? && s.now <= s.sealedAt.value + REOPEN_WINDOW
  }
}
