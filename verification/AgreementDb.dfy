/** The rows of one agreement, updated in place by the services.  A call that raises inside
    `transaction.atomic` puts back the rows it wrote; what it wrote to the cache stays. */
module AgreementDb {
  import opened Wrappers
  import opened Lifecycle
  import opened Rows
  import opened ConsentSelectors

  /** What the tables' constraints keep: distinct keys, one party per role, and no record or
      verification without its party. */
  ghost predicate Linked(s: State) {
    && RecordsLinked(s.parties, s.records)
    && (forall k :: k in s.verifications ==> k in PartyPks(s.parties))
    && (forall i, j :: 0 <= i < j < |s.parties| ==> s.parties[i].role != s.parties[j].role)
  }

  class Db {
    var now: int
    var nextPk: nat
    var status: Status
    var terms: Terms
    var sealedAt: Option<int>
    var sealHash: string
    var closedAt: Option<int>
    var parties: seq<Party>
    var evidence: seq<Evidence>
    var records: map<nat, Record>
    var verifications: map<nat, Verification>
    var revisions: seq<Revision>
    var consentTries: map<nat, Counter>
    var reopenTries: map<nat, Counter>

    /** create_draft */
    constructor (now: int, nextPk: nat, terms: Terms)
      ensures View() == State(now, nextPk, Draft, terms, None, "", None, [], [], map[], map[], [], map[], map[])
    {
      this.now, this.nextPk, this.terms := now, nextPk, terms;
      status, sealedAt, sealHash, closedAt := Draft, None, "", None;
      parties, evidence, revisions := [], [], [];
      records, verifications, consentTries, reopenTries := map[], map[], map[], map[];
    }

    function View(): State
      reads this
    {
      State(now, nextPk, status, terms, sealedAt, sealHash, closedAt, parties, evidence, records, verifications,
            revisions, consentTries, reopenTries)
    }
  }
}
