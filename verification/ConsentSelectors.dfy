/** consent/selectors.py: the latest consent record of each party, found in one ordered pass. */
module ConsentSelectors {
  import opened Ordering
  import opened Rows
  import opened Policies

  datatype Row = Row(pk: nat, record: Record)

  /** ORDER BY party_id, created_at DESC, id DESC */
  predicate NewestFirst(a: Row, b: Row) {
    || a.record.party < b.record.party
    || (a.record.party == b.record.party
        && (a.record.createdAt > b.record.createdAt || (a.record.createdAt == b.record.createdAt && a.pk >= b.pk)))
  }

  lemma NewestFirstIsAnOrder()
    ensures Total(NewestFirst) && Transitive(NewestFirst)
  {
  }

  ghost predicate IsRow(records: map<nat, Record>, purpose: Purpose, row: Row) {
    row.pk in records && records[row.pk] == row.record && row.record.purpose == purpose
  }

  /** The query behind all_parties_consented. */
  method OrderedRows(records: map<nat, Record>, purpose: Purpose) returns (rows: seq<Row>)
    ensures SortedBy(rows, NewestFirst)
    ensures forall row :: row in rows <==> IsRow(records, purpose, row)
  {
    var left := records.Keys;
    var found: seq<Row> := [];
    while left != {}
      invariant left <= records.Keys
      invariant forall row :: row in found <==> IsRow(records, purpose, row) && row.pk !in left
      decreases |left|
    {
      var pk :| pk in left;
      left := left - {pk};
      if records[pk].purpose == purpose {
        found := found + [Row(pk, records[pk])];
      }
    }
    NewestFirstIsAnOrder();
    OrderBySorts(found, NewestFirst);
    rows := OrderBy(found, NewestFirst);
    forall row ensures row in rows <==> row in found {
      assert row in rows <==> row in multiset(rows);
      assert row in found <==> row in multiset(found);
    }
  }

  lemma PksCount(parties: seq<Party>)
    requires forall i, j :: 0 <= i < j < |parties| ==> parties[i].pk != parties[j].pk
    ensures |PartyPks(parties)| == |parties|
  {
    if parties != [] {
      var front := parties[..|parties| - 1];
      var last := parties[|parties| - 1];
      PksCount(front);
      assert parties == front + [last];
      assert PartyPks(parties) == PartyPks(front) + {last.pk};
      assert last.pk !in PartyPks(front);
    }
  }

  lemma SubsetOfSameSize<T>(a: set<T>, b: set<T>)
    requires a <= b && |a| == |b|
    ensures a == b
  {
    assert b == a + (b - a);
  }

  /** What the dictionary holds after the rows seen so far: for each party, its first row's verdict. */
  ghost predicate Firsts(rows: seq<Row>, latest: map<nat, bool>) {
    && (forall row <- rows :: row.record.party in latest)
    && (forall party :: party in latest ==>
          exists i :: FirstOf(rows, party, i) && latest[party] == rows[i].record.granted)
  }

  ghost predicate FirstOf(rows: seq<Row>, party: nat, i: int) {
    0 <= i < |rows| && rows[i].record.party == party && forall j :: 0 <= j < i ==> rows[j].record.party != party
  }

  lemma FirstsExtended(rows: seq<Row>, row: Row, latest: map<nat, bool>)
    requires Firsts(rows, latest)
    ensures var after := if row.record.party in latest then latest else latest[row.record.party := row.record.granted];
      Firsts(rows + [row], after)
  {
    var after := if row.record.party in latest then latest else latest[row.record.party := row.record.granted];
    forall party | party in after
      ensures exists i :: FirstOf(rows + [row], party, i) && after[party] == (rows + [row])[i].record.granted
    {
      if party in latest {
        var i :| FirstOf(rows, party, i) && latest[party] == rows[i].record.granted;
        assert FirstOf(rows + [row], party, i);
      } else {
        assert FirstOf(rows + [row], party, |rows|);
      }
    }
  }

  /** The first row of a party in that order is its latest record. */
  lemma FirstIsLatest(records: map<nat, Record>, rows: seq<Row>, party: nat, i: nat)
    requires SortedBy(rows, NewestFirst) && FirstOf(rows, party, i)
    requires forall row :: row in rows <==> IsRow(records, ForConsent, row)
    ensures PartyConsented(records, party) <==> rows[i].record.granted
  {
    var r := rows[i].pk;
    assert IsRow(records, ForConsent, rows[i]);
    forall k | k in records && records[k].party == party && records[k].purpose == ForConsent
      ensures records[k].createdAt < records[r].createdAt || (records[k].createdAt == records[r].createdAt && k <= r)
    {
      assert IsRow(records, ForConsent, Row(k, records[k]));
      var j :| 0 <= j < |rows| && rows[j] == Row(k, records[k]);
      assert j >= i;
    }
    assert IsLatest(records, r);
    if PartyConsented(records, party) {
      var q :| q in records && records[q].party == party && records[q].purpose == ForConsent
        && records[q].granted && IsLatest(records, q);
    }
  }

  /** Distinct keys, and no record of a party that is gone: the database deletes a party's records with
      the party. */
  ghost predicate RecordsLinked(parties: seq<Party>, records: map<nat, Record>) {
    && (forall i, j :: 0 <= i < j < |parties| ==> parties[i].pk != parties[j].pk)
    && (forall k :: k in records ==> records[k].party in PartyPks(parties))
  }

  /** all_parties_consented */
  method AllConsented(parties: seq<Party>, records: map<nat, Record>) returns (all: bool)
    requires RecordsLinked(parties, records)
    ensures all <==> EveryoneConsented(parties, records)
  {
    if |parties| == 0 {
      return false;
    }
    var rows := OrderedRows(records, ForConsent);
    var latest: map<nat, bool> := map[];
    for i := 0 to |rows|
      invariant Firsts(rows[..i], latest)
    {
      assert rows[..i + 1] == rows[..i] + [rows[i]];
      FirstsExtended(rows[..i], rows[i], latest);
      if rows[i].record.party !in latest {
        latest := latest[rows[i].record.party := rows[i].record.granted];
      }
    }
    assert rows[..|rows|] == rows;
    all := |latest| == |parties| && forall party <- latest.Keys :: latest[party];
    LatestDecides(parties, records, rows, latest);
  }

  lemma LatestDecides(parties: seq<Party>, records: map<nat, Record>, rows: seq<Row>, latest: map<nat, bool>)
    requires RecordsLinked(parties, records)
    requires SortedBy(rows, NewestFirst) && Firsts(rows, latest)
    requires forall row :: row in rows <==> IsRow(records, ForConsent, row)
    ensures |latest| == |parties| && (forall party <- latest.Keys :: latest[party]) <==>
      forall p <- parties :: PartyConsented(records, p.pk)
  {
    hide PartyConsented, SortedBy;
    PksCount(parties);
    forall party | party in latest
      ensures party in PartyPks(parties) && (PartyConsented(records, party) <==> latest[party])
    {
      var i :| FirstOf(rows, party, i) && latest[party] == rows[i].record.granted;
      assert IsRow(records, ForConsent, rows[i]);
      FirstIsLatest(records, rows, party, i);
    }
    assert latest.Keys <= PartyPks(parties);
    if |latest.Keys| == |parties| {
      SubsetOfSameSize(latest.Keys, PartyPks(parties));
    }
    if forall p <- parties :: PartyConsented(records, p.pk) {
      forall pk | pk in PartyPks(parties) ensures pk in latest {
        ConsentedHasRow(records, rows, latest, pk);
      }
      assert latest.Keys == PartyPks(parties);
    }
  }

  lemma ConsentedHasRow(records: map<nat, Record>, rows: seq<Row>, latest: map<nat, bool>, party: nat)
    requires PartyConsented(records, party) && Firsts(rows, latest)
    requires forall row :: row in rows <==> IsRow(records, ForConsent, row)
    ensures party in latest
  {
    var r :| r in records && records[r].party == party && records[r].purpose == ForConsent && records[r].granted;
    assert IsRow(records, ForConsent, Row(r, records[r]));
  }
}
