/** What a seal covers: the fields of the agreement that its hash and its snapshots tell apart. */
module PayloadTheorems {
  import opened Text
  import opened Ordering
  import opened Rows
  import opened SealSteps
  import opened SealTheorems

  /** Role, name, kind of card, card number and phone of a party. */
  type Person = (string, string, string, string, string)

  /** Type, content hash and key of a file. */
  type File = (string, string, string)

  function PeopleOf(parties: seq<Party>): multiset<Person> {
    if parties == [] then multiset{} else
    var p := parties[|parties| - 1];
    PeopleOf(parties[..|parties| - 1]) + multiset{(p.role, p.displayName, p.idType, p.idNumber, p.phone)}
  }

  function FilesOf(items: seq<Evidence>): multiset<File> {
    if items == [] then multiset{} else
    var e := items[|items| - 1];
    FilesOf(items[..|items| - 1]) + if e.confirmed then multiset{(e.kind, e.fileHash, e.fileKey)} else multiset{}
  }

  ghost predicate RolesDiffer(parties: seq<Party>) {
    forall i, j :: 0 <= i < j < |parties| ==> parties[i].role != parties[j].role
  }

  /** Confirmed items of one type under one key hold the same file. */
  ghost predicate FilesAgree(items: seq<Evidence>) {
    forall e, f ::
      e in items && f in items && e.confirmed && f.confirmed && e.kind == f.kind && e.fileKey == f.fileKey
      ==> e.fileHash == f.fileHash
  }

  // ---- Rows and fields ----

  function PersonRow(x: Person): PartyRow {
    PartyRow(x.0, x.1, x.2, x.3, x.4)
  }

  function FileRow(x: File): EvidenceRow {
    EvidenceRow(x.0, x.1, x.2)
  }

  lemma {:induction false} PersonCount(parties: seq<Party>, x: Person)
    ensures PeopleOf(parties)[x] == multiset(PartyRows(parties))[PersonRow(x)]
  {
    if parties != [] {
      var l := |parties| - 1;
      PersonCount(parties[..l], x);
      assert PartyRows(parties) == PartyRows(parties[..l]) + [RowOfParty(parties[l])];
    }
  }

  lemma {:induction false} FileCount(items: seq<Evidence>, x: File)
    ensures FilesOf(items)[x] == multiset(ConfirmedRows(items))[FileRow(x)]
  {
    if items != [] {
      FileCount(items[..|items| - 1], x);
    }
  }

  lemma SamePeople(a: seq<Party>, b: seq<Party>)
    ensures PeopleOf(a) == PeopleOf(b) <==> multiset(PartyRows(a)) == multiset(PartyRows(b))
  {
    hide PeopleOf, PartyRows;
    forall x: Person ensures PeopleOf(a)[x] == multiset(PartyRows(a))[PersonRow(x)] {
      PersonCount(a, x);
    }
    forall x: Person ensures PeopleOf(b)[x] == multiset(PartyRows(b))[PersonRow(x)] {
      PersonCount(b, x);
    }
    if multiset(PartyRows(a)) == multiset(PartyRows(b)) {
      assert forall x: Person :: PeopleOf(a)[x] == PeopleOf(b)[x];
    }
    if PeopleOf(a) == PeopleOf(b) {
      forall r: PartyRow ensures multiset(PartyRows(a))[r] == multiset(PartyRows(b))[r] {
        var x: Person := (r.role, r.displayName, r.idType, r.idNumber, r.phone);
        assert PersonRow(x) == r;
      }
    }
  }

  lemma SameFiles(a: seq<Evidence>, b: seq<Evidence>)
    ensures FilesOf(a) == FilesOf(b) <==> multiset(ConfirmedRows(a)) == multiset(ConfirmedRows(b))
  {
    hide FilesOf, ConfirmedRows;
    forall x: File ensures FilesOf(a)[x] == multiset(ConfirmedRows(a))[FileRow(x)] {
      FileCount(a, x);
    }
    forall x: File ensures FilesOf(b)[x] == multiset(ConfirmedRows(b))[FileRow(x)] {
      FileCount(b, x);
    }
    if multiset(ConfirmedRows(a)) == multiset(ConfirmedRows(b)) {
      assert forall x: File :: FilesOf(a)[x] == FilesOf(b)[x];
    }
    if FilesOf(a) == FilesOf(b) {
      forall r: EvidenceRow ensures multiset(ConfirmedRows(a))[r] == multiset(ConfirmedRows(b))[r] {
        var x: File := (r.kind, r.fileHash, r.fileKey);
        assert FileRow(x) == r;
      }
    }
  }

  lemma BothWays(x: PartyRow, y: PartyRow)
    requires ByRole(x, y) && ByRole(y, x)
    ensures x.role == y.role
  {
    TextLeqTotal(x.role, y.role);
  }

  lemma FilesBothWays(x: EvidenceRow, y: EvidenceRow)
    requires ByKindAndKey(x, y) && ByKindAndKey(y, x)
    ensures x.kind == y.kind && x.fileKey == y.fileKey
  {
    TextLeqTotal(x.kind, y.kind);
    TextLeqTotal(x.fileKey, y.fileKey);
  }

  lemma RolesAreKeys(parties: seq<Party>)
    requires RolesDiffer(parties)
    ensures DistinctKeys(multiset(PartyRows(parties)), ByRole)
  {
    OrdersAreTotal();
    var rows := PartyRows(parties);
    forall x, y | x in multiset(rows) && y in multiset(rows) && ByRole(x, y) && ByRole(y, x) ensures x == y {
      BothWays(x, y);
      var i :| 0 <= i < |rows| && rows[i] == x;
      var j :| 0 <= j < |rows| && rows[j] == y;
      assert parties[i].role == x.role && parties[j].role == y.role;
    }
  }

  lemma FilesAreKeys(items: seq<Evidence>)
    requires FilesAgree(items)
    ensures DistinctKeys(multiset(ConfirmedRows(items)), ByKindAndKey)
  {
    var rows := ConfirmedRows(items);
    forall x, y | x in multiset(rows) && y in multiset(rows) && ByKindAndKey(x, y) && ByKindAndKey(y, x)
      ensures x == y
    {
      FilesBothWays(x, y);
      var e := ItemOfRow(items, x);
      var f := ItemOfRow(items, y);
    }
  }

  lemma {:induction false} ItemOfRow(items: seq<Evidence>, r: EvidenceRow) returns (e: Evidence)
    requires r in ConfirmedRows(items)
    ensures e in items && e.confirmed && e.kind == r.kind && e.fileHash == r.fileHash && e.fileKey == r.fileKey
  {
    var last := items[|items| - 1];
    if last.confirmed && EvidenceRow(last.kind, last.fileHash, last.fileKey) == r {
      e := last;
    } else {
      e := ItemOfRow(items[..|items| - 1], r);
    }
  }

  /** Two agreements seal alike exactly when they agree on title, description and scenario, on the role,
      name, card and phone of every party, and on the type, hash and key of every confirmed file. */
  lemma PayloadCoversExactly(env: Env, s: State, u: State)
    requires RolesDiffer(s.parties) && FilesAgree(s.evidence)
    ensures PayloadNow(env, s) == PayloadNow(env, u) <==>
      && s.terms.title == u.terms.title && s.terms.description == u.terms.description
      && s.terms.scenario == u.terms.scenario
      && PeopleOf(s.parties) == PeopleOf(u.parties) && FilesOf(s.evidence) == FilesOf(u.evidence)
  {
    hide PeopleOf, FilesOf, PartyRows, ConfirmedRows, OrderBy;
    OrdersAreTotal();
    var ps, qs := PartyRows(s.parties), PartyRows(u.parties);
    var es, fs := ConfirmedRows(s.evidence), ConfirmedRows(u.evidence);
    OrderBySorts(ps, ByRole);
    OrderBySorts(qs, ByRole);
    OrderBySorts(es, ByKindAndKey);
    OrderBySorts(fs, ByKindAndKey);
    SamePeople(s.parties, u.parties);
    SameFiles(s.evidence, u.evidence);
    RolesAreKeys(s.parties);
    FilesAreKeys(s.evidence);
    if multiset(ps) == multiset(qs) && multiset(es) == multiset(fs) {
      OrderByIgnoresStorage(ps, qs, ByRole);
      OrderByIgnoresStorage(es, fs, ByKindAndKey);
    }
  }

  /** Row and party agree field by field, under the same names. */
  predicate ShowsParty(r: PartyRow, p: Party) {
    && r.role == p.role && r.displayName == p.displayName && r.idType == p.idType
    && r.idNumber == p.idNumber && r.phone == p.phone
  }

  predicate ShowsItem(r: EvidenceRow, e: Evidence) {
    e.confirmed && r.kind == e.kind && r.fileHash == e.fileHash && r.fileKey == e.fileKey
  }

  /** Each field of the payload, and of the snapshot a revision keeps, is the agreement's field of the same
      name; rows and parties, rows and confirmed items, correspond. */
  lemma PayloadNamesFields(env: Env, s: State)
    ensures var d := PayloadNow(env, s);
      && d.agreementId == env.agreementId && d.title == s.terms.title && d.description == s.terms.description
      && d.scenario == s.terms.scenario && SnapshotNow(env, s).payload == d
      && SnapshotNow(env, s).fieldData == s.terms.fieldData
    ensures forall r <- PayloadNow(env, s).parties :: exists p <- s.parties :: ShowsParty(r, p)
    ensures forall p <- s.parties :: exists r <- PayloadNow(env, s).parties :: ShowsParty(r, p)
    ensures forall r <- PayloadNow(env, s).evidence :: exists e <- s.evidence :: ShowsItem(r, e)
  {
    hide ConfirmedRows, OrderBy;
    OrdersAreTotal();
    var ps, es := PartyRows(s.parties), ConfirmedRows(s.evidence);
    OrderBySorts(ps, ByRole);
    OrderBySorts(es, ByKindAndKey);
    var d := PayloadNow(env, s);
    forall r | r in d.parties ensures exists p <- s.parties :: ShowsParty(r, p) {
      assert r in multiset(d.parties) && r in multiset(ps);
      var i :| 0 <= i < |ps| && ps[i] == r;
      assert s.parties[i] in s.parties && ShowsParty(r, s.parties[i]);
    }
    forall p | p in s.parties ensures exists r <- d.parties :: ShowsParty(r, p) {
      var i :| 0 <= i < |s.parties| && s.parties[i] == p;
      assert ps[i] in multiset(ps) && ps[i] in multiset(d.parties);
      assert ShowsParty(ps[i], p);
    }
    forall r | r in d.evidence ensures exists e <- s.evidence :: ShowsItem(r, e) {
      assert r in multiset(d.evidence) && r in multiset(es);
      var e := ItemOfRow(s.evidence, r);
      assert ShowsItem(r, e);
    }
  }

  /** The rows of parties stand by role, those of evidence by type and, within one, by file key. */
  lemma PayloadInOrder(env: Env, s: State, i: nat, j: nat)
    ensures var rows := PayloadNow(env, s).parties;
      i < j < |rows| ==> Before(rows[i].role, rows[j].role)
    ensures var rows := PayloadNow(env, s).evidence;
      i < j < |rows| ==>
        && Before(rows[i].kind, rows[j].kind)
        && (rows[i].kind == rows[j].kind ==> Before(rows[i].fileKey, rows[j].fileKey))
  {
    hide ConfirmedRows, OrderBy, TextLeq, Before;
    OrdersAreTotal();
    OrderBySorts(PartyRows(s.parties), ByRole);
    OrderBySorts(ConfirmedRows(s.evidence), ByKindAndKey);
    var d := PayloadNow(env, s);
    if i < j < |d.parties| {
      BeforeIsLeq(d.parties[i].role, d.parties[j].role);
    }
    if i < j < |d.evidence| {
      BeforeIsLeq(d.evidence[i].kind, d.evidence[j].kind);
      BeforeIsLeq(d.evidence[i].fileKey, d.evidence[j].fileKey);
    }
  }

  /** By the first character in which they differ; a beginning stands before the whole. */
  ghost predicate Before(a: string, b: string) {
    a <= b || exists i :: 0 <= i < |a| && i < |b| && a[..i] == b[..i] && a[i] < b[i]
  }

  lemma {:induction false} BeforeIsLeq(a: string, b: string)
    ensures TextLeq(a, b) <==> Before(a, b)
  {
    if a != "" && b != "" && a[0] == b[0] {
      BeforeIsLeq(a[1..], b[1..]);
      TailBefore(a, b);
    } else if a != "" && b != "" && a[0] < b[0] {
      assert a[..0] == b[..0];
    }
  }

  lemma TailBefore(a: string, b: string)
    requires a != "" && b != "" && a[0] == b[0]
    ensures Before(a[1..], b[1..]) <==> Before(a, b)
  {
    var x, y := a[1..], b[1..];
    assert x <= y <==> a <= b;
    if i :| 0 <= i < |x| && i < |y| && x[..i] == y[..i] && x[i] < y[i] {
      assert a[..i + 1] == [a[0]] + x[..i] && b[..i + 1] == [b[0]] + y[..i];
    }
    if i :| 0 <= i < |a| && i < |b| && a[..i] == b[..i] && a[i] < b[i] {
      assert i > 0 && x[..i - 1] == a[..i][1..] && y[..i - 1] == b[..i][1..];
    }
  }
}
