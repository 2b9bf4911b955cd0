/** ORDER BY: sorting rows under a comparison, and when the result does not depend on the order
    in which the rows were stored. */
module Ordering {
  predicate SortedBy<T>(rows: seq<T>, leq: (T, T) -> bool) {
    forall i, j :: 0 <= i < j < |rows| ==> leq(rows[i], rows[j])
  }

  function Insert<T>(x: T, rows: seq<T>, leq: (T, T) -> bool): seq<T> {
    if rows == [] then [x]
    else if leq(x, rows[0]) then [x] + rows
    else [rows[0]] + Insert(x, rows[1..], leq)
  }

  function OrderBy<T>(rows: seq<T>, leq: (T, T) -> bool): seq<T> {
    if rows == [] then [] else Insert(rows[0], OrderBy(rows[1..], leq), leq)
  }

  ghost predicate Total<T(!new)>(leq: (T, T) -> bool) {
    forall x, y :: leq(x, y) || leq(y, x)
  }

  ghost predicate Transitive<T(!new)>(leq: (T, T) -> bool) {
    forall x, y, z :: leq(x, y) && leq(y, z) ==> leq(x, z)
  }

  lemma {:induction false} InsertSorts<T(!new)>(x: T, rows: seq<T>, leq: (T, T) -> bool)
    requires Total(leq) && Transitive(leq) && SortedBy(rows, leq)
    ensures SortedBy(Insert(x, rows, leq), leq)
    ensures multiset(Insert(x, rows, leq)) == multiset{x} + multiset(rows)
  {
    if rows == [] {
    } else if leq(x, rows[0]) {
    } else {
      var rest := Insert(x, rows[1..], leq);
      InsertSorts(x, rows[1..], leq);
      assert rows == [rows[0]] + rows[1..];
      forall y | y in rest ensures leq(rows[0], y) {
        assert y in multiset(rest);
        assert y == x || y in multiset(rows[1..]);
      }
    }
  }

  lemma {:induction false} OrderBySorts<T(!new)>(rows: seq<T>, leq: (T, T) -> bool)
    requires Total(leq) && Transitive(leq)
    ensures SortedBy(OrderBy(rows, leq), leq)
    ensures multiset(OrderBy(rows, leq)) == multiset(rows)
  {
    if rows != [] {
      OrderBySorts(rows[1..], leq);
      InsertSorts(rows[0], OrderBy(rows[1..], leq), leq);
      assert rows == [rows[0]] + rows[1..];
    }
  }

  /** Rows that compare both ways are the same row. */
  ghost predicate DistinctKeys<T>(rows: multiset<T>, leq: (T, T) -> bool) {
    forall x, y :: x in rows && y in rows && leq(x, y) && leq(y, x) ==> x == y
  }

  lemma LeastIsFirst<T(!new)>(rows: seq<T>, x: T, leq: (T, T) -> bool)
    requires Total(leq) && SortedBy(rows, leq) && x in multiset(rows)
    ensures rows != [] && leq(rows[0], x)
  {
    var i :| 0 <= i < |rows| && rows[i] == x;
  }

  lemma TailRows<T>(rows: seq<T>)
    requires rows != []
    ensures multiset(rows[1..]) == multiset(rows) - multiset{rows[0]}
  {
    assert rows == [rows[0]] + rows[1..];
  }

  lemma {:induction false} SortedUnique<T(!new)>(a: seq<T>, b: seq<T>, leq: (T, T) -> bool)
    requires Total(leq) && SortedBy(a, leq) && SortedBy(b, leq)
    requires multiset(a) == multiset(b) && DistinctKeys(multiset(a), leq)
    ensures a == b
  {
    assert |a| == |multiset(a)| == |multiset(b)| == |b|;
    if a != [] {
      assert a[0] in multiset(a) && b[0] in multiset(b);
      LeastIsFirst(a, b[0], leq);
      LeastIsFirst(b, a[0], leq);
      assert a[0] == b[0];
      TailRows(a);
      TailRows(b);
      SortedUnique(a[1..], b[1..], leq);
    }
  }

  /** With distinct keys, ORDER BY gives one result whatever order the rows are stored in. */
  lemma OrderByIgnoresStorage<T(!new)>(a: seq<T>, b: seq<T>, leq: (T, T) -> bool)
    requires Total(leq) && Transitive(leq)
    requires multiset(a) == multiset(b) && DistinctKeys(multiset(a), leq)
    ensures OrderBy(a, leq) == OrderBy(b, leq)
  {
    OrderBySorts(a, leq);
    OrderBySorts(b, leq);
    SortedUnique(OrderBy(a, leq), OrderBy(b, leq), leq);
  }
}
