/** The part of SQL the listings rest on: WHERE, ORDER BY on a two-column key, LIMIT and OFFSET. */
module Ordering {

  type Key = (int, int)

  predicate Less(a: Key, b: Key) {
    a.0 < b.0 || (a.0 == b.0 && a.1 < b.1)
  }

  /** WHERE: the rows satisfying p, in table order. */
  function Where<T>(rows: seq<T>, p: T -> bool): seq<T> {
    if rows == [] then []
    else (if p(rows[0]) then [rows[0]] else []) + Where(rows[1..], p)
  }

  /** Puts one row into its place in a descending sequence. */
  function InsertDesc<T>(row: T, sorted: seq<T>, key: T -> Key): seq<T> {
    if sorted == [] then [row]
    else if Less(key(sorted[0]), key(row)) then [row] + sorted
    else [sorted[0]] + InsertDesc(row, sorted[1..], key)
  }

  /** ORDER BY key DESC. */
  function OrderDesc<T>(rows: seq<T>, key: T -> Key): seq<T> {
    if rows == [] then [] else InsertDesc(rows[0], OrderDesc(rows[1..], key), key)
  }

  function Negate<T>(key: T -> Key): T -> Key {
    row => (-key(row).0, -key(row).1)
  }

  /** ORDER BY key ASC. */
  function OrderAsc<T>(rows: seq<T>, key: T -> Key): seq<T> {
    OrderDesc(rows, Negate(key))
  }

  /** LIMIT n. */
  function Limit<T>(rows: seq<T>, n: nat): seq<T> {
    if n < |rows| then rows[..n] else rows
  }

  /** OFFSET n. */
  function Offset<T>(rows: seq<T>, n: nat): seq<T> {
    if n < |rows| then rows[n..] else []
  }

  function Reverse<T>(rows: seq<T>): seq<T> {
    seq(|rows|, i requires 0 <= i < |rows| => rows[|rows| - 1 - i])
  }

  ghost predicate Descending<T>(rows: seq<T>, key: T -> Key) {
    forall i, j :: 0 <= i < j < |rows| ==> Less(key(rows[j]), key(rows[i]))
  }

  ghost predicate DistinctKeys<T>(rows: seq<T>, key: T -> Key) {
    forall i, j :: 0 <= i < j < |rows| ==> key(rows[i]) != key(rows[j])
  }

  ghost predicate SameElements<T(!new)>(a: seq<T>, b: seq<T>) {
    forall x :: x in a <==> x in b
  }

  lemma {:induction false} WhereIsFilter<T(!new)>(rows: seq<T>, p: T -> bool)
    ensures forall x :: x in Where(rows, p) <==> x in rows && p(x)
  {
    if rows != [] {
      WhereIsFilter(rows[1..], p);
      assert rows == [rows[0]] + rows[1..];
    }
  }

  lemma {:induction false} WhereKeepsDistinct<T(!new)>(rows: seq<T>, p: T -> bool, key: T -> Key)
    requires DistinctKeys(rows, key)
    ensures DistinctKeys(Where(rows, p), key)
  {
    if rows != [] {
      assert DistinctKeys(rows[1..], key);
      WhereKeepsDistinct(rows[1..], p, key);
      WhereIsFilter(rows[1..], p);
      var rest := Where(rows[1..], p);
      forall k | 0 <= k < |rest| ensures key(rest[k]) != key(rows[0]) {
        assert rest[k] in rows[1..];
        var j :| 0 <= j < |rows[1..]| && rows[1..][j] == rest[k];
        assert rows[j + 1] == rest[k];
      }
    }
  }

  lemma {:induction false} InsertDescKeeps<T(!new)>(row: T, sorted: seq<T>, key: T -> Key)
    ensures multiset(InsertDesc(row, sorted, key)) == multiset(sorted) + multiset{row}
    ensures forall x :: x in InsertDesc(row, sorted, key) <==> x == row || x in sorted
  {
    if sorted != [] && !Less(key(sorted[0]), key(row)) {
      assert sorted == [sorted[0]] + sorted[1..];
      InsertDescKeeps(row, sorted[1..], key);
    }
  }

  lemma {:induction false} InsertDescSorts<T(!new)>(row: T, sorted: seq<T>, key: T -> Key)
    requires Descending(sorted, key)
    requires forall x :: x in sorted ==> key(x) != key(row)
    ensures Descending(InsertDesc(row, sorted, key), key)
  {
    if sorted != [] && !Less(key(sorted[0]), key(row)) {
      assert sorted[0] in sorted;
      InsertDescSorts(row, sorted[1..], key);
      InsertDescKeeps(row, sorted[1..], key);
      var rest := InsertDesc(row, sorted[1..], key);
      forall k | 0 <= k < |rest| ensures Less(key(rest[k]), key(sorted[0])) {
        assert rest[k] in rest;
      }
    }
  }

  /** With distinct keys ORDER BY ... DESC yields a strictly descending permutation of the rows. */
  lemma {:induction false} OrderDescSorts<T(!new)>(rows: seq<T>, key: T -> Key)
    requires DistinctKeys(rows, key)
    ensures Descending(OrderDesc(rows, key), key)
    ensures multiset(OrderDesc(rows, key)) == multiset(rows)
    ensures forall x :: x in OrderDesc(rows, key) <==> x in rows
    ensures |OrderDesc(rows, key)| == |rows|
  {
    if rows != [] {
      assert rows == [rows[0]] + rows[1..];
      OrderDescSorts(rows[1..], key);
      var rest := OrderDesc(rows[1..], key);
      forall x | x in rest ensures key(x) != key(rows[0]) {
        assert x in rows[1..];
        var k :| 0 <= k < |rows[1..]| && rows[1..][k] == x;
        assert rows[k + 1] == x;
      }
      InsertDescSorts(rows[0], rest, key);
      InsertDescKeeps(rows[0], rest, key);
    }
    assert |multiset(OrderDesc(rows, key))| == |multiset(rows)|;
  }

  lemma TailElements<T(!new)>(a: seq<T>, key: T -> Key)
    requires a != [] && Descending(a, key)
    ensures forall x :: x in a[1..] <==> x in a && x != a[0]
  {
  }

  /** A strictly descending sequence is determined by its elements. */
  lemma {:induction false} DescendingUnique<T(!new)>(a: seq<T>, b: seq<T>, key: T -> Key)
    requires Descending(a, key) && Descending(b, key)
    requires SameElements(a, b)
    ensures a == b
  {
    assert b == [] || b[0] in b;
    if a != [] {
      assert a[0] in a;
      assert a[0] in b && b[0] in a by { assert b[0] in b; }
      var i :| 0 <= i < |b| && b[i] == a[0];
      var j :| 0 <= j < |a| && a[j] == b[0];
      assert i == 0;
      TailElements(a, key);
      TailElements(b, key);
      DescendingUnique(a[1..], b[1..], key);
    }
  }

  lemma ReverseElements<T(!new)>(rows: seq<T>)
    ensures SameElements(Reverse(rows), rows)
  {
    forall x | x in rows ensures x in Reverse(rows) {
      var i :| 0 <= i < |rows| && rows[i] == x;
      assert Reverse(rows)[|rows| - 1 - i] == x;
    }
  }

  lemma ReverseDescending<T>(rows: seq<T>, key: T -> Key)
    requires Descending(rows, key)
    ensures Descending(Reverse(rows), Negate(key))
  {
  }

  /** ORDER BY ... ASC is the reversal of ORDER BY ... DESC. */
  lemma AscIsReversedDesc<T(!new)>(rows: seq<T>, key: T -> Key)
    requires DistinctKeys(rows, key)
    ensures OrderAsc(rows, key) == Reverse(OrderDesc(rows, key))
  {
    OrderDescSorts(rows, key);
    assert DistinctKeys(rows, Negate(key));
    OrderDescSorts(rows, Negate(key));
    hide OrderDesc, Reverse, Descending, DistinctKeys;
    ReverseElements(OrderDesc(rows, key));
    ReverseDescending(OrderDesc(rows, key), key);
    DescendingUnique(OrderAsc(rows, key), Reverse(OrderDesc(rows, key)), Negate(key));
  }

  /** Rows that are one stretch of a sorted listing are that stretch once ordered. */
  lemma OrderedSlice<T(!new)>(rows: seq<T>, all: seq<T>, key: T -> Key, a: nat, b: nat)
    requires DistinctKeys(rows, key) && Descending(all, key) && a <= b <= |all|
    requires SameElements(rows, all[a..b])
    ensures OrderDesc(rows, key) == all[a..b]
  {
    OrderDescSorts(rows, key);
    DescendingUnique(OrderDesc(rows, key), all[a..b], key);
  }

  lemma SliceElements<T(!new)>(all: seq<T>, a: nat, b: nat, rows: seq<T>, p: T -> bool)
    requires a <= b <= |all|
    requires forall x :: x in rows <==> x in all && p(x)
    requires forall j :: 0 <= j < |all| ==> (p(all[j]) <==> a <= j < b)
    ensures SameElements(rows, all[a..b])
  {
  }
}
