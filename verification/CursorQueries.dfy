/** The cursor queries read contiguous stretches of the one descending listing. */
module CursorQueries {
  import opened Prelude
  import opened Ordering
  import opened SessionPaging
  import opened SessionStatus

  /** Session ids are the primary key of the table. */
  ghost predicate Table(table: seq<Session>) {
    forall i, j :: 0 <= i < j < |table| ==> table[i].id != table[j].id
  }

  /** What a listing of a keyed table looks like. */
  ghost predicate Sorted(listing: seq<Session>) {
    && Descending(listing, SessionKey)
    && forall i, j :: 0 <= i < j < |listing| ==> listing[i].id != listing[j].id
  }

  /** How many leading rows lie above a cursor. */
  function AboveCount(rows: seq<Session>, c: Cursor): (m: nat)
    ensures m <= |rows|
  {
    if rows == [] || !Above(rows[0], c) then 0 else 1 + AboveCount(rows[1..], c)
  }

  /** How many leading rows do not lie below a cursor. */
  function BelowStart(rows: seq<Session>, c: Cursor): (m: nat)
    ensures m <= |rows|
  {
    if rows == [] || Below(rows[0], c) then 0 else 1 + BelowStart(rows[1..], c)
  }

  /** The n rows nearest to the cursor on the older side, newest first. */
  function AfterCursor(listing: seq<Session>, c: Cursor, n: nat): seq<Session> {
    Limit(Offset(listing, BelowStart(listing, c)), n)
  }

  /** The n rows nearest to the cursor on the newer side, oldest first. */
  function BeforeCursor(listing: seq<Session>, c: Cursor, n: nat): seq<Session> {
    var m := AboveCount(listing, c);
    Reverse(listing[(if m > n then m - n else 0)..m])
  }

  lemma {:induction false} AboveIsPrefix(rows: seq<Session>, c: Cursor)
    requires Descending(rows, SessionKey)
    ensures forall j :: 0 <= j < |rows| ==> (Above(rows[j], c) <==> j < AboveCount(rows, c))
  {
    if rows != [] {
      if Above(rows[0], c) {
        AboveIsPrefix(rows[1..], c);
        forall j | 1 <= j < |rows| ensures Above(rows[j], c) <==> j < AboveCount(rows, c) {
          assert rows[1..][j - 1] == rows[j];
        }
      } else {
        forall j | 1 <= j < |rows| ensures !Above(rows[j], c) {
          assert Less(SessionKey(rows[j]), SessionKey(rows[0]));
        }
      }
    }
  }

  lemma {:induction false} BelowIsSuffix(rows: seq<Session>, c: Cursor)
    requires Descending(rows, SessionKey)
    ensures forall j :: 0 <= j < |rows| ==> (Below(rows[j], c) <==> j >= BelowStart(rows, c))
  {
    if rows != [] {
      if !Below(rows[0], c) {
        BelowIsSuffix(rows[1..], c);
        forall j | 1 <= j < |rows| ensures Below(rows[j], c) <==> j >= BelowStart(rows, c) {
          assert rows[1..][j - 1] == rows[j];
        }
      } else {
        forall j | 1 <= j < |rows| ensures Below(rows[j], c) {
          assert Less(SessionKey(rows[j]), SessionKey(rows[0]));
        }
      }
    }
  }

  /** Any test applied to the table, ordered, keeps exactly the listed rows passing it. */
  lemma SelectedRows(table: seq<Session>, p: Session -> bool, rows: seq<Session>)
    requires Table(table)
    requires rows == Where(table, p)
    ensures DistinctKeys(rows, SessionKey)
    ensures forall s :: s in rows <==> s in table && p(s)
  {
    assert DistinctKeys(table, SessionKey);
    WhereKeepsDistinct(table, p, SessionKey);
    WhereIsFilter(table, p);
  }

  /** The listing holds every matching session once, strictly newest first. */
  lemma ListingShape(table: seq<Session>, q: Query)
    requires Table(table)
    ensures Sorted(Listing(table, q))
    ensures forall i, j :: 0 <= i < j < |Listing(table, q)| ==>
      var a, b := Listing(table, q)[i], Listing(table, q)[j];
      b.createdAt < a.createdAt || (b.createdAt == a.createdAt && b.id < a.id)
    ensures forall s :: s in Listing(table, q) <==>
      && s in table && s.userId == q.userId && !s.softDelete && s.finalizeStatus == Finalized && q.search(s)
    ensures |Listing(table, q)| == CountRows(table, q)
  {
    SelectedRows(table, s => Matches(q, s), Matching(table, q));
    OrderDescSorts(Matching(table, q), SessionKey);
    var listing := Listing(table, q);
    forall j, k | 0 <= j < k < |listing| ensures listing[j].id != listing[k].id {
      assert listing[j] in table && listing[k] in table;
      assert Less(SessionKey(listing[k]), SessionKey(listing[j]));
    }
  }

  lemma BelowSlice(table: seq<Session>, q: Query, c: Cursor)
    requires Table(table)
    ensures OrderDesc(MatchingBelow(table, q, c), SessionKey) == Listing(table, q)[BelowStart(Listing(table, q), c)..]
  {
    ListingShape(table, q);
    var listing, below := Listing(table, q), MatchingBelow(table, q, c);
    var i := BelowStart(listing, c);
    SelectedRows(table, s => Matches(q, s) && Below(s, c), below);
    BelowIsSuffix(listing, c);
    SliceElements(listing, i, |listing|, below, s => Below(s, c));
    OrderedSlice(below, listing, SessionKey, i, |listing|);
  }

  /** Paging forward reads the rows after the cursor. */
  lemma NextRows(table: seq<Session>, q: Query, c: Cursor, n: nat)
    requires Table(table)
    ensures CursorRows(table, q, Next, c, n) == AfterCursor(Listing(table, q), c, n)
  {
    BelowSlice(table, q, c);
  }

  lemma LimitReversed<T>(rows: seq<T>, m: nat, n: nat)
    requires m <= |rows|
    ensures Limit(Reverse(rows[..m]), n) == Reverse(rows[(if m > n then m - n else 0)..m])
  {
  }

  lemma AboveSlice(table: seq<Session>, q: Query, c: Cursor)
    requires Table(table)
    ensures OrderDesc(MatchingAbove(table, q, c), SessionKey) == Listing(table, q)[..AboveCount(Listing(table, q), c)]
  {
    ListingShape(table, q);
    var listing, above := Listing(table, q), MatchingAbove(table, q, c);
    var m := AboveCount(listing, c);
    SelectedRows(table, s => Matches(q, s) && Above(s, c), above);
    AboveIsPrefix(listing, c);
    SliceElements(listing, 0, m, above, s => Above(s, c));
    OrderedSlice(above, listing, SessionKey, 0, m);
  }

  /** Paging back reads the rows before the cursor, nearest first. */
  lemma PrevRows(table: seq<Session>, q: Query, c: Cursor, n: nat)
    requires Table(table)
    ensures CursorRows(table, q, Prev, c, n) == BeforeCursor(Listing(table, q), c, n)
  {
    AboveSlice(table, q, c);
    SelectedRows(table, s => Matches(q, s) && Above(s, c), MatchingAbove(table, q, c));
    AscIsReversedDesc(MatchingAbove(table, q, c), SessionKey);
    LimitReversed(Listing(table, q), AboveCount(Listing(table, q), c), n);
  }
}
