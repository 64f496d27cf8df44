/** Concrete listings on which the cut cursors of the session listing go wrong. */
module PagingWitnesses {
  import opened Prelude
  import opened Ordering
  import opened SessionPaging
  import opened SessionStatus
  import opened CursorQueries
  import opened PagingRefinement
  import opened PagingAnswers

  function SessionAt(id: int, createdAt: int): Session {
    Session(id, 7, createdAt, false, Finalized, "")
  }

  const EVERYTHING := Query(7, (s: Session) => true)

  /** Rows given newest first are their own listing. */
  lemma ListedAsGiven(table: seq<Session>, q: Query)
    requires Table(table) && Descending(table, SessionKey)
    requires forall i :: 0 <= i < |table| ==> Matches(q, table[i])
    ensures Listing(table, q) == table
  {
    ListingShape(table, q);
    forall s ensures s in Listing(table, q) <==> s in table {
    }
    hide Listing;
    DescendingUnique(Listing(table, q), table, SessionKey);
  }

  /** Sessions created 1.5 s and 1.2 s after the epoch, one to a page: the next cursor skips the second one. */
  lemma NextLosesASession(table: seq<Session>)
    requires table == [SessionAt(2, 1_500_000), SessionAt(1, 1_200_000)]
    ensures var second := Numbered(table, EVERYTHING, Some(1), 2);
      second.Some? && second.value.sessions == [Summary(1, 1_000_000, "")]
    ensures var next := FollowingNext(table, EVERYTHING, Some(1), 1); next.Some? && next.value.sessions == []
  {
    NextLosesARow(table);
    assert LimitOf(Some(1)) == 1;
    assert [Summarize(table[1])] == [Summary(1, 1_000_000, "")];
    hide *;
    NumberedAnswer(table, EVERYTHING, Some(1), 2);
    FollowingIs(table, EVERYTHING, Some(1), 1);
  }

  lemma NextLosesARow(table: seq<Session>)
    requires table == [SessionAt(2, 1_500_000), SessionAt(1, 1_200_000)]
    ensures JumpSessions(table, EVERYTHING, 1, 2) == [Summarize(table[1])]
    ensures FollowNext(table, EVERYTHING, 1, 1) == Some([])
  {
    ListedAsGiven(table, EVERYTHING);
    FollowNextIsChain(table, EVERYTHING, 1, 1);
    hide Listing, FollowNext;
    assert JumpSessions(table, EVERYTHING, 1, 2) == SummarizeAll(table[1..]);
    var first := PageAt(table, 1, 0);
    assert first == [Summarize(table[0])];
    var c := CursorOf(first[0]);
    assert c == Cursor(2, 1_000_000);
    assert !Below(table[0], c) && !Below(table[1], c);
    assert table[1..][1..] == [];
    assert BelowStart(table[1..], c) == 1 && BelowStart(table, c) == 2;
    assert PageAt(table, 1, 2) == [];
    assert Chain(table, 1, 0) == Some(first);
  }

  /** Sessions at 2.9 s, 1.5 s and 1.2 s: going back from the second shows the third instead of the first. */
  lemma PrevShowsALaterPage(table: seq<Session>)
    requires table == [SessionAt(3, 2_900_000), SessionAt(2, 1_500_000), SessionAt(1, 1_200_000)]
    ensures var second := Numbered(table, EVERYTHING, Some(1), 2);
      && second.Some? && second.value.sessions == [Summary(2, 1_000_000, "")]
      && var back := FollowingPrev(table, EVERYTHING, Some(1), second.value, 1);
         back.Some? && back.value.sessions == [Summary(1, 1_000_000, "")]
  {
    assert Table(table) && Descending(table, SessionKey);
    ListedAsGiven(table, EVERYTHING);
    PrevShowsALaterRow(table);
    NumberedAnswer(table, EVERYTHING, Some(1), 2);
    SecondOf(table);
    hide Numbered, FollowingPrev, CursorSessions, JumpSessions, CountRows, Listing, Table, Descending;
    assert LimitOf(Some(1)) == 1;
    StepBackFrom(table, EVERYTHING, Some(1), Numbered(table, EVERYTHING, Some(1), 2).value);
  }

  lemma SecondOf(table: seq<Session>)
    requires |table| == 3 && Listing(table, EVERYTHING) == table
    ensures JumpSessions(table, EVERYTHING, 1, 2) == [Summarize(table[1])]
  {
    hide Listing;
    assert Limit(Offset(table, (2 - 1) * 1), 1) == [table[1]];
  }

  lemma PrevShowsALaterRow(table: seq<Session>)
    requires table == [SessionAt(3, 2_900_000), SessionAt(2, 1_500_000), SessionAt(1, 1_200_000)]
    ensures CursorSessions(table, EVERYTHING, 1, Prev, Some(RowCursor(table, 1))) == [Summarize(table[2])]
  {
    assert Table(table) && Descending(table, SessionKey);
    ListedAsGiven(table, EVERYTHING);
    hide Listing, CursorSessions, AboveCount, Where, Descending, Table, BackShown;
    PrevIsBackShown(table, EVERYTHING, 1, 1);
    BackFromSecond(table);
  }

  lemma BackFromSecond(table: seq<Session>)
    requires table == [SessionAt(3, 2_900_000), SessionAt(2, 1_500_000), SessionAt(1, 1_200_000)]
    ensures BackShown(table, AboveCount(table, RowCursor(table, 1)), 1, 1) == [Summarize(table[2])]
  {
    AllAbove(table, RowCursor(table, 1));
    OneKept(table[2], table[1]);
    hide AboveCount, Where;
    var rows := Reverse(table[1..3]);
    assert rows == [table[2], table[1]];
    assert Where(rows, OtherThan(2)) == [table[2]];
  }

  lemma AllAbove(table: seq<Session>, c: Cursor)
    requires |table| == 3 && forall i :: 0 <= i < 3 ==> Above(table[i], c)
    ensures AboveCount(table, c) == 3
  {
    assert table[2..][1..] == [];
    assert AboveCount(table[2..], c) == 1;
    assert table[1..][1..] == table[2..] && AboveCount(table[1..], c) == 2;
  }

  lemma OneKept(kept: Session, dropped: Session)
    requires kept.id != dropped.id
    ensures Where([kept, dropped], OtherThan(dropped.id)) == [kept]
  {
    assert [kept, dropped][1..] == [dropped] && [dropped][1..] == [];
    assert Where([dropped], OtherThan(dropped.id)) == [];
  }
}
