/** What a client sees that follows the cursors of the pages it is answered, and asks for pages by number. */
module PagingAnswers {
  import opened Prelude
  import opened Ordering
  import opened SessionPaging
  import opened CursorQueries
  import opened PagingRefinement
  import opened PagingBack

  function Answered(r: Result<Page, Failure>): Option<Page> {
    if r.Ok? then Some(r.value) else None
  }

  /** Page k (from 0) of a client that asks for the first page and then with the next cursor of each page answered. */
  function FollowingNext(table: seq<Session>, q: Query, limit: Option<int>, k: nat): Option<Page> {
    if k == 0 then Answered(CursorOutcome(table, q, limit, Some("next"), None))
    else
      match FollowingNext(table, q, limit, k - 1)
      case None => None
      case Some(p) =>
        if p.next.None? then None else Answered(CursorOutcome(table, q, limit, Some("next"), p.next))
  }

  /** The page n pages back from one, asked for with the prev cursor of each page answered. */
  function FollowingPrev(table: seq<Session>, q: Query, limit: Option<int>, from: Page, n: nat): Option<Page> {
    if n == 0 then Some(from)
    else
      match FollowingPrev(table, q, limit, from, n - 1)
      case None => None
      case Some(p) =>
        if p.prev.None? then None else Answered(CursorOutcome(table, q, limit, Some("prev"), p.prev))
  }

  function Numbered(table: seq<Session>, q: Query, limit: Option<int>, page: int): Option<Page> {
    Answered(JumpOutcome(table, q, limit, Some(page)))
  }

  /** The sessions show these rows, in order, with times cut to seconds. */
  ghost predicate Shows(sessions: seq<Summary>, rows: seq<Session>) {
    && |sessions| == |rows|
    && forall i :: 0 <= i < |rows| ==>
      && sessions[i].id == rows[i].id && sessions[i].details == rows[i].details
      && sessions[i].createdAt % SECOND == 0 && 0 <= rows[i].createdAt - sessions[i].createdAt < SECOND
  }

  lemma SummarizeShows(rows: seq<Session>)
    ensures Shows(SummarizeAll(rows), rows)
  {
  }

  // ---------------------------------------------------------------- the answers and the sessions in them

  /** How many pages of a size rows fill. */
  function PageCount(count: nat, size: int): nat
    requires size >= 1
  {
    (count + size - 1) / size
  }

  /** What a page answers beyond its sessions. */
  ghost predicate Announces(p: Page, size: int, count: nat) {
    size >= 1 && p.pageSize == size && p.totalPages == PageCount(count, size)
  }

  lemma NextAnswer(table: seq<Session>, q: Query, limit: Option<int>, cursor: Option<Cursor>)
    requires LimitOf(limit) >= 1
    ensures var r := Answered(CursorOutcome(table, q, limit, Some("next"), cursor));
      && r.Some? && r.value.sessions == CursorSessions(table, q, LimitOf(limit), Next, cursor)
      && r.value.next == NextCursor(r.value.sessions)
      && r.value.prev == (if cursor.Some? then PrevCursor(r.value.sessions) else None)
      && Announces(r.value, LimitOf(limit), CountRows(table, q))
  {
    hide CursorSessions, CountRows;
  }

  /** The limit leaves room for the row more that is fetched on the way back. */
  predicate RoomForOne(limit: Option<int>) {
    1 <= LimitOf(limit) < INT32_LIMIT - 1
  }

  lemma PrevAnswer(table: seq<Session>, q: Query, limit: Option<int>, c: Cursor)
    requires RoomForOne(limit)
    ensures var r := Answered(CursorOutcome(table, q, limit, Some("prev"), Some(c)));
      && r.Some? && r.value.sessions == CursorSessions(table, q, LimitOf(limit), Prev, Some(c))
      && r.value.next == NextCursor(r.value.sessions) && r.value.prev == PrevCursor(r.value.sessions)
      && Announces(r.value, LimitOf(limit), CountRows(table, q))
  {
    hide CursorSessions, CountRows;
  }

  lemma NumberedAnswer(table: seq<Session>, q: Query, limit: Option<int>, page: int)
    requires LimitOf(limit) >= 1 && page >= 1
    ensures var r := Numbered(table, q, limit, page);
      && r.Some? && r.value.sessions == JumpSessions(table, q, LimitOf(limit), page)
      && r.value.next == NextCursor(r.value.sessions) && r.value.prev == PrevCursor(r.value.sessions)
      && Announces(r.value, LimitOf(limit), CountRows(table, q))
  {
    hide JumpSessions, CountRows;
  }

  /** Followed through the answers, the chain shows what it shows followed through the sessions. */
  lemma {:induction false} FollowingIs(table: seq<Session>, q: Query, limit: Option<int>, k: nat)
    requires LimitOf(limit) >= 1
    ensures var p, s := FollowingNext(table, q, limit, k), FollowNext(table, q, LimitOf(limit), k);
      && (p.Some? <==> s.Some?)
      && (p.Some? ==> p.value.sessions == s.value && p.value.next == NextCursor(s.value)
                      && p.value.prev == (if k > 0 then PrevCursor(s.value) else None)
                      && Announces(p.value, LimitOf(limit), CountRows(table, q)))
  {
    hide CursorOutcome, CursorSessions, CountRows, NextCursor, PrevCursor, LimitOf, Announces;
    if k == 0 {
      NextAnswer(table, q, limit, None);
    } else {
      FollowingIs(table, q, limit, k - 1);
      var before := FollowingNext(table, q, limit, k - 1);
      if before.Some? {
        NextAnswer(table, q, limit, before.value.next);
      }
    }
  }

  // ---------------------------------------------------------------- forward

  /** Page k of the chain and page k + 1 by number show the same sessions. */
  ghost predicate SamePage(table: seq<Session>, q: Query, limit: Option<int>, k: nat) {
    var p, n := FollowingNext(table, q, limit, k), Numbered(table, q, limit, k + 1);
    p.Some? && n.Some? && p.value.sessions == n.value.sessions
  }

  lemma SameIffAgrees(table: seq<Session>, q: Query, limit: Option<int>, k: nat)
    requires LimitOf(limit) >= 1
    ensures SamePage(table, q, limit, k) <==> AgreesAt(table, q, LimitOf(limit), k)
  {
    FollowingIs(table, q, limit, k);
    NumberedAnswer(table, q, limit, k + 1);
    hide FollowingNext, Numbered, FollowNext, JumpSessions;
  }

  /**
   Following the next cursors of the answers agrees with the numbered pages up to page k, exactly when behind every page
   boundary crossed the next row lies below the cursor cut to seconds.
   */
  lemma AnswersAgree(table: seq<Session>, q: Query, limit: Option<int>, k: nat)
    requires Table(table) && LimitOf(limit) >= 1 && k * LimitOf(limit) < |Listing(table, q)|
    ensures (forall j: nat :: j <= k ==> SamePage(table, q, limit, j))
       <==> CleanUpTo(Listing(table, q), LimitOf(limit), k)
  {
    hide Listing, SamePage, AgreesAt, CleanUpTo, Table, LimitOf;
    NextChainIsJump(table, q, LimitOf(limit), k);
    forall j: nat ensures SamePage(table, q, limit, j) <==> AgreesAt(table, q, LimitOf(limit), j) {
      SameIffAgrees(table, q, limit, j);
    }
  }

  /** The page shows the stretch of the listing from row i and announces the number of pages. */
  ghost predicate ShowsFrom(p: Page, listing: seq<Session>, size: int, i: int) {
    && size >= 1 && 0 <= i <= |listing|
    && Shows(p.sessions, listing[i..if i + size < |listing| then i + size else |listing|])
    && p.pageSize == size && p.totalPages == PageCount(|listing|, size)
  }

  lemma NumberedShows(table: seq<Session>, q: Query, limit: Option<int>, page: int, i: int)
    requires Table(table) && LimitOf(limit) >= 1 && page >= 1
    requires i == (page - 1) * LimitOf(limit) && 0 <= i <= |Listing(table, q)|
    ensures var p := Numbered(table, q, limit, page);
      p.Some? && ShowsFrom(p.value, Listing(table, q), LimitOf(limit), i)
  {
    NumberedAnswer(table, q, limit, page);
    ListingShape(table, q);
    var listing := Listing(table, q);
    hide LimitOf, Listing, Numbered, Summarize, CountRows, NextCursor, PrevCursor, Table, PageCount;
    assert JumpSessions(table, q, LimitOf(limit), page) == SummarizeAll(Limit(Offset(listing, i), LimitOf(limit)));
    hide JumpSessions;
    LimitShows(listing, i, LimitOf(limit));
  }

  lemma LimitShows(listing: seq<Session>, i: nat, size: nat)
    requires i <= |listing|
    ensures Shows(SummarizeAll(Limit(Offset(listing, i), size)),
                  listing[i..if i + size < |listing| then i + size else |listing|])
  {
    SummarizeShows(Limit(Offset(listing, i), size));
    hide Shows;
    assert Limit(Offset(listing, i), size) == listing[i..if i + size < |listing| then i + size else |listing|];
  }

  /**
   With at most one matching session per second a client that follows the next cursors is shown the listing cut into
   pages, page k being the one numbered k + 1; every page announces how many there are; then comes an empty page, which
   has no next cursor.
   */
  lemma AnswersListEverything(table: seq<Session>, q: Query, limit: Option<int>, total: nat)
    requires Table(table) && LimitOf(limit) >= 1 && OnePerSecond(table, q)
    requires total == PageCount(|Listing(table, q)|, LimitOf(limit))
    ensures forall k: nat :: k < total ==> SamePage(table, q, limit, k) && PageShown(table, q, limit, k)
    ensures FollowingNext(table, q, limit, total).Some?
    ensures FollowingNext(table, q, limit, total).value.sessions == []
    ensures FollowingNext(table, q, limit, total + 1) == None
  {
    ListingShape(table, q);
    ChainListsEverything(table, q, LimitOf(limit), total);
    FollowingIs(table, q, limit, total);
    FollowingIs(table, q, limit, total + 1);
    hide FollowingNext, FollowNext, Listing, Table, OnePerSecond, LimitOf;
    forall k: nat | k < total ensures SamePage(table, q, limit, k) && PageShown(table, q, limit, k) {
      SameIffAgrees(table, q, limit, k);
      ShownPage(table, q, limit, total, k);
    }
  }

  /** Page k of the chain shows its stretch of the listing. */
  ghost predicate PageShown(table: seq<Session>, q: Query, limit: Option<int>, k: nat) {
    var p := FollowingNext(table, q, limit, k);
    p.Some? && ShowsFrom(p.value, Listing(table, q), LimitOf(limit), k * LimitOf(limit))
  }

  lemma ShownPage(table: seq<Session>, q: Query, limit: Option<int>, total: nat, k: nat)
    requires Table(table) && LimitOf(limit) >= 1 && k < total && SamePage(table, q, limit, k)
    requires total == PageCount(|Listing(table, q)|, LimitOf(limit))
    ensures PageShown(table, q, limit, k)
  {
    var size, n := LimitOf(limit), |Listing(table, q)|;
    ListingShape(table, q);
    FollowingIs(table, q, limit, k);
    PageStarts(n, size, total, k);
    NumberedShows(table, q, limit, k + 1, k * size);
    assert Announces(FollowingNext(table, q, limit, k).value, size, n);
    hide LimitOf, Listing, FollowingNext, FollowNext, Shows, Numbered, Table, NextCursor, PrevCursor, CountRows,
      PageCount;
    SameShows(FollowingNext(table, q, limit, k).value, Numbered(table, q, limit, k + 1).value, Listing(table, q), size,
              k * size);
  }

  lemma SameShows(p: Page, n: Page, listing: seq<Session>, size: int, i: int)
    requires p.sessions == n.sessions && Announces(p, size, |listing|) && ShowsFrom(n, listing, size, i)
    ensures ShowsFrom(p, listing, size, i)
  {
    hide Shows, PageCount;
  }

  lemma PageStarts(n: nat, size: int, total: nat, k: nat)
    requires size >= 1 && total == PageCount(n, size) && k < total
    ensures 0 <= k * size < n && k * size == (k + 1 - 1) * size
  {
    PageIndex(n, size, k);
    MulMonotone(0, k, size);
  }

  // ---------------------------------------------------------------- back

  lemma StepBack(table: seq<Session>, q: Query, limit: Option<int>, from: Page, n: nat, p: Page)
    requires RoomForOne(limit) && FollowingPrev(table, q, limit, from, n) == Some(p)
    ensures var next := FollowingPrev(table, q, limit, from, n + 1);
      && (p.prev.None? ==> next == None)
      && (p.prev.Some? ==>
           && next.Some? && next.value.sessions == CursorSessions(table, q, LimitOf(limit), Prev, p.prev)
           && next.value.prev == PrevCursor(next.value.sessions))
  {
    if p.prev.Some? {
      PrevAnswer(table, q, limit, p.prev.value);
    }
    hide CursorOutcome, CursorSessions, LimitOf, PrevCursor;
  }

  /** Followed back through the answers, from the page a cursor names. */
  lemma {:induction false} FollowingBackIs(
    table: seq<Session>, q: Query, limit: Option<int>, from: Page, c: Cursor, n: nat)
    requires RoomForOne(limit) && from.prev == Some(c)
    ensures var p, s := FollowingPrev(table, q, limit, from, n + 1), FollowPrev(table, q, LimitOf(limit), c, n);
      && (p.Some? <==> s.Some?)
      && (p.Some? ==> p.value.sessions == s.value && p.value.prev == PrevCursor(s.value))
    decreases n
  {
    hide FollowPrev, FollowingPrev;
    assert LimitOf(limit) >= 1;
    hide *;
    if n == 0 {
      OneStepBack(table, q, limit, from, c);
    } else {
      FollowingBackIs(table, q, limit, from, c, n - 1);
      FollowPrevLater(table, q, LimitOf(limit), c, n - 1, FollowPrev(table, q, LimitOf(limit), c, n - 1));
      var before := FollowingPrev(table, q, limit, from, n);
      if before.Some? {
        StepBack(table, q, limit, from, n, before.value);
      } else {
        NoStepBack(table, q, limit, from, n);
      }
    }
  }

  lemma OneStepBack(table: seq<Session>, q: Query, limit: Option<int>, from: Page, c: Cursor)
    requires RoomForOne(limit) && from.prev == Some(c)
    ensures var p, s := FollowingPrev(table, q, limit, from, 1), FollowPrev(table, q, LimitOf(limit), c, 0);
      p.Some? && s.Some? && p.value.sessions == s.value && p.value.prev == PrevCursor(s.value)
  {
    assert FollowingPrev(table, q, limit, from, 0) == Some(from);
    StepBack(table, q, limit, from, 0, from);
    hide CursorSessions, PrevCursor, LimitOf, FollowingPrev;
  }

  lemma NoStepBack(table: seq<Session>, q: Query, limit: Option<int>, from: Page, n: nat)
    requires FollowingPrev(table, q, limit, from, n) == None
    ensures FollowingPrev(table, q, limit, from, n + 1) == None
  {
    hide CursorOutcome;
  }

  lemma {:induction false} FollowPrevLater(
    table: seq<Session>, q: Query, pageSize: nat, c: Cursor, n: nat, s: Option<seq<Summary>>)
    requires s == FollowPrev(table, q, pageSize, c, n)
    ensures s.None? || PrevCursor(s.value).None? ==> FollowPrev(table, q, pageSize, c, n + 1) == None
    ensures s.Some? && PrevCursor(s.value).Some? ==>
      FollowPrev(table, q, pageSize, c, n + 1)
        == Some(CursorSessions(table, q, pageSize, Prev, PrevCursor(s.value)))
    decreases n
  {
    hide CursorSessions, PrevCursor;
    var page := CursorSessions(table, q, pageSize, Prev, Some(c));
    if n > 0 && PrevCursor(page).Some? {
      FollowPrevLater(table, q, pageSize, PrevCursor(page).value, n - 1, s);
    }
  }

  /** The page's prev cursor is that of row i, its first session. */
  ghost predicate StartsAt(p: Page, listing: seq<Session>, i: nat) {
    && i < |listing| && p.sessions != []
    && p.sessions[0].id == listing[i].id && p.sessions[0].createdAt == ToSecond(listing[i].createdAt)
    && p.prev == Some(Cursor(p.sessions[0].id, p.sessions[0].createdAt))
  }

  lemma StartsAtRow(p: Page, listing: seq<Session>, i: nat)
    requires StartsAt(p, listing, i)
    ensures p.prev == Some(RowCursor(listing, i))
  {
  }

  /** A numbered page starts at its row. */
  lemma NumberedStarts(table: seq<Session>, q: Query, limit: Option<int>, page: int, i: nat)
    requires Table(table) && LimitOf(limit) >= 1 && page >= 1
    requires i == (page - 1) * LimitOf(limit) && i < |Listing(table, q)|
    ensures var p := Numbered(table, q, limit, page); p.Some? && StartsAt(p.value, Listing(table, q), i)
  {
    NumberedAnswer(table, q, limit, page);
    hide LimitOf, Listing, Numbered, CountRows;
    assert JumpSessions(table, q, LimitOf(limit), page)
        == SummarizeAll(Limit(Offset(Listing(table, q), i), LimitOf(limit)));
  }

  /** The sessions of the n pages back from one; each page comes before the ones shown earlier. */
  function CollectedPrev(table: seq<Session>, q: Query, limit: Option<int>, from: Page, n: nat): seq<Summary> {
    if n == 0 then []
    else
      var p := FollowingPrev(table, q, limit, from, n);
      (if p.Some? then p.value.sessions else []) + CollectedPrev(table, q, limit, from, n - 1)
  }

  lemma {:induction false} CollectedBackLater(table: seq<Session>, q: Query, pageSize: nat, c: Cursor, n: nat)
    ensures var s := FollowPrev(table, q, pageSize, c, n);
      CollectedBack(table, q, pageSize, c, n + 1)
        == (if s.Some? then s.value else []) + CollectedBack(table, q, pageSize, c, n)
    decreases n
  {
    hide CursorSessions;
    var page := CursorSessions(table, q, pageSize, Prev, Some(c));
    if PrevCursor(page).Some? {
      if n == 0 {
        assert CollectedBack(table, q, pageSize, PrevCursor(page).value, 0) == [];
      } else {
        CollectedBackLater(table, q, pageSize, PrevCursor(page).value, n - 1);
      }
    }
  }

  lemma {:induction false} CollectedIs(
    table: seq<Session>, q: Query, limit: Option<int>, from: Page, c: Cursor, n: nat, size: nat)
    requires RoomForOne(limit) && from.prev == Some(c) && size == LimitOf(limit)
    ensures CollectedPrev(table, q, limit, from, n) == CollectedBack(table, q, size, c, n)
    decreases n
  {
    hide *;
    if n == 0 {
      CollectedNone(table, q, limit, from, c, size);
    } else {
      CollectedIs(table, q, limit, from, c, n - 1, size);
      FollowingBackIs(table, q, limit, from, c, n - 1);
      CollectedBackLater(table, q, size, c, n - 1);
      OneMore(table, q, limit, from, n, FollowPrev(table, q, size, c, n - 1));
    }
  }

  lemma CollectedNone(table: seq<Session>, q: Query, limit: Option<int>, from: Page, c: Cursor, size: nat)
    ensures CollectedPrev(table, q, limit, from, 0) == [] && CollectedBack(table, q, size, c, 0) == []
  {
    hide FollowingPrev, CursorSessions;
  }

  lemma OneMore(table: seq<Session>, q: Query, limit: Option<int>, from: Page, n: nat, s: Option<seq<Summary>>)
    requires n > 0
    requires var p := FollowingPrev(table, q, limit, from, n);
      (p.Some? <==> s.Some?) && (p.Some? ==> p.value.sessions == s.value)
    ensures CollectedPrev(table, q, limit, from, n)
         == (if s.Some? then s.value else []) + CollectedPrev(table, q, limit, from, n - 1)
  {
    hide FollowingPrev;
  }

  /**
   With at most one matching session per second a client that follows the prev cursors from a page starting at row i is
   shown every row before it once, in order; then comes an empty page, which has no prev cursor.
   */
  lemma PrevAnswersShowAll(table: seq<Session>, q: Query, limit: Option<int>, from: Page, i: nat)
    requires Table(table) && OnePerSecond(table, q) && RoomForOne(limit)
    requires StartsAt(from, Listing(table, q), i)
    ensures var listing := Listing(table, q);
      var n := PagesBack(listing, i, LimitOf(limit));
      && Shows(CollectedPrev(table, q, limit, from, n), listing[..i])
      && FollowingPrev(table, q, limit, from, n + 1).Some?
      && FollowingPrev(table, q, limit, from, n + 1).value.sessions == []
      && FollowingPrev(table, q, limit, from, n + 2) == None
  {
    hide Listing, Table, OnePerSecond, CollectedPrev, FollowingPrev, PagesBack, Shows, LimitOf;
    var listing := Listing(table, q);
    assert LimitOf(limit) >= 1 && i < |listing|;
    hide *;
    StartsAtRow(from, listing, i);
    PrevChainShowsAll(table, q, i, LimitOf(limit));
    PrevShown(table, q, limit, from, RowCursor(listing, i), PagesBack(listing, i, LimitOf(limit)), listing[..i]);
  }

  /** What a chain of sessions shows, its answers show. */
  lemma PrevShown(
    table: seq<Session>, q: Query, limit: Option<int>, from: Page, c: Cursor, n: nat, rows: seq<Session>)
    requires RoomForOne(limit) && from.prev == Some(c)
    requires CollectedBack(table, q, LimitOf(limit), c, n) == SummarizeAll(rows)
    requires FollowPrev(table, q, LimitOf(limit), c, n) == Some([])
    requires FollowPrev(table, q, LimitOf(limit), c, n + 1) == None
    ensures Shows(CollectedPrev(table, q, limit, from, n), rows)
    ensures FollowingPrev(table, q, limit, from, n + 1).Some?
    ensures FollowingPrev(table, q, limit, from, n + 1).value.sessions == []
    ensures FollowingPrev(table, q, limit, from, n + 2) == None
  {
    assert LimitOf(limit) >= 1;
    hide *;
    CollectedIs(table, q, limit, from, c, n, LimitOf(limit));
    FollowingBackIs(table, q, limit, from, c, n);
    FollowingBackIs(table, q, limit, from, c, n + 1);
    SummarizeShows(rows);
  }

  lemma ChainStarts(table: seq<Session>, q: Query, limit: Option<int>, k: nat, i: nat)
    requires Table(table) && LimitOf(limit) >= 1 && k >= 1
    requires i == k * LimitOf(limit) && i < |Listing(table, q)| && SamePage(table, q, limit, k)
    ensures StartsAt(FollowingNext(table, q, limit, k).value, Listing(table, q), i)
    ensures Numbered(table, q, limit, k + 1).Some?
    ensures StartsAt(Numbered(table, q, limit, k + 1).value, Listing(table, q), i)
  {
    hide Listing, Table, Numbered, FollowingNext, LimitOf, StartsAt;
    var p, other := Numbered(table, q, limit, k + 1), FollowingNext(table, q, limit, k);
    assert p.Some? && other.Some? && p.value.sessions == other.value.sessions;
    assert (k + 1 - 1) * LimitOf(limit) == i;
    hide *;
    NumberedStarts(table, q, limit, k + 1, i);
    PrevOf(table, q, limit, k);
    SameStart(p.value, other.value, Listing(table, q), i);
  }

  lemma PrevOf(table: seq<Session>, q: Query, limit: Option<int>, k: nat)
    requires LimitOf(limit) >= 1 && k >= 1
    ensures Numbered(table, q, limit, k + 1).Some?
    ensures var p := Numbered(table, q, limit, k + 1).value; p.prev == PrevCursor(p.sessions)
    ensures var p := FollowingNext(table, q, limit, k); p.Some? ==> p.value.prev == PrevCursor(p.value.sessions)
  {
    FollowingIs(table, q, limit, k);
    NumberedAnswer(table, q, limit, k + 1);
    hide LimitOf, Numbered, FollowingNext, FollowNext, JumpSessions, CountRows, PrevCursor, Announces;
  }

  lemma SameStart(p: Page, other: Page, listing: seq<Session>, i: nat)
    requires StartsAt(p, listing, i) && other.sessions == p.sessions && other.prev == p.prev
    ensures StartsAt(other, listing, i)
  {
  }

  /** From the page numbered k + 1, and from page k of the chain, the way back shows every row before. */
  lemma ThereAndBack(table: seq<Session>, q: Query, limit: Option<int>, k: nat, i: nat)
    requires Table(table) && OnePerSecond(table, q) && RoomForOne(limit) && k >= 1
    requires i == k * LimitOf(limit) && i < |Listing(table, q)| && SamePage(table, q, limit, k)
    ensures var listing, n := Listing(table, q), PagesBack(Listing(table, q), i, LimitOf(limit));
      && n <= k
      && Shows(CollectedPrev(table, q, limit, Numbered(table, q, limit, k + 1).value, n), listing[..i])
      && Shows(CollectedPrev(table, q, limit, FollowingNext(table, q, limit, k).value, n), listing[..i])
  {
    assert LimitOf(limit) >= 1;
    assert FollowingNext(table, q, limit, k).Some?;
    hide *;
    ChainStarts(table, q, limit, k, i);
    PagesBackBound(Listing(table, q), i, LimitOf(limit), k);
    PrevAnswersShowAll(table, q, limit, Numbered(table, q, limit, k + 1).value, i);
    PrevAnswersShowAll(table, q, limit, FollowingNext(table, q, limit, k).value, i);
  }

  /**
   Going back undoes going on: from the page numbered k + 1 the prev cursor leads to a page that ends with the page
   numbered k; it is that page unless its row sits on a whole second and a page lies before page k, when one extra row
   comes first.
   */
  lemma PrevUndoesNumbered(table: seq<Session>, q: Query, limit: Option<int>, k: nat, i: nat)
    requires Table(table) && RoomForOne(limit) && k >= 1 && i == k * LimitOf(limit) && i < |Listing(table, q)|
    requires QuietAfter(Listing(table, q), i)
    ensures Numbered(table, q, limit, k).Some? && Numbered(table, q, limit, k + 1).Some?
    ensures var page, size := Numbered(table, q, limit, k).value.sessions, LimitOf(limit);
      var back := FollowingPrev(table, q, limit, Numbered(table, q, limit, k + 1).value, 1);
      && back.Some? && size <= |back.value.sessions| <= size + 1
      && back.value.sessions[|back.value.sessions| - size..] == page
      && (back.value.sessions == page <==> !WholeSecond(Listing(table, q)[i]) || k == 1)
  {
    PrevUndoesNext(table, q, LimitOf(limit), k, i);
    hide LimitOf, Listing, FollowingPrev, Numbered, JumpSessions, CursorSessions, QuietAfter, Table, CountRows,
      NextCursor, PrevCursor, Announces, WholeSecond;
    NumberedAnswer(table, q, limit, k);
    NumberedAnswer(table, q, limit, k + 1);
    StepBackFrom(table, q, limit, Numbered(table, q, limit, k + 1).value);
  }

  lemma StepBackFrom(table: seq<Session>, q: Query, limit: Option<int>, from: Page)
    requires RoomForOne(limit) && from.prev.Some?
    ensures var next := FollowingPrev(table, q, limit, from, 1);
      next.Some? && next.value.sessions == CursorSessions(table, q, LimitOf(limit), Prev, from.prev)
  {
    assert FollowingPrev(table, q, limit, from, 0) == Some(from);
    hide CursorSessions, LimitOf, FollowingPrev, RoomForOne;
    StepBack(table, q, limit, from, 0, from);
  }

  // ---------------------------------------------------------------- what a request leaves out

  /** No page type is "next", any other than the two is refused, and no page number is page 1 without a way back. */
  lemma Defaults(table: seq<Session>, q: Query, limit: Option<int>, cursor: Option<Cursor>)
    ensures CursorOutcome(table, q, limit, None, cursor) == CursorOutcome(table, q, limit, Some("next"), cursor)
    ensures forall name :: CursorOutcome(table, q, limit, Some(name), cursor) == Err(InvalidType)
                           <==> name != "next" && name != "prev"
    ensures CursorOutcome(table, q, None, Some("next"), cursor)
         == CursorOutcome(table, q, Some(20), Some("next"), cursor)
    ensures JumpOutcome(table, q, None, None) == JumpOutcome(table, q, Some(20), None)
    ensures var first, none := JumpOutcome(table, q, limit, Some(1)), JumpOutcome(table, q, limit, None);
      && (none.Ok? <==> first.Ok?)
      && (none.Ok? ==> none.value == first.value.(prev := None))
      && (none.Err? ==> none.error == first.error)
  {
    hide CursorPage, JumpSessions, CountRows, TotalPages;
  }

  /** Asked for without a cursor, the page before is the first page with one row more, read backwards. */
  lemma BackFromNowhere(table: seq<Session>, q: Query, limit: Option<int>)
    requires RoomForOne(limit)
    ensures var r := CursorOutcome(table, q, limit, Some("prev"), None);
      && r.Ok? && r.value.prev == None
      && Shows(Reverse(r.value.sessions), Limit(Listing(table, q), LimitOf(limit) + 1))
  {
    var rows := Limit(Listing(table, q), LimitOf(limit) + 1);
    hide Listing, CountRows, TotalPages, Limit, SummarizeAll, Shows;
    SummarizeShows(rows);
    assert FetchOf(LimitOf(limit), Prev) == LimitOf(limit) + 1;
    hide ToInt32;
    assert CursorSessions(table, q, LimitOf(limit), Prev, None) == Reverse(SummarizeAll(rows));
    ReverseBack(SummarizeAll(rows));
  }

  lemma ReverseBack<T>(s: seq<T>)
    ensures Reverse(Reverse(s)) == s
  {
  }
}
