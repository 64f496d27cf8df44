/** Cursor paging refines paging by page number, and going back undoes going forward. */
module PagingRefinement {
  import opened Prelude
  import opened Ordering
  import opened SessionPaging
  import opened CursorQueries

  /** No two matching sessions were created within the same whole second. */
  ghost predicate OnePerSecond(table: seq<Session>, q: Query) {
    forall s, t :: s in table && t in table && Matches(q, s) && Matches(q, t) && s.id != t.id ==>
      ToSecond(s.createdAt) != ToSecond(t.createdAt)
  }

  /** The cursor a client holds after seeing row i. */
  function RowCursor(listing: seq<Session>, i: nat): Cursor
    requires i < |listing|
  {
    CursorOf(Summarize(listing[i]))
  }

  /** The row behind the page boundary at i lies below the cursor of the row before it, cut to whole seconds. */
  predicate CleanBoundary(listing: seq<Session>, i: nat) {
    0 < i < |listing| ==> Below(listing[i], RowCursor(listing, i - 1))
  }

  ghost predicate CleanUpTo(listing: seq<Session>, pageSize: nat, k: nat) {
    forall j: nat :: 1 <= j <= k ==> CleanPage(listing, pageSize, j)
  }

  /** The boundary between page k and page k + 1 is clean. */
  predicate CleanPage(listing: seq<Session>, pageSize: nat, k: nat) {
    CleanBoundary(listing, k * pageSize)
  }

  /** The sessions of one page of the listing. */
  function PageAt(listing: seq<Session>, pageSize: nat, start: nat): seq<Summary> {
    SummarizeAll(Limit(Offset(listing, start), pageSize))
  }

  /**
   The sessions on page k (from 0) of a client that starts at the first page and keeps following the next cursor;
   none once a page carries no next cursor.
   */
  function FollowNext(table: seq<Session>, q: Query, pageSize: nat, k: nat): Option<seq<Summary>> {
    if k == 0 then Some(CursorSessions(table, q, pageSize, Next, None))
    else match FollowNext(table, q, pageSize, k - 1)
      case None => None
      case Some(sessions) =>
        if NextCursor(sessions).None? then None
        else Some(CursorSessions(table, q, pageSize, Next, NextCursor(sessions)))
  }

  /** The page the next cursor of a page leads to, read off the listing. */
  function PageAfter(listing: seq<Session>, pageSize: nat, sessions: seq<Summary>): Option<seq<Summary>> {
    match NextCursor(sessions)
    case None => None
    case Some(c) => Some(PageAt(listing, pageSize, BelowStart(listing, c)))
  }

  /** The chain of pages read off the listing. */
  function Chain(listing: seq<Session>, pageSize: nat, k: nat): Option<seq<Summary>> {
    if k == 0 then Some(PageAt(listing, pageSize, 0))
    else match Chain(listing, pageSize, k - 1)
      case None => None
      case Some(sessions) => PageAfter(listing, pageSize, sessions)
  }

  lemma FirstSessions(table: seq<Session>, q: Query, pageSize: nat)
    ensures CursorSessions(table, q, pageSize, Next, None) == PageAt(Listing(table, q), pageSize, 0)
  {
    hide Listing;
    assert Offset(Listing(table, q), 0) == Listing(table, q);
  }

  lemma NextSessions(table: seq<Session>, q: Query, pageSize: nat, c: Cursor)
    requires Table(table)
    ensures CursorSessions(table, q, pageSize, Next, Some(c))
         == PageAt(Listing(table, q), pageSize, BelowStart(Listing(table, q), c))
  {
    NextRows(table, q, c, pageSize);
    hide Listing, BelowStart, CursorRows, Limit, Offset;
  }

  lemma {:induction false} FollowNextIsChain(table: seq<Session>, q: Query, pageSize: nat, k: nat)
    requires Table(table)
    ensures FollowNext(table, q, pageSize, k) == Chain(Listing(table, q), pageSize, k)
  {
    hide Listing, CursorSessions, PageAt, BelowStart, Table;
    if k == 0 {
      FirstSessions(table, q, pageSize);
    } else {
      FollowNextIsChain(table, q, pageSize, k - 1);
      var before := FollowNext(table, q, pageSize, k - 1);
      if before.Some? && NextCursor(before.value).Some? {
        NextSessions(table, q, pageSize, NextCursor(before.value).value);
      }
    }
  }

  // ---------------------------------------------------------------- going forward

  lemma BelowStartAt(listing: seq<Session>, i: nat)
    requires Sorted(listing) && 0 < i <= |listing|
    ensures BelowStart(listing, RowCursor(listing, i - 1)) >= i
    ensures BelowStart(listing, RowCursor(listing, i - 1)) == i <==> CleanBoundary(listing, i)
  {
    var c := RowCursor(listing, i - 1);
    BelowIsSuffix(listing, c);
    assert !Below(listing[i - 1], c);
  }

  /** Two neighbours share a second in a way their cut cursor cannot tell: the older is not a lower id on the second. */
  predicate SplitsSecond(newer: Session, older: Session) {
    ToSecond(newer.createdAt) == ToSecond(older.createdAt) && !(WholeSecond(older) && older.id < newer.id)
  }

  /** The conditions for going forward and for going back are the same, and can be read off the two rows. */
  lemma BoundaryCondition(listing: seq<Session>, i: nat)
    requires Sorted(listing) && 0 < i < |listing|
    ensures CleanBoundary(listing, i) <==> !SplitsSecond(listing[i - 1], listing[i])
    ensures QuietAfter(listing, i - 1) <==> !SplitsSecond(listing[i - 1], listing[i])
  {
    assert Less(SessionKey(listing[i]), SessionKey(listing[i - 1]));
    assert listing[i - 1].id != listing[i].id;
    SecondOrder(listing[i - 1].createdAt, listing[i].createdAt);
  }

  lemma SecondOrder(a: int, b: int)
    requires b <= a
    ensures b < ToSecond(a) <==> ToSecond(b) != ToSecond(a)
    ensures ToSecond(b) <= b && ToSecond(b) <= ToSecond(a)
    ensures b == ToSecond(b) <==> b % SECOND == 0
  {
  }

  lemma PageStart(listing: seq<Session>, pageSize: nat, i: nat, j: nat)
    requires Sorted(listing) && pageSize >= 1 && i < |listing| && i <= j
    ensures PageAt(listing, pageSize, i) == PageAt(listing, pageSize, j) <==> i == j
  {
    var a, b := PageAt(listing, pageSize, i), PageAt(listing, pageSize, j);
    assert a[0].id == listing[i].id;
    if i < j < |listing| {
      assert b[0].id == listing[j].id;
    }
  }

  lemma LastOfPage(listing: seq<Session>, pageSize: nat, i: nat)
    requires pageSize >= 1 && i < |listing|
    ensures var end := if i + pageSize < |listing| then i + pageSize else |listing|;
            NextCursor(PageAt(listing, pageSize, i)) == Some(RowCursor(listing, end - 1))
  {
  }

  /** From the page ending before row i, the next cursor leads to the page from row i, exactly at a clean boundary. */
  lemma PageAfterIs(listing: seq<Session>, pageSize: nat, i: nat)
    requires Sorted(listing) && 1 <= pageSize <= i < |listing|
    ensures PageAfter(listing, pageSize, PageAt(listing, pageSize, i - pageSize)) == Some(PageAt(listing, pageSize, i))
       <==> CleanBoundary(listing, i)
  {
    hide PageAt, Sorted, CleanBoundary, BelowStart, RowCursor;
    LastOfPage(listing, pageSize, i - pageSize);
    BelowStartAt(listing, i);
    PageStart(listing, pageSize, i, BelowStart(listing, RowCursor(listing, i - 1)));
  }

  lemma PageAfterLast(listing: seq<Session>, pageSize: nat, i: nat)
    requires Sorted(listing) && 1 <= pageSize && i < |listing| <= i + pageSize
    ensures PageAfter(listing, pageSize, PageAt(listing, pageSize, i)) == Some([])
  {
    LastOfPage(listing, pageSize, i);
    BelowStartAt(listing, |listing|);
    assert SummarizeAll([]) == [];
  }

  lemma ChainStep(listing: seq<Session>, pageSize: nat, k: nat, i: nat)
    requires Sorted(listing) && 1 <= pageSize <= i < |listing| && k >= 1
    requires Chain(listing, pageSize, k - 1) == Some(PageAt(listing, pageSize, i - pageSize))
    ensures Chain(listing, pageSize, k) == Some(PageAt(listing, pageSize, i)) <==> CleanBoundary(listing, i)
  {
    PageAfterIs(listing, pageSize, i);
  }

  lemma ChainEnd(listing: seq<Session>, pageSize: nat, k: nat, i: nat)
    requires Sorted(listing) && 1 <= pageSize && i < |listing| <= i + pageSize && k >= 1
    requires Chain(listing, pageSize, k - 1) == Some(PageAt(listing, pageSize, i))
    ensures Chain(listing, pageSize, k) == Some([])
    ensures Chain(listing, pageSize, k + 1) == None
  {
    PageAfterLast(listing, pageSize, i);
  }

  lemma MulMonotone(j: nat, k: nat, n: nat)
    requires j <= k
    ensures j * n <= k * n
  {
  }

  lemma StartBefore(k: nat, pageSize: nat, i: nat)
    requires k >= 1 && i == k * pageSize
    ensures i >= pageSize && i - pageSize == (k - 1) * pageSize
  {
  }

  lemma CleanAt(listing: seq<Session>, pageSize: nat, k: nat, i: nat)
    requires CleanUpTo(listing, pageSize, k) && k >= 1 && i == k * pageSize
    ensures CleanBoundary(listing, i)
  {
    assert CleanPage(listing, pageSize, k);
  }

  lemma {:induction false} ChainWhenClean(listing: seq<Session>, pageSize: nat, k: nat, i: nat)
    requires Sorted(listing) && pageSize >= 1 && i == k * pageSize
    requires k == 0 || i < |listing|
    requires CleanUpTo(listing, pageSize, k)
    ensures Chain(listing, pageSize, k) == Some(PageAt(listing, pageSize, i))
  {
    hide PageAt, Sorted, PageAfter, CleanPage;
    if k > 0 {
      StartBefore(k, pageSize, i);
      ChainWhenClean(listing, pageSize, k - 1, i - pageSize);
      CleanAt(listing, pageSize, k, i);
      ChainStep(listing, pageSize, k, i);
    }
  }

  /** Page j (from 0) of the chain shows the sessions of the numbered page j + 1. */
  ghost predicate AgreesAt(table: seq<Session>, q: Query, pageSize: nat, j: nat) {
    FollowNext(table, q, pageSize, j) == Some(JumpSessions(table, q, pageSize, j + 1))
  }

  ghost predicate ChainIsJump(table: seq<Session>, q: Query, pageSize: nat, k: nat) {
    forall j: nat :: j <= k ==> AgreesAt(table, q, pageSize, j)
  }

  lemma AgreesIsPageAt(table: seq<Session>, q: Query, pageSize: nat, j: nat, i: nat)
    requires Table(table) && i == j * pageSize
    ensures AgreesAt(table, q, pageSize, j)
       <==> Chain(Listing(table, q), pageSize, j) == Some(PageAt(Listing(table, q), pageSize, i))
  {
    FollowNextIsChain(table, q, pageSize, j);
    assert (j + 1 - 1) * pageSize == i;
  }

  lemma PageIndex(n: nat, pageSize: int, k: nat)
    requires pageSize >= 1
    ensures k < TotalPages(n, pageSize) <==> k * pageSize < n
  {
    var t := TotalPages(n, pageSize);
    assert t * pageSize <= n + pageSize - 1 < t * pageSize + pageSize;
    if k < t {
      assert (k + 1) * pageSize <= t * pageSize;
    } else {
      assert t * pageSize <= k * pageSize;
    }
  }

  lemma AgreesWhenClean(table: seq<Session>, q: Query, pageSize: int, j: nat, i: nat)
    requires Table(table) && pageSize >= 1 && i == j * pageSize && (j == 0 || i < |Listing(table, q)|)
    requires CleanUpTo(Listing(table, q), pageSize, j)
    ensures AgreesAt(table, q, pageSize, j)
  {
    ListingShape(table, q);
    ChainWhenClean(Listing(table, q), pageSize, j, i);
    AgreesIsPageAt(table, q, pageSize, j, i);
  }

  lemma CleanWhenAgrees(table: seq<Session>, q: Query, pageSize: int, j: nat, i: nat)
    requires Table(table) && pageSize >= 1 && j >= 1 && i == j * pageSize && i < |Listing(table, q)|
    requires AgreesAt(table, q, pageSize, j - 1) && AgreesAt(table, q, pageSize, j)
    ensures CleanBoundary(Listing(table, q), i)
  {
    ListingShape(table, q);
    assert i - pageSize == (j - 1) * pageSize;
    MulMonotone(1, j, pageSize);
    AgreesIsPageAt(table, q, pageSize, j - 1, i - pageSize);
    AgreesIsPageAt(table, q, pageSize, j, i);
    ChainStep(Listing(table, q), pageSize, j, i);
  }

  lemma PageWhenClean(table: seq<Session>, q: Query, pageSize: int, k: nat, j: nat)
    requires Table(table) && pageSize >= 1 && j <= k && k * pageSize < |Listing(table, q)|
    requires CleanUpTo(Listing(table, q), pageSize, k)
    ensures AgreesAt(table, q, pageSize, j)
  {
    hide Listing, AgreesAt, CleanPage, Table;
    MulMonotone(j, k, pageSize);
    AgreesWhenClean(table, q, pageSize, j, j * pageSize);
  }

  lemma BoundaryWhenAgrees(table: seq<Session>, q: Query, pageSize: int, k: nat, j: nat)
    requires Table(table) && pageSize >= 1 && 1 <= j <= k && k * pageSize < |Listing(table, q)|
    requires ChainIsJump(table, q, pageSize, k)
    ensures CleanPage(Listing(table, q), pageSize, j)
  {
    hide Listing, AgreesAt, CleanBoundary, Table;
    MulMonotone(j, k, pageSize);
    assert AgreesAt(table, q, pageSize, j - 1) && AgreesAt(table, q, pageSize, j);
    CleanWhenAgrees(table, q, pageSize, j, j * pageSize);
  }

  /**
   Following the next cursor agrees with the numbered pages up to page k, exactly when behind every page boundary
   crossed the next row lies below the cursor cut to seconds.
   */
  lemma NextChainIsJump(table: seq<Session>, q: Query, pageSize: int, k: nat)
    requires Table(table) && pageSize >= 1
    requires k * pageSize < |Listing(table, q)|
    ensures ChainIsJump(table, q, pageSize, k) <==> CleanUpTo(Listing(table, q), pageSize, k)
  {
    hide Listing, AgreesAt, CleanPage, Table;
    if CleanUpTo(Listing(table, q), pageSize, k) {
      forall j: nat | j <= k ensures AgreesAt(table, q, pageSize, j) {
        PageWhenClean(table, q, pageSize, k, j);
      }
    }
    if ChainIsJump(table, q, pageSize, k) {
      forall j: nat | 1 <= j <= k ensures CleanPage(Listing(table, q), pageSize, j) {
        BoundaryWhenAgrees(table, q, pageSize, k, j);
      }
    }
  }

  lemma OnePerSecondIsClean(table: seq<Session>, q: Query, i: nat)
    requires Table(table) && OnePerSecond(table, q)
    ensures CleanBoundary(Listing(table, q), i)
  {
    ListingShape(table, q);
    var listing := Listing(table, q);
    if 0 < i < |listing| {
      assert listing[i] in listing && listing[i - 1] in listing;
      assert Less(SessionKey(listing[i]), SessionKey(listing[i - 1]));
    }
  }

  /** The sessions a client has collected after k pages of the chain. */
  function Collected(table: seq<Session>, q: Query, pageSize: nat, k: nat): seq<Summary> {
    if k == 0 then []
    else
      var page := FollowNext(table, q, pageSize, k - 1);
      Collected(table, q, pageSize, k - 1) + if page.Some? then page.value else []
  }

  lemma AppendPage(listing: seq<Session>, i: nat, pageSize: nat)
    requires i < |listing|
    ensures SummarizeAll(Limit(listing, i)) + PageAt(listing, pageSize, i) == SummarizeAll(Limit(listing, i + pageSize))
  {
  }

  lemma {:induction false} CollectedIsPrefix(table: seq<Session>, q: Query, pageSize: nat, k: nat, end: nat)
    requires Table(table) && OnePerSecond(table, q) && pageSize >= 1 && end == k * pageSize
    requires k == 0 || end - pageSize < |Listing(table, q)|
    ensures Collected(table, q, pageSize, k) == SummarizeAll(Limit(Listing(table, q), end))
  {
    hide PageAt, FollowNext, Chain, Listing, OnePerSecond, Table;
    if k > 0 {
      var i := end - pageSize;
      assert i == (k - 1) * pageSize;
      CollectedIsPrefix(table, q, pageSize, k - 1, i);
      CleanChain(table, q, pageSize, k - 1, i);
      FollowNextIsChain(table, q, pageSize, k - 1);
      AppendPage(Listing(table, q), i, pageSize);
    }
  }

  lemma CleanChain(table: seq<Session>, q: Query, pageSize: nat, k: nat, i: nat)
    requires Table(table) && OnePerSecond(table, q) && pageSize >= 1
    requires i == k * pageSize && i < |Listing(table, q)|
    ensures Chain(Listing(table, q), pageSize, k) == Some(PageAt(Listing(table, q), pageSize, i))
  {
    ListingShape(table, q);
    forall j: nat | 1 <= j <= k ensures CleanPage(Listing(table, q), pageSize, j) {
      OnePerSecondIsClean(table, q, j * pageSize);
    }
    ChainWhenClean(Listing(table, q), pageSize, k, i);
  }

  lemma LastPageBounds(n: nat, pageSize: int, total: nat, i: int)
    requires pageSize >= 1 && total >= 1 && total == TotalPages(n, pageSize)
    requires i == (total - 1) * pageSize
    ensures 0 <= i < n <= i + pageSize
  {
  }

  lemma PageAgrees(table: seq<Session>, q: Query, pageSize: int, k: nat)
    requires Table(table) && OnePerSecond(table, q) && pageSize >= 1
    requires k < TotalPages(CountRows(table, q), pageSize)
    ensures AgreesAt(table, q, pageSize, k)
  {
    ListingShape(table, q);
    var i := k * pageSize;
    PageIndex(CountRows(table, q), pageSize, k);
    CleanChain(table, q, pageSize, k, i);
    AgreesIsPageAt(table, q, pageSize, k, i);
  }

  lemma ChainEnds(table: seq<Session>, q: Query, pageSize: int, total: nat, i: nat)
    requires Table(table) && OnePerSecond(table, q) && pageSize >= 1 && total >= 1
    requires i == (total - 1) * pageSize && i < |Listing(table, q)| <= i + pageSize
    ensures FollowNext(table, q, pageSize, total) == Some([])
    ensures FollowNext(table, q, pageSize, total + 1) == None
  {
    ListingShape(table, q);
    CleanChain(table, q, pageSize, total - 1, i);
    ChainEnd(Listing(table, q), pageSize, total, i);
    FollowNextIsChain(table, q, pageSize, total);
    FollowNextIsChain(table, q, pageSize, total + 1);
  }

  /**
   With at most one matching session per whole second, every page of the chain is the numbered page,
   the pages together list every matching session once, newest first,
   and the chain ends with an empty page after exactly totalPages pages.
   */
  lemma ChainListsEverything(table: seq<Session>, q: Query, pageSize: int, total: nat)
    requires Table(table) && pageSize >= 1 && OnePerSecond(table, q)
    requires total == TotalPages(CountRows(table, q), pageSize)
    ensures forall k: nat :: k < total ==> AgreesAt(table, q, pageSize, k)
    ensures Collected(table, q, pageSize, total) == SummarizeAll(Listing(table, q))
    ensures FollowNext(table, q, pageSize, total) == Some([])
    ensures FollowNext(table, q, pageSize, total + 1) == None
  {
    forall k: nat | k < total ensures AgreesAt(table, q, pageSize, k) {
      PageAgrees(table, q, pageSize, k);
    }
    if total == 0 {
      EmptyChain(table, q, pageSize);
    } else {
      ChainListsAll(table, q, pageSize, total);
    }
  }

  lemma ChainListsAll(table: seq<Session>, q: Query, pageSize: int, total: nat)
    requires Table(table) && pageSize >= 1 && OnePerSecond(table, q)
    requires total == TotalPages(CountRows(table, q), pageSize) && total >= 1
    ensures Collected(table, q, pageSize, total) == SummarizeAll(Listing(table, q))
    ensures FollowNext(table, q, pageSize, total) == Some([])
    ensures FollowNext(table, q, pageSize, total + 1) == None
  {
    ListingShape(table, q);
    var end := total * pageSize;
    StartBefore(total, pageSize, end);
    LastPageBounds(CountRows(table, q), pageSize, total, end - pageSize);
    ChainEnds(table, q, pageSize, total, end - pageSize);
    CollectedIsPrefix(table, q, pageSize, total, end);
  }

  lemma EmptyChain(table: seq<Session>, q: Query, pageSize: int)
    requires Table(table) && pageSize >= 1 && TotalPages(CountRows(table, q), pageSize) == 0
    ensures Listing(table, q) == []
    ensures FollowNext(table, q, pageSize, 0) == Some([])
    ensures FollowNext(table, q, pageSize, 1) == None
  {
    ListingShape(table, q);
    PageIndex(CountRows(table, q), pageSize, 0);
    assert Listing(table, q) == [];
    assert CursorSessions(table, q, pageSize, Next, None) == [];
  }

  // ---------------------------------------------------------------- going back

  /** No row older than row i lies above the cursor cut from row i. */
  predicate QuietAfter(listing: seq<Session>, i: nat) {
    i + 1 < |listing| ==> !Above(listing[i + 1], RowCursor(listing, i))
  }

  /** A row created at a whole second is not above its own cursor, so it is not fetched again and none is skipped. */
  predicate WholeSecond(s: Session) {
    s.createdAt % SECOND == 0
  }

  /** The rows shown when going back from row i: one more than the page size when nothing was skipped. */
  function BackRun(listing: seq<Session>, i: nat, pageSize: nat): seq<Session>
    requires i < |listing|
  {
    var take := if WholeSecond(listing[i]) then pageSize + 1 else pageSize;
    listing[(if i > take then i - take else 0)..i]
  }

  /** The sessions shown when going back from row i while m rows lie above its cursor. */
  function BackShown(listing: seq<Session>, m: nat, i: nat, pageSize: nat): seq<Summary>
    requires m <= |listing| && i < |listing|
  {
    var a := if m > pageSize + 1 then m - (pageSize + 1) else 0;
    Reverse(SummarizeAll(Where(Reverse(listing[a..m]), OtherThan(listing[i].id))))
  }

  lemma AboveCountAt(listing: seq<Session>, i: nat)
    requires Sorted(listing) && i < |listing|
    ensures var m := AboveCount(listing, RowCursor(listing, i));
            if QuietAfter(listing, i) then m == (if WholeSecond(listing[i]) then i else i + 1) else m >= i + 2
  {
    AboveIsPrefix(listing, RowCursor(listing, i));
    if i > 0 {
      assert Less(SessionKey(listing[i]), SessionKey(listing[i - 1]));
    }
  }

  lemma {:induction false} WhereAll<T>(rows: seq<T>, p: T -> bool)
    requires forall i :: 0 <= i < |rows| ==> p(rows[i])
    ensures Where(rows, p) == rows
  {
    if rows != [] {
      forall i | 0 <= i < |rows[1..]| ensures p(rows[1..][i]) { assert rows[1..][i] == rows[i + 1]; }
      WhereAll(rows[1..], p);
    }
  }

  lemma DropOwnRow(listing: seq<Session>, a: nat, m: nat, i: nat)
    requires Sorted(listing) && a <= m <= |listing| && i < |listing|
    requires m == i || (m == i + 1 && a <= i)
    ensures Where(Reverse(listing[a..m]), OtherThan(listing[i].id)) == Reverse(listing[a..i])
  {
    var others := Reverse(listing[a..i]);
    WhereAll(others, OtherThan(listing[i].id));
    if m == i + 1 {
      assert Reverse(listing[a..m]) == [listing[i]] + others;
    }
  }

  lemma SummarizeReversed(rows: seq<Session>)
    ensures Reverse(SummarizeAll(Reverse(rows))) == SummarizeAll(rows)
  {
  }

  lemma BackShownWhenQuiet(listing: seq<Session>, m: nat, i: nat, pageSize: nat)
    requires Sorted(listing) && i < |listing| && pageSize >= 1
    requires m == if WholeSecond(listing[i]) then i else i + 1
    ensures BackShown(listing, m, i, pageSize) == SummarizeAll(BackRun(listing, i, pageSize))
  {
    var a := if m > pageSize + 1 then m - (pageSize + 1) else 0;
    DropOwnRow(listing, a, m, i);
    SummarizeReversed(listing[a..i]);
  }

  lemma LastShown(rows: seq<Session>)
    requires rows != []
    ensures var shown := Reverse(SummarizeAll(rows)); shown != [] && shown[|shown| - 1] == Summarize(rows[0])
  {
  }

  lemma BackShownWhenNotQuiet(listing: seq<Session>, m: nat, i: nat, pageSize: nat)
    requires Sorted(listing) && i < |listing| && pageSize >= 1
    requires i + 2 <= m <= |listing|
    ensures BackShown(listing, m, i, pageSize) != SummarizeAll(BackRun(listing, i, pageSize))
  {
    var a := if m > pageSize + 1 then m - (pageSize + 1) else 0;
    var rows := Reverse(listing[a..m]);
    assert rows[0] == listing[m - 1];
    var kept := Where(rows, OtherThan(listing[i].id));
    assert kept[0] == listing[m - 1];
    LastShown(kept);
    var run := BackRun(listing, i, pageSize);
    if i > 0 {
      assert run[|run| - 1] == listing[i - 1];
      assert SummarizeAll(run)[|run| - 1].id == listing[i - 1].id;
    }
  }

  lemma PrevIsBackShown(table: seq<Session>, q: Query, i: nat, pageSize: nat)
    requires Table(table) && i < |Listing(table, q)|
    ensures var listing := Listing(table, q); var c := RowCursor(listing, i);
            CursorSessions(table, q, pageSize, Prev, Some(c)) == BackShown(listing, AboveCount(listing, c), i, pageSize)
  {
    PrevRows(table, q, RowCursor(Listing(table, q), i), pageSize + 1);
  }

  /**
   Going back from row i shows the run of rows just before it, exactly when the next older row does not lie above the
   cursor cut to seconds.
   */
  lemma PrevFromRow(table: seq<Session>, q: Query, i: nat, pageSize: nat)
    requires Table(table) && i < |Listing(table, q)| && pageSize >= 1
    ensures var listing := Listing(table, q);
            CursorSessions(table, q, pageSize, Prev, Some(RowCursor(listing, i)))
              == SummarizeAll(BackRun(listing, i, pageSize))
            <==> QuietAfter(listing, i)
  {
    ListingShape(table, q);
    var listing := Listing(table, q);
    var m := AboveCount(listing, RowCursor(listing, i));
    AboveCountAt(listing, i);
    PrevIsBackShown(table, q, i, pageSize);
    if QuietAfter(listing, i) {
      BackShownWhenQuiet(listing, m, i, pageSize);
    } else {
      BackShownWhenNotQuiet(listing, m, i, pageSize);
    }
  }

  lemma OnePerSecondIsQuiet(table: seq<Session>, q: Query, i: nat)
    requires Table(table) && OnePerSecond(table, q)
    ensures QuietAfter(Listing(table, q), i)
  {
    ListingShape(table, q);
    var listing := Listing(table, q);
    if i + 1 < |listing| {
      assert listing[i] in listing && listing[i + 1] in listing;
      assert Less(SessionKey(listing[i + 1]), SessionKey(listing[i]));
    }
  }

  lemma BackRunOverPage(listing: seq<Session>, i: nat, pageSize: nat)
    requires 1 <= pageSize <= i < |listing|
    ensures var back := SummarizeAll(BackRun(listing, i, pageSize));
            var page := PageAt(listing, pageSize, i - pageSize);
            && pageSize <= |back| <= pageSize + 1
            && back[|back| - pageSize..] == page
            && (back == page <==> !WholeSecond(listing[i]) || i == pageSize)
  {
    assert Limit(Offset(listing, i - pageSize), pageSize) == listing[i - pageSize..i];
  }

  lemma NeighbourPages(table: seq<Session>, q: Query, pageSize: int, k: nat, i: nat)
    requires pageSize >= 1 && k >= 1 && i == k * pageSize
    ensures i >= pageSize && (i == pageSize <==> k == 1)
    ensures JumpSessions(table, q, pageSize, k + 1) == PageAt(Listing(table, q), pageSize, i)
    ensures JumpSessions(table, q, pageSize, k) == PageAt(Listing(table, q), pageSize, i - pageSize)
  {
    assert (k + 1 - 1) * pageSize == i;
    assert (k - 1) * pageSize == i - pageSize;
    MulMonotone(1, k, pageSize);
    if k >= 2 { MulMonotone(2, k, pageSize); }
  }

  /**
   Prev undoes Next. From the first row of page k + 1, going back shows page k as its last rows;
   it is exactly page k unless that row sits on a whole second and a page lies before page k,
   when one extra row comes first.
   */
  lemma PrevUndoesNext(table: seq<Session>, q: Query, pageSize: int, k: nat, i: nat)
    requires Table(table) && pageSize >= 1 && k >= 1 && i == k * pageSize && i < |Listing(table, q)|
    requires QuietAfter(Listing(table, q), i)
    ensures PrevCursor(JumpSessions(table, q, pageSize, k + 1)) == Some(RowCursor(Listing(table, q), i))
    ensures var back := CursorSessions(table, q, pageSize, Prev, PrevCursor(JumpSessions(table, q, pageSize, k + 1)));
            var page := JumpSessions(table, q, pageSize, k);
            && pageSize <= |back| <= pageSize + 1
            && back[|back| - pageSize..] == page
            && (back == page <==> !WholeSecond(Listing(table, q)[i]) || k == 1)
  {
    NeighbourPages(table, q, pageSize, k, i);
    PrevFromRow(table, q, i, pageSize);
    BackRunOverPage(Listing(table, q), i, pageSize);
  }
}
