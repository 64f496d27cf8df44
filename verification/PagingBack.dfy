/** Going back page by page, with the cursor of each page shown, through the whole listing. */
module PagingBack {
  import opened Prelude
  import opened Ordering
  import opened SessionPaging
  import opened CursorQueries
  import opened PagingRefinement

  /** The page shown n pages further back, none once a page was empty. */
  function FollowPrev(table: seq<Session>, q: Query, pageSize: nat, c: Cursor, n: nat): Option<seq<Summary>>
    decreases n
  {
    var page := CursorSessions(table, q, pageSize, Prev, Some(c));
    if n == 0 then Some(page)
    else
      match PrevCursor(page)
      case None => None
      case Some(back) => FollowPrev(table, q, pageSize, back, n - 1)
  }

  /** The sessions of the first n pages back; each page comes before the ones shown earlier. */
  function CollectedBack(table: seq<Session>, q: Query, pageSize: nat, c: Cursor, n: nat): seq<Summary>
    decreases n
  {
    if n == 0 then []
    else
      var page := CursorSessions(table, q, pageSize, Prev, Some(c));
      match PrevCursor(page)
      case None => page
      case Some(back) => CollectedBack(table, q, pageSize, back, n - 1) + page
  }

  /** Where the page shown on going back from row i starts. */
  function BackStart(listing: seq<Session>, i: nat, pageSize: nat): nat
    requires i < |listing|
  {
    var take := if WholeSecond(listing[i]) then pageSize + 1 else pageSize;
    if i > take then i - take else 0
  }

  /** How many pages lie before row i on the way back. */
  function PagesBack(listing: seq<Session>, i: nat, pageSize: nat): nat
    requires i < |listing| && pageSize >= 1
  {
    if i == 0 then 0 else 1 + PagesBack(listing, BackStart(listing, i, pageSize), pageSize)
  }

  lemma BackPage(table: seq<Session>, q: Query, i: nat, pageSize: nat)
    requires Table(table) && OnePerSecond(table, q) && i < |Listing(table, q)| && pageSize >= 1
    ensures var listing := Listing(table, q);
      var page := CursorSessions(table, q, pageSize, Prev, Some(RowCursor(listing, i)));
      var start := BackStart(listing, i, pageSize);
      && start <= i && page == SummarizeAll(listing[start..i])
      && PrevCursor(page) == if i == 0 then None else Some(RowCursor(listing, start))
  {
    OnePerSecondIsQuiet(table, q, i);
    PrevFromRow(table, q, i, pageSize);
    hide CursorSessions, Listing, OnePerSecond, Table, QuietAfter;
  }

  /** One step back, with the page it shows and the cursor it leaves. */
  lemma OneBack(table: seq<Session>, q: Query, pageSize: nat, c: Cursor, back: Cursor, page: seq<Summary>, n: nat)
    requires n >= 1 && page == CursorSessions(table, q, pageSize, Prev, Some(c)) && PrevCursor(page) == Some(back)
    ensures CollectedBack(table, q, pageSize, c, n) == CollectedBack(table, q, pageSize, back, n - 1) + page
    ensures FollowPrev(table, q, pageSize, c, n) == FollowPrev(table, q, pageSize, back, n - 1)
    ensures FollowPrev(table, q, pageSize, c, n + 1) == FollowPrev(table, q, pageSize, back, n)
  {
    hide CursorSessions, PrevCursor;
  }

  lemma NoneBack(table: seq<Session>, q: Query, pageSize: nat, c: Cursor)
    requires CursorSessions(table, q, pageSize, Prev, Some(c)) == []
    ensures FollowPrev(table, q, pageSize, c, 0) == Some([]) && FollowPrev(table, q, pageSize, c, 1) == None
    ensures CollectedBack(table, q, pageSize, c, 0) == []
  {
    hide CursorSessions;
  }

  lemma JoinRuns(listing: seq<Session>, start: nat, i: nat)
    requires start <= i <= |listing|
    ensures SummarizeAll(listing[..start]) + SummarizeAll(listing[start..i]) == SummarizeAll(listing[..i])
  {
  }

  /**
   With at most one matching session per second, going back from a row page by page shows every row before it once, in
   order, then an empty page, and stops.
   */
  lemma {:induction false} PrevChainShowsAll(table: seq<Session>, q: Query, i: nat, pageSize: nat)
    requires Table(table) && OnePerSecond(table, q) && i < |Listing(table, q)| && pageSize >= 1
    ensures var listing := Listing(table, q);
      var c, n := RowCursor(listing, i), PagesBack(listing, i, pageSize);
      && CollectedBack(table, q, pageSize, c, n) == SummarizeAll(listing[..i])
      && FollowPrev(table, q, pageSize, c, n) == Some([])
      && FollowPrev(table, q, pageSize, c, n + 1) == None
    decreases i
  {
    hide CursorSessions, Listing, OnePerSecond, Table, FollowPrev, CollectedBack, BackStart, SummarizeAll, RowCursor,
      PrevCursor;
    var listing := Listing(table, q);
    var c := RowCursor(listing, i);
    BackPage(table, q, i, pageSize);
    if i == 0 {
      NoRows(listing);
      NoneBack(table, q, pageSize, c);
    } else {
      var start := BackStart(listing, i, pageSize);
      StartsBefore(listing, i, pageSize);
      PrevChainShowsAll(table, q, start, pageSize);
      JoinRuns(listing, start, i);
      OneBack(table, q, pageSize, c, RowCursor(listing, start), SummarizeAll(listing[start..i]),
              PagesBack(listing, i, pageSize));
    }
  }

  lemma NoRows(listing: seq<Session>)
    ensures SummarizeAll(listing[..0]) == [] && SummarizeAll(listing[0..0]) == []
  {
  }

  lemma StartsBefore(listing: seq<Session>, i: nat, pageSize: nat)
    requires 0 < i < |listing| && pageSize >= 1
    ensures BackStart(listing, i, pageSize) < i
    ensures PagesBack(listing, i, pageSize) == 1 + PagesBack(listing, BackStart(listing, i, pageSize), pageSize)
  {
  }

  /** From the first row of page k + 1 at most k pages are shown on the way back. */
  lemma {:induction false} PagesBackBound(listing: seq<Session>, i: nat, pageSize: nat, k: nat)
    requires i < |listing| && pageSize >= 1 && i <= k * pageSize
    ensures PagesBack(listing, i, pageSize) <= k
    decreases i
  {
    if i > 0 {
      assert k > 0;
      assert (k - 1) * pageSize == k * pageSize - pageSize;
      PagesBackBound(listing, BackStart(listing, i, pageSize), pageSize, k - 1);
    }
  }
}
