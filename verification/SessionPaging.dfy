/**
 Listing a user's finalized sessions: keyset paging by cursor against paging by page number.
 A cursor carries the creation time of a row cut to whole seconds, because it is formatted without a fraction.
 */
module SessionPaging {
  import opened Prelude
  import opened Ordering
  import opened SessionStatus

  /** Times count microseconds. */
  const SECOND := 1_000_000

  /** The page size used when a request names none. */
  const DEFAULT_LIMIT := 20

  datatype Session = Session(
    id: int, userId: int, createdAt: int, softDelete: bool, finalizeStatus: FinalizeStatus, details: string)

  /** Who asks, and the text search both the listing and the count apply. */
  datatype Query = Query(userId: int, search: Session -> bool)

  datatype Cursor = Cursor(id: int, createdAt: int)

  datatype Summary = Summary(id: int, createdAt: int, details: string)

  datatype Kind = Next | Prev

  datatype Page = Page(
    sessions: seq<Summary>, next: Option<Cursor>, prev: Option<Cursor>, totalPages: int, pageSize: int)

  // ---------------------------------------------------------------- the queries

  function SessionKey(s: Session): Key {
    (s.createdAt, s.id)
  }

  predicate Matches(q: Query, s: Session) {
    s.userId == q.userId && !s.softDelete && s.finalizeStatus == Finalized && q.search(s)
  }

  predicate Below(s: Session, c: Cursor) {
    s.createdAt < c.createdAt || (s.createdAt == c.createdAt && s.id < c.id)
  }

  predicate Above(s: Session, c: Cursor) {
    s.createdAt > c.createdAt || (s.createdAt == c.createdAt && s.id > c.id)
  }

  function Matching(table: seq<Session>, q: Query): seq<Session> {
    Where(table, s => Matches(q, s))
  }

  function MatchingBelow(table: seq<Session>, q: Query, c: Cursor): seq<Session> {
    Where(table, s => Matches(q, s) && Below(s, c))
  }

  function MatchingAbove(table: seq<Session>, q: Query, c: Cursor): seq<Session> {
    Where(table, s => Matches(q, s) && Above(s, c))
  }

  /** Every matching session, newest first. */
  function Listing(table: seq<Session>, q: Query): seq<Session> {
    OrderDesc(Matching(table, q), SessionKey)
  }

  function CountRows(table: seq<Session>, q: Query): nat {
    |Matching(table, q)|
  }

  function FirstPageRows(table: seq<Session>, q: Query, limit: nat): seq<Session> {
    Limit(Listing(table, q), limit)
  }

  function CursorRows(table: seq<Session>, q: Query, kind: Kind, c: Cursor, limit: nat): seq<Session> {
    match kind
    case Next => Limit(OrderDesc(MatchingBelow(table, q, c), SessionKey), limit)
    case Prev => Limit(OrderAsc(MatchingAbove(table, q, c), SessionKey), limit)
  }

  function JumpRows(table: seq<Session>, q: Query, page: nat, limit: nat): seq<Session>
    requires page >= 1
  {
    Limit(Offset(Listing(table, q), (page - 1) * limit), limit)
  }

  // ---------------------------------------------------------------- the service

  /** The instant a formatted time stands for: the fraction of the second is gone. */
  function ToSecond(t: int): int {
    t - t % SECOND
  }

  function Summarize(s: Session): Summary {
    Summary(s.id, ToSecond(s.createdAt), s.details)
  }

  function SummarizeAll(rows: seq<Session>): seq<Summary> {
    seq(|rows|, i requires 0 <= i < |rows| => Summarize(rows[i]))
  }

  function CursorOf(s: Summary): Cursor {
    Cursor(s.id, s.createdAt)
  }

  function TotalPages(count: nat, pageSize: int): int
    requires pageSize >= 1
  {
    (count + pageSize - 1) / pageSize
  }

  function NextCursor(sessions: seq<Summary>): Option<Cursor> {
    if sessions == [] then None else Some(CursorOf(sessions[|sessions| - 1]))
  }

  function PrevCursor(sessions: seq<Summary>): Option<Cursor> {
    if sessions == [] then None else Some(CursorOf(sessions[0]))
  }

  /** What a page answers, given the sessions on it. */
  function PageOf(sessions: seq<Summary>, withPrev: bool, count: nat, pageSize: int): Page
    requires pageSize >= 1
  {
    Page(sessions, NextCursor(sessions), if withPrev then PrevCursor(sessions) else None,
         TotalPages(count, pageSize), pageSize)
  }

  /** Every row but the one with this id. */
  function OtherThan(id: int): Session -> bool {
    (s: Session) => s.id != id
  }

  /** The sessions made of the rows one query fetches. */
  function FetchedSessions(
    table: seq<Session>, q: Query, limit: nat, kind: Kind, cursor: Option<Cursor>): seq<Summary>
  {
    match cursor
    case None =>
      var rows := FirstPageRows(table, q, limit);
      if kind == Prev then Reverse(SummarizeAll(rows)) else SummarizeAll(rows)
    case Some(c) =>
      var rows := CursorRows(table, q, kind, c, limit);
      if kind == Prev then Reverse(SummarizeAll(Where(rows, OtherThan(c.id)))) else SummarizeAll(rows)
  }

  function CursorSessions(
    table: seq<Session>, q: Query, pageSize: nat, kind: Kind, cursor: Option<Cursor>): seq<Summary>
  {
    FetchedSessions(table, q, if kind == Prev then pageSize + 1 else pageSize, kind, cursor)
  }

  /** Specification of the cursor listing. */
  function CursorPage(table: seq<Session>, q: Query, pageSize: int, kind: Kind, cursor: Option<Cursor>): Page
    requires pageSize >= 1
  {
    PageOf(CursorSessions(table, q, pageSize, kind, cursor), cursor.Some?, CountRows(table, q), pageSize)
  }

  function JumpSessions(table: seq<Session>, q: Query, pageSize: nat, page: nat): seq<Summary>
    requires page >= 1
  {
    SummarizeAll(JumpRows(table, q, page, pageSize))
  }

  /** Specification of the jump listing; `page` counts from 1 and defaults to 1. */
  function JumpPage(table: seq<Session>, q: Query, pageSize: int, page: Option<int>): Page
    requires pageSize >= 1 && (page.Some? ==> page.value >= 1)
  {
    var n := if page.Some? then page.value else 1;
    PageOf(JumpSessions(table, q, pageSize, n), page.Some?, CountRows(table, q), pageSize)
  }

  /** The page type a request names; anything but the two known names is refused. */
  function ParseKind(name: Option<string>): Option<Kind> {
    match name
    case None => Some(Next)
    case Some(n) => if n == "next" then Some(Next) else if n == "prev" then Some(Prev) else None
  }

  /** The limit a request works with, converted to 32 bits. */
  function LimitOf(limit: Option<int>): int {
    ToInt32(if limit.Some? then limit.value else DEFAULT_LIMIT)
  }

  /** How many rows a request fetches; the increment for going back is made in 32 bits. */
  function FetchOf(limit: int, kind: Kind): int {
    if kind == Prev then ToInt32(limit + 1) else limit
  }

  /** Refused page types, a page size of zero divided by, and limits or offsets the database rejects as negative. */
  datatype Failure = InvalidType | DivisionByZero | NegativeBound

  /** What the cursor listing answers; going back with a converted limit of -1 fetches no row and succeeds. */
  function CursorOutcome(
    table: seq<Session>, q: Query, limit: Option<int>, typeName: Option<string>, cursor: Option<Cursor>)
    : Result<Page, Failure>
  {
    var size := LimitOf(limit);
    match ParseKind(typeName)
    case None => Err(InvalidType)
    case Some(kind) =>
      if size == 0 then Err(DivisionByZero)
      else if FetchOf(size, kind) < 0 then Err(NegativeBound)
      else if size >= 1 then Ok(CursorPage(table, q, size, kind, cursor))
      else Ok(Page([], None, None, 2 - CountRows(table, q), size))
  }

  function JumpOutcome(table: seq<Session>, q: Query, limit: Option<int>, page: Option<int>): Result<Page, Failure> {
    var size := LimitOf(limit);
    if size < 0 then Err(NegativeBound)
    else if size == 0 then Err(DivisionByZero)
    else if page.Some? && page.value < 1 then Err(NegativeBound)
    else Ok(JumpPage(table, q, size, page))
  }

  /** What holds of every page answered: its cursors name its last and its first session. */
  ghost predicate CursorsFit(p: Page, withPrev: bool) {
    var n := |p.sessions|;
    && (n == 0 ==> p.next == None && p.prev == None)
    && (n > 0 ==> p.next == Some(Cursor(p.sessions[n - 1].id, p.sessions[n - 1].createdAt)))
    && (n > 0 ==> p.prev == if withPrev then Some(Cursor(p.sessions[0].id, p.sessions[0].createdAt)) else None)
  }

  lemma AnswersFit(
    table: seq<Session>, q: Query, limit: Option<int>, typeName: Option<string>, cursor: Option<Cursor>,
    page: Option<int>)
    ensures var r := CursorOutcome(table, q, limit, typeName, cursor); r.Ok? ==> CursorsFit(r.value, cursor.Some?)
    ensures var r := JumpOutcome(table, q, limit, page); r.Ok? ==> CursorsFit(r.value, page.Some?)
  {
    hide CursorSessions, JumpSessions, CountRows, TotalPages, LimitOf, FetchOf;
  }

  /** Division that cuts toward zero, for a divisor other than zero. */
  function Quotient(a: int, b: int): int
    requires b != 0
  {
    if (a >= 0) == (b > 0) then Abs(a) / Abs(b) else -(Abs(a) / Abs(b))
  }

  function Abs(n: int): nat {
    if n < 0 then -n else n
  }

  lemma FetchIsPositive(limit: Option<int>, kind: Kind)
    requires LimitOf(limit) != 0 && FetchOf(LimitOf(limit), kind) >= 0
    ensures LimitOf(limit) >= 1 ==> FetchOf(LimitOf(limit), kind) == LimitOf(limit) + (if kind == Prev then 1 else 0)
    ensures LimitOf(limit) < 0 ==> LimitOf(limit) == -1 && kind == Prev && FetchOf(LimitOf(limit), kind) == 0
  {
  }

  /**
   A requested limit is the size of the page answered if and only if it, and its increment, fit 32 bits; multiples of
   2^32 divide by zero.
   */
  lemma LimitHonoured(
    table: seq<Session>, q: Query, limit: int, typeName: Option<string>, cursor: Option<Cursor>)
    requires limit >= 1 && (typeName == None || typeName == Some("next") || typeName == Some("prev"))
    ensures var r := CursorOutcome(table, q, Some(limit), typeName, cursor);
      r.Ok? && r.value.pageSize == limit
      <==> limit + (if typeName == Some("prev") then 1 else 0) < 0x8000_0000
    ensures CursorOutcome(table, q, Some(limit), typeName, cursor) == Err(DivisionByZero)
       <==> limit % 0x1_0000_0000 == 0
    ensures var r := JumpOutcome(table, q, Some(limit), None);
      r.Ok? && r.value.pageSize == limit <==> limit < 0x8000_0000
  {
    hide CursorSessions, JumpSessions, CountRows, TotalPages;
  }

  method ListWithCursor(
    table: seq<Session>, q: Query, limit: Option<int>, typeName: Option<string>, cursor: Option<Cursor>)
    returns (r: Result<Page, Failure>)
    ensures r.Ok? ==> CursorsFit(r.value, cursor.Some?)
    ensures r == CursorOutcome(table, q, limit, typeName, cursor)
  {
    AnswersFit(table, q, limit, typeName, cursor, None);
    hide CursorsFit;
    hide FirstPageRows, CursorRows, CountRows, TotalPages, Where, Reverse;
    var pageLimit := ToInt32(DEFAULT_LIMIT);
    if limit.Some? {
      pageLimit := ToInt32(limit.value);
    }
    var kind := Next;
    if typeName.Some? {
      if typeName.value != "next" && typeName.value != "prev" {
        return Err(InvalidType);
      }
      kind := if typeName.value == "next" then Next else Prev;
    }
    var totalCount := CountRows(table, q);
    var pageSize := pageLimit;
    if pageSize == 0 {
      return Err(DivisionByZero);
    }
    var totalPages := Quotient(totalCount + pageSize - 1, pageSize);
    if kind == Prev {
      pageLimit := ToInt32(pageLimit + 1);
    }
    if pageLimit < 0 {
      return Err(NegativeBound);
    }
    FetchIsPositive(limit, kind);
    PagesAre(totalCount, pageSize);
    hide ToInt32, Quotient;

    var sessions := FetchSessions(table, q, pageLimit, kind, cursor);
    NothingFetched(table, q, kind, cursor);
    hide FetchedSessions;

    var page := Page(sessions, None, None, totalPages, pageSize);
    if |sessions| > 0 {
      page := page.(next := Some(CursorOf(sessions[|sessions| - 1])));
      if cursor.Some? {
        page := page.(prev := Some(CursorOf(sessions[0])));
      }
    }
    return Ok(page);
  }

  lemma NothingFetched(table: seq<Session>, q: Query, kind: Kind, cursor: Option<Cursor>)
    ensures FetchedSessions(table, q, 0, kind, cursor) == []
  {
  }

  /** The queries of the cursor listing with the loops over their rows, and the reversal for going back. */
  method FetchSessions(table: seq<Session>, q: Query, limit: nat, kind: Kind, cursor: Option<Cursor>)
    returns (sessions: seq<Summary>)
    ensures sessions == FetchedSessions(table, q, limit, kind, cursor)
  {
    hide FirstPageRows, CursorRows, Where, Reverse;
    sessions := [];
    if cursor.None? {
      var rows := FirstPageRows(table, q, limit);
      for i := 0 to |rows|
        invariant sessions == SummarizeAll(rows[..i])
      {
        sessions := sessions + [Summarize(rows[i])];
      }
      assert rows[..|rows|] == rows;
    } else {
      var rows := CursorRows(table, q, kind, cursor.value, limit);
      sessions := CollectRows(rows, kind, cursor.value);
    }
    if kind == Prev {
      sessions := ReverseInPlace(sessions);
    }
  }

  /** The row loop of the cursor listing: going back, the row the cursor came from is left out. */
  method CollectRows(rows: seq<Session>, kind: Kind, cursor: Cursor) returns (sessions: seq<Summary>)
    ensures kind == Next ==> sessions == SummarizeAll(rows)
    ensures kind == Prev ==> sessions == SummarizeAll(Where(rows, OtherThan(cursor.id)))
  {
    hide Summarize, Where, SummarizeAll;
    SummarizeNothing(rows, OtherThan(cursor.id));
    sessions := [];
    ghost var keep := OtherThan(cursor.id);
    for i := 0 to |rows|
      invariant kind == Next ==> sessions == SummarizeAll(rows[..i])
      invariant kind == Prev ==> sessions == SummarizeAll(Where(rows[..i], keep))
    {
      WhereAppend(rows[..i], rows[i], keep);
      assert rows[..i + 1] == rows[..i] + [rows[i]];
      SummarizeAppend(rows[..i], rows[i]);
      SummarizeAppend(Where(rows[..i], keep), rows[i]);
      assert Where(rows[..i], keep) + [] == Where(rows[..i], keep);
      if kind == Prev && rows[i].id == cursor.id {
        continue;
      }
      sessions := sessions + [Summarize(rows[i])];
    }
    assert rows[..|rows|] == rows;
  }

  lemma SummarizeNothing(rows: seq<Session>, p: Session -> bool)
    ensures SummarizeAll(rows[..0]) == [] && SummarizeAll(Where(rows[..0], p)) == []
  {
  }

  lemma SummarizeAppend(rows: seq<Session>, row: Session)
    ensures SummarizeAll(rows + [row]) == SummarizeAll(rows) + [Summarize(row)]
  {
  }

  lemma {:induction false} WhereAppend<T>(rows: seq<T>, row: T, p: T -> bool)
    ensures Where(rows + [row], p) == Where(rows, p) + (if p(row) then [row] else [])
  {
    if rows == [] {
      assert rows + [row] == [row];
    } else {
      assert (rows + [row])[1..] == rows[1..] + [row];
      WhereAppend(rows[1..], row, p);
    }
  }

  /** The two-index swap loop that turns an ascending page into a descending one. */
  method ReverseInPlace<T>(input: seq<T>) returns (s: seq<T>)
    ensures s == Reverse(input)
  {
    s := input;
    var i, j := 0, |s| - 1;
    while i < j
      invariant |s| == |input| && j == |s| - 1 - i && 0 <= i <= j + 2
      invariant forall k :: i <= k <= j ==> s[k] == input[k]
      invariant forall k :: 0 <= k < i ==> s[k] == input[|input| - 1 - k]
      invariant forall k :: j < k < |s| ==> s[k] == input[|input| - 1 - k]
    {
      var first, last := s[i], s[j];
      assert first == input[i] && last == input[j];
      s := s[i := last][j := first];
      i, j := i + 1, j - 1;
    }
  }

  lemma PagesAre(count: nat, pageSize: int)
    ensures pageSize >= 1 ==> Quotient(count + pageSize - 1, pageSize) == TotalPages(count, pageSize)
    ensures pageSize == -1 ==> Quotient(count + pageSize - 1, pageSize) == 2 - count
  {
  }

  method ListWithJumpPagination(table: seq<Session>, q: Query, limit: Option<int>, page: Option<int>)
    returns (r: Result<Page, Failure>)
    ensures r.Ok? ==> CursorsFit(r.value, page.Some?)
    ensures r == JumpOutcome(table, q, limit, page)
  {
    AnswersFit(table, q, limit, None, None, page);
    hide CursorsFit;
    hide ToInt32, JumpRows, CountRows;
    var pageSize := ToInt32(DEFAULT_LIMIT);
    if limit.Some? {
      pageSize := ToInt32(limit.value);
    }
    var n := if page.Some? then page.value else 1;
    var totalCount := CountRows(table, q);
    if pageSize < 0 || (pageSize > 0 && n < 1) {
      return Err(NegativeBound);
    }
    if pageSize == 0 {
      return Err(DivisionByZero);
    }
    var rows := JumpRows(table, q, n, pageSize);
    var sessions: seq<Summary> := [];
    for i := 0 to |rows|
      invariant sessions == SummarizeAll(rows[..i])
    {
      sessions := sessions + [Summarize(rows[i])];
    }
    assert rows[..|rows|] == rows;
    PagesAre(totalCount, pageSize);
    hide Quotient, TotalPages;
    var totalPages := Quotient(totalCount + pageSize - 1, pageSize);
    var answer := Page(sessions, None, None, totalPages, pageSize);
    if |sessions| > 0 {
      answer := answer.(next := Some(CursorOf(sessions[|sessions| - 1])));
      if page.Some? {
        answer := answer.(prev := Some(CursorOf(sessions[0])));
      }
    }
    return Ok(answer);
  }
}
