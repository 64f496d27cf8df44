/**
 Chat history: a pager that walks back from the newest turn and a pager that walks forward from the first one.
 Both hand the client a 32-bit cursor, 0 meaning that there is nothing further.
 */
module ChatHistory {
  import opened Prelude
  import opened Ordering

  const PAGE_SIZE := 20

  const TURN_NO_DEFAULT := 0

  datatype Turn = Turn(turnNo: int, transcript: string)

  datatype ChatPage = ChatPage(turns: seq<Turn>, cursorTurnNext: int)

  function TurnKey(t: Turn): Key {
    (t.turnNo, 0)
  }

  // ---------------------------------------------------------------- the queries

  function TurnsBelow(table: seq<Turn>, turnNo: int): seq<Turn> {
    Where(table, (t: Turn) => t.turnNo < turnNo)
  }

  function TurnsAbove(table: seq<Turn>, turnNo: int): seq<Turn> {
    Where(table, (t: Turn) => t.turnNo > turnNo)
  }

  function NewestTurns(table: seq<Turn>): seq<Turn> {
    Limit(OrderDesc(table, TurnKey), PAGE_SIZE)
  }

  function NewestTurnsBelow(table: seq<Turn>, turnNo: int): seq<Turn> {
    Limit(OrderDesc(TurnsBelow(table, turnNo), TurnKey), PAGE_SIZE)
  }

  function OldestTurnsAbove(table: seq<Turn>, turnNo: int): seq<Turn> {
    Limit(OrderAsc(TurnsAbove(table, turnNo), TurnKey), PAGE_SIZE)
  }

  // ---------------------------------------------------------------- the service

  /** A page read newest first is shown oldest first; its cursor is the number of its first turn. */
  function BackwardPage(table: seq<Turn>, turnNo: Option<int>): ChatPage {
    var rows := if turnNo.Some? then NewestTurnsBelow(table, turnNo.value) else NewestTurns(table);
    var turns := Reverse(rows);
    ChatPage(turns, if turns == [] then 0 else ToInt32(turns[0].turnNo))
  }

  /** A page after a turn number, from the beginning when none is given; its cursor is the number of its last turn. */
  function ForwardPage(table: seq<Turn>, turnNo: Option<int>): ChatPage {
    var turns := OldestTurnsAbove(table, if turnNo.Some? then turnNo.value else TURN_NO_DEFAULT);
    ChatPage(turns, if turns == [] then 0 else ToInt32(turns[|turns| - 1].turnNo))
  }

  method GetChatHistoryBySessionToken(table: seq<Turn>, turnNo: Option<int>) returns (r: ChatPage)
    ensures r == BackwardPage(table, turnNo)
  {
    hide NewestTurns, NewestTurnsBelow;
    var rows := if turnNo.Some? then NewestTurnsBelow(table, turnNo.value) else NewestTurns(table);
    var filled := new Turn[|rows|](_ => Turn(0, ""));
    for i := 0 to |rows|
      invariant forall k :: |rows| - i <= k < |rows| ==> filled[k] == rows[|rows| - 1 - k]
    {
      filled[|rows| - 1 - i] := rows[i];
    }
    assert filled[..] == Reverse(rows);
    var cursorTurnNext := 0;
    if |rows| > 0 {
      cursorTurnNext := ToInt32(filled[0].turnNo);
    }
    return ChatPage(filled[..], cursorTurnNext);
  }

  // ---------------------------------------------------------------- following the cursors

  /** Turn numbers are unique within a session, start at 1 and fit the cursor. */
  ghost predicate History(table: seq<Turn>) {
    && (forall i, j :: 0 <= i < j < |table| ==> table[i].turnNo != table[j].turnNo)
    && (forall i :: 0 <= i < |table| ==> 1 <= table[i].turnNo < 0x8000_0000)
  }

  /** The whole history, oldest turn first. */
  function Ascending(table: seq<Turn>): seq<Turn> {
    OrderAsc(table, TurnKey)
  }

  /** Page k (from 0) of a client that reads back; there is none after a page with cursor 0. */
  function BackwardChain(table: seq<Turn>, k: nat): Option<ChatPage> {
    if k == 0 then Some(BackwardPage(table, None))
    else match BackwardChain(table, k - 1)
      case None => None
      case Some(p) => if p.cursorTurnNext == 0 then None else Some(BackwardPage(table, Some(p.cursorTurnNext)))
  }

  /** Page k (from 0) of a client that reads forward; there is none after a page with cursor 0. */
  function ForwardChain(table: seq<Turn>, k: nat): Option<ChatPage> {
    if k == 0 then Some(ForwardPage(table, None))
    else match ForwardChain(table, k - 1)
      case None => None
      case Some(p) => if p.cursorTurnNext == 0 then None else Some(ForwardPage(table, Some(p.cursorTurnNext)))
  }

  /** What the client holds after k pages read back: each page goes in front. */
  function ReadBack(table: seq<Turn>, k: nat): seq<Turn> {
    if k == 0 then []
    else
      var p := BackwardChain(table, k - 1);
      (if p.Some? then p.value.turns else []) + ReadBack(table, k - 1)
  }

  /** What the client holds after k pages read forward: each page goes behind. */
  function ReadForward(table: seq<Turn>, k: nat): seq<Turn> {
    if k == 0 then []
    else
      var p := ForwardChain(table, k - 1);
      ReadForward(table, k - 1) + (if p.Some? then p.value.turns else [])
  }

  /** Turn numbers grow along the history. */
  ghost predicate InOrder(all: seq<Turn>) {
    && (forall i, j :: 0 <= i < j < |all| ==> all[i].turnNo < all[j].turnNo)
    && (forall i :: 0 <= i < |all| ==> 1 <= all[i].turnNo < 0x8000_0000)
  }

  lemma AscendingOrder(table: seq<Turn>)
    requires History(table)
    ensures Descending(Ascending(table), Negate(TurnKey))
    ensures |Ascending(table)| == |table| && multiset(Ascending(table)) == multiset(table)
    ensures forall t :: t in Ascending(table) <==> t in table
    ensures OrderDesc(table, TurnKey) == Reverse(Ascending(table))
  {
    assert DistinctKeys(table, TurnKey);
    OrderDescSorts(table, Negate(TurnKey));
    AscIsReversedDesc(table, TurnKey);
    ReverseTwice(OrderDesc(table, TurnKey));
  }

  lemma AscendingShape(table: seq<Turn>)
    requires History(table)
    ensures |Ascending(table)| == |table| && InOrder(Ascending(table))
  {
    var all := Ascending(table);
    AscendingOrder(table);
    hide Ascending, OrderDesc;
    forall i | 0 <= i < |all| ensures 1 <= all[i].turnNo < 0x8000_0000 {
      assert all[i] in table;
    }
    forall i, j | 0 <= i < j < |all| ensures all[i].turnNo < all[j].turnNo {
      NegatedTurnKey(all[i], all[j]);
      assert Less(Negate(TurnKey)(all[j]), Negate(TurnKey)(all[i]));
    }
  }

  lemma NegatedTurnKey(s: Turn, t: Turn)
    ensures Less(Negate(TurnKey)(t), Negate(TurnKey)(s)) <==> s.turnNo < t.turnNo
  {
    var key: Turn -> Key := TurnKey;
    assert key(s) == (s.turnNo, 0) && key(t) == (t.turnNo, 0);
    assert Negate(key)(s) == (-key(s).0, -key(s).1) && Negate(key)(t) == (-key(t).0, -key(t).1);
  }

  lemma ReverseTwice<T>(rows: seq<T>)
    ensures Reverse(Reverse(rows)) == rows
  {
  }

  lemma SelectedTurns(table: seq<Turn>, p: Turn -> bool, rows: seq<Turn>)
    requires History(table) && rows == Where(table, p)
    ensures DistinctKeys(rows, TurnKey)
    ensures forall t :: t in rows <==> t in table && p(t)
  {
    assert DistinctKeys(table, TurnKey);
    WhereKeepsDistinct(table, p, TurnKey);
    WhereIsFilter(table, p);
  }

  lemma AboveTurn(table: seq<Turn>, all: seq<Turn>, i: nat, turnNo: int)
    requires History(table) && all == Ascending(table) && i <= |all|
    requires forall j :: 0 <= j < |all| ==> (all[j].turnNo > turnNo <==> i <= j)
    ensures OrderAsc(TurnsAbove(table, turnNo), TurnKey) == all[i..]
  {
    AscendingOrder(table);
    var rows, p := TurnsAbove(table, turnNo), (t: Turn) => t.turnNo > turnNo;
    SelectedTurns(table, p, rows);
    hide Ascending, OrderDesc, Where, TurnsAbove, Descending, DistinctKeys, History, SameElements;
    SliceElements(all, i, |all|, rows, p);
    OrderedTurns(rows, all, i, |all|);
  }

  lemma OrderedTurns(rows: seq<Turn>, all: seq<Turn>, a: nat, b: nat)
    requires DistinctKeys(rows, TurnKey) && Descending(all, Negate(TurnKey)) && a <= b <= |all|
    requires SameElements(rows, all[a..b])
    ensures OrderAsc(rows, TurnKey) == all[a..b]
  {
    hide OrderDesc, Descending, SameElements;
    assert DistinctKeys(rows, Negate(TurnKey));
    OrderedSlice(rows, all, Negate(TurnKey), a, b);
  }

  lemma BelowTurn(table: seq<Turn>, all: seq<Turn>, i: nat, turnNo: int)
    requires History(table) && all == Ascending(table) && i <= |all|
    requires forall j :: 0 <= j < |all| ==> (all[j].turnNo < turnNo <==> j < i)
    ensures OrderDesc(TurnsBelow(table, turnNo), TurnKey) == Reverse(all[..i])
  {
    AscendingOrder(table);
    var rows, p := TurnsBelow(table, turnNo), (t: Turn) => t.turnNo < turnNo;
    SelectedTurns(table, p, rows);
    hide Ascending, OrderDesc, Where, TurnsBelow, Descending, DistinctKeys, History, SameElements;
    SliceElements(all, 0, i, rows, p);
    OrderedTurns(rows, all, 0, i);
    AscIsReversedDesc(rows, TurnKey);
    ReverseTwice(OrderDesc(rows, TurnKey));
    assert all[0..i] == all[..i];
  }

  /** The page read back from a position of the history. */
  function BackPageAt(all: seq<Turn>, i: nat): ChatPage
    requires i <= |all|
  {
    var a := if i > PAGE_SIZE then i - PAGE_SIZE else 0;
    ChatPage(all[a..i], if i == 0 then 0 else all[a].turnNo)
  }

  /** The page read forward from a position of the history. */
  function ForwardPageAt(all: seq<Turn>, i: nat): ChatPage
    requires i <= |all|
  {
    var b := if i + PAGE_SIZE < |all| then i + PAGE_SIZE else |all|;
    ChatPage(all[i..b], if i == |all| then 0 else all[b - 1].turnNo)
  }

  /** The page built from the newest turns before a position. */
  lemma BuiltBackward(all: seq<Turn>, i: nat, turns: seq<Turn>)
    requires InOrder(all) && i <= |all|
    requires turns == Reverse(Limit(Reverse(all[..i]), PAGE_SIZE))
    ensures ChatPage(turns, if turns == [] then 0 else ToInt32(turns[0].turnNo)) == BackPageAt(all, i)
  {
  }

  lemma BackwardPageFrom(table: seq<Turn>, all: seq<Turn>, i: nat)
    requires History(table) && all == Ascending(table) && i <= |all|
    ensures i < |all| ==> BackwardPage(table, Some(all[i].turnNo)) == BackPageAt(all, i)
    ensures i == |all| ==> BackwardPage(table, None) == BackPageAt(all, i)
  {
    AscendingShape(table);
    AscendingOrder(table);
    hide Ascending, OrderDesc, TurnsBelow, Limit, Reverse, ToInt32, Descending, History, BackPageAt;
    if i < |all| {
      BelowTurn(table, all, i, all[i].turnNo);
    } else {
      assert all[..i] == all;
    }
    BuiltBackward(all, i, Reverse(Limit(Reverse(all[..i]), PAGE_SIZE)));
  }

  /** The page built from the oldest turns behind a position. */
  lemma BuiltForward(all: seq<Turn>, i: nat, turns: seq<Turn>)
    requires InOrder(all) && i <= |all| && turns == Limit(all[i..], PAGE_SIZE)
    ensures ChatPage(turns, if turns == [] then 0 else ToInt32(turns[|turns| - 1].turnNo)) == ForwardPageAt(all, i)
  {
  }

  lemma ForwardPageFrom(table: seq<Turn>, all: seq<Turn>, i: nat)
    requires History(table) && all == Ascending(table) && i <= |all|
    ensures i > 0 ==> ForwardPage(table, Some(all[i - 1].turnNo)) == ForwardPageAt(all, i)
    ensures i == 0 ==> ForwardPage(table, None) == ForwardPageAt(all, i)
  {
    AscendingShape(table);
    var from := if i > 0 then all[i - 1].turnNo else TURN_NO_DEFAULT;
    assert forall j :: 0 <= j < |all| ==> (all[j].turnNo > from <==> i <= j);
    hide Ascending, OrderAsc, TurnsAbove, Limit, ToInt32, History, ForwardPageAt, InOrder;
    AboveTurn(table, all, i, from);
    BuiltForward(all, i, Limit(all[i..], PAGE_SIZE));
  }

  /** How many of n turns k full pages cover. */
  function Covered(n: nat, k: nat): nat {
    if k * PAGE_SIZE < n then k * PAGE_SIZE else n
  }

  /** Page k exists: the pages before it do not cover everything, or it is the first. */
  predicate Within(n: nat, k: nat) {
    k == 0 || (k - 1) * PAGE_SIZE < n
  }

  /** The cursor of a page read back leads to the page just before it. */
  lemma BackwardStep(table: seq<Turn>, all: seq<Turn>, i: nat)
    requires History(table) && all == Ascending(table) && 0 < i <= |all|
    ensures var p := BackPageAt(all, i);
            p.cursorTurnNext != 0 &&
            BackwardPage(table, Some(p.cursorTurnNext)) == BackPageAt(all, if i > PAGE_SIZE then i - PAGE_SIZE else 0)
  {
    AscendingShape(table);
    hide Ascending, BackwardPage, History;
    BackwardPageFrom(table, all, if i > PAGE_SIZE then i - PAGE_SIZE else 0);
  }

  lemma ForwardStep(table: seq<Turn>, all: seq<Turn>, i: nat)
    requires History(table) && all == Ascending(table) && i < |all|
    ensures var p := ForwardPageAt(all, i);
            p.cursorTurnNext != 0 &&
            ForwardPage(table, Some(p.cursorTurnNext))
              == ForwardPageAt(all, if i + PAGE_SIZE < |all| then i + PAGE_SIZE else |all|)
  {
    AscendingShape(table);
    hide Ascending, ForwardPage, History;
    ForwardPageFrom(table, all, if i + PAGE_SIZE < |all| then i + PAGE_SIZE else |all|);
  }

  /** One more page covers a page more, up to everything. */
  lemma CoveredStep(n: nat, k: nat)
    requires k > 0 && Within(n, k)
    ensures Within(n, k - 1) && Covered(n, k - 1) < n && Covered(n, 0) == 0
    ensures var left := n - Covered(n, k - 1);
            n - Covered(n, k) == if left > PAGE_SIZE then left - PAGE_SIZE else 0
    ensures var c := Covered(n, k - 1);
            Covered(n, k) == if c + PAGE_SIZE < n then c + PAGE_SIZE else n
  {
  }

  lemma {:induction false} BackwardChainAt(table: seq<Turn>, all: seq<Turn>, k: nat)
    requires History(table) && all == Ascending(table) && Within(|all|, k)
    ensures BackwardChain(table, k) == Some(BackPageAt(all, |all| - Covered(|all|, k)))
  {
    hide Ascending, BackwardPage, History, BackPageAt, Within;
    if k == 0 {
      BackwardPageFrom(table, all, |all|);
    } else {
      CoveredStep(|all|, k);
      hide Covered;
      BackwardChainAt(table, all, k - 1);
      BackwardStep(table, all, |all| - Covered(|all|, k - 1));
    }
  }

  lemma {:induction false} ForwardChainAt(table: seq<Turn>, all: seq<Turn>, k: nat)
    requires History(table) && all == Ascending(table) && Within(|all|, k)
    ensures ForwardChain(table, k) == Some(ForwardPageAt(all, Covered(|all|, k)))
  {
    hide Ascending, ForwardPage, History, ForwardPageAt, Within;
    if k == 0 {
      ForwardPageFrom(table, all, 0);
    } else {
      CoveredStep(|all|, k);
      hide Covered;
      ForwardChainAt(table, all, k - 1);
      ForwardStep(table, all, Covered(|all|, k - 1));
    }
  }

  lemma {:induction false} ReadBackIsSuffix(table: seq<Turn>, all: seq<Turn>, k: nat)
    requires History(table) && all == Ascending(table) && Within(|all|, k)
    ensures ReadBack(table, k) == all[|all| - Covered(|all|, k)..]
  {
    hide Ascending, BackwardChain, History, Within;
    if k > 0 {
      CoveredStep(|all|, k);
      hide Covered;
      var i, a := |all| - Covered(|all|, k - 1), |all| - Covered(|all|, k);
      ReadBackIsSuffix(table, all, k - 1);
      BackwardChainAt(table, all, k - 1);
      assert all[a..i] + all[i..] == all[a..];
    }
  }

  lemma {:induction false} ReadForwardIsPrefix(table: seq<Turn>, all: seq<Turn>, k: nat)
    requires History(table) && all == Ascending(table) && Within(|all|, k)
    ensures ReadForward(table, k) == all[..Covered(|all|, k)]
  {
    hide Ascending, ForwardChain, History, Within;
    if k > 0 {
      CoveredStep(|all|, k);
      hide Covered;
      var i, b := Covered(|all|, k - 1), Covered(|all|, k);
      ReadForwardIsPrefix(table, all, k - 1);
      ForwardChainAt(table, all, k - 1);
      assert all[..i] + all[i..b] == all[..b];
    }
  }

  /**
   Both pagers stop, on the same number of pages, and hand the client the same complete history:
   every turn once, oldest first.
   */
  lemma PagersAgree(table: seq<Turn>, pages: nat)
    requires History(table) && pages == (|table| + 19) / 20
    ensures ReadBack(table, pages) == ReadForward(table, pages) == Ascending(table)
    ensures InOrder(Ascending(table)) && multiset(Ascending(table)) == multiset(table)
    ensures BackwardChain(table, pages) == ForwardChain(table, pages) == Some(ChatPage([], 0))
    ensures BackwardChain(table, pages + 1) == ForwardChain(table, pages + 1) == None
  {
    AscendingShape(table);
    AscendingOrder(table);
    CoversAll(|table|, pages);
    hide *;
    ChainsEnd(table, Ascending(table), pages);
  }

  lemma ChainsEnd(table: seq<Turn>, all: seq<Turn>, pages: nat)
    requires History(table) && all == Ascending(table) && Within(|all|, pages) && Covered(|all|, pages) == |all|
    ensures ReadBack(table, pages) == ReadForward(table, pages) == all
    ensures BackwardChain(table, pages) == ForwardChain(table, pages) == Some(ChatPage([], 0))
    ensures BackwardChain(table, pages + 1) == ForwardChain(table, pages + 1) == None
  {
    EmptyPages(all);
    assert all[..|all|] == all && all[0..] == all;
    hide Ascending, Covered, BackPageAt, ForwardPageAt, BackwardPage, ForwardPage, ReadBack, ReadForward;
    hide Within, History;
    ReadBackIsSuffix(table, all, pages);
    ReadForwardIsPrefix(table, all, pages);
    BackwardChainAt(table, all, pages);
    ForwardChainAt(table, all, pages);
  }

  lemma CoversAll(n: nat, pages: nat)
    requires pages == (n + PAGE_SIZE - 1) / PAGE_SIZE
    ensures Covered(n, pages) == n && Within(n, pages)
  {
  }

  lemma EmptyPages(all: seq<Turn>)
    ensures BackPageAt(all, 0) == ForwardPageAt(all, |all|) == ChatPage([], 0)
  {
  }
}
