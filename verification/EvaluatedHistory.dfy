/**
 The chat history with evaluations: turns joined with their evaluation, its scores and the improved sentence.
 The join has one row per turn because evaluation and improvement are stored together, and once.
 */
module EvaluatedHistory {
  import opened Prelude
  import opened Ordering
  import opened ChatHistory

  const MAX_SCORE := 5.0

  /** A row of evaluations with its criterion scores, for a turn of the session. */
  datatype Evaluation = Evaluation(id: int, turnNo: int, overall: real, criteria: seq<real>)

  datatype Improvement = Improvement(turnNo: int, sentence: string)

  datatype Tables = Tables(evaluations: seq<Evaluation>, improvements: seq<Improvement>)

  /** A row of the join, grouped by turn, evaluation and sentence. */
  datatype Row = Row(turn: Turn, evaluation: Option<Evaluation>, sentence: Option<string>)

  datatype EvaluatedPage = EvaluatedPage(rows: seq<Row>, cursorTurnNext: int)

  // ---------------------------------------------------------------- the query

  /** LEFT JOIN: the values found, or a missing one. */
  function OrNone<T>(found: seq<T>): seq<Option<T>> {
    if found == [] then [None] else seq(|found|, i requires 0 <= i < |found| => Some(found[i]))
  }

  function EvaluationsOf(t: Tables, turnNo: int): seq<Evaluation> {
    Where(t.evaluations, (e: Evaluation) => e.turnNo == turnNo)
  }

  function ImprovementsOf(t: Tables, turnNo: int): seq<Improvement> {
    Where(t.improvements, (i: Improvement) => i.turnNo == turnNo)
  }

  /** GROUP BY: each sentence once. */
  function Sentences(improvements: seq<Improvement>): seq<string> {
    if improvements == [] then []
    else
      var rest := Sentences(improvements[1..]);
      if improvements[0].sentence in rest then rest else [improvements[0].sentence] + rest
  }

  function Pairs(turn: Turn, evaluations: seq<Option<Evaluation>>, sentences: seq<Option<string>>): seq<Row> {
    if evaluations == [] then []
    else
      seq(|sentences|, i requires 0 <= i < |sentences| => Row(turn, evaluations[0], sentences[i]))
      + Pairs(turn, evaluations[1..], sentences)
  }

  function RowsOf(t: Tables, turn: Turn): seq<Row> {
    Pairs(turn, OrNone(EvaluationsOf(t, turn.turnNo)), OrNone(Sentences(ImprovementsOf(t, turn.turnNo))))
  }

  function Joined(t: Tables, turns: seq<Turn>): seq<Row> {
    if turns == [] then [] else RowsOf(t, turns[0]) + Joined(t, turns[1..])
  }

  /** The joined rows of the turns above a number, oldest first. */
  function HistoryRows(t: Tables, table: seq<Turn>, turnNo: int): seq<Row> {
    Limit(Joined(t, OrderAsc(TurnsAbove(table, turnNo), TurnKey)), PAGE_SIZE)
  }

  // ---------------------------------------------------------------- the service

  predicate InRange(score: real) {
    0.0 <= score <= MAX_SCORE
  }

  /** Every score of an evaluation shown is in range. */
  predicate Readable(row: Row) {
    row.evaluation.Some? ==>
      && InRange(row.evaluation.value.overall)
      && forall i :: 0 <= i < |row.evaluation.value.criteria| ==> InRange(row.evaluation.value.criteria[i])
  }

  /** The overall score or a criterion score is below 0 or above 5. */
  ghost predicate OutOfRange(row: Row) {
    && row.evaluation.Some?
    && (|| row.evaluation.value.overall < 0.0 || row.evaluation.value.overall > 5.0
        || exists k :: 0 <= k < |row.evaluation.value.criteria|
                       && (row.evaluation.value.criteria[k] < 0.0 || row.evaluation.value.criteria[k] > 5.0))
  }

  ghost predicate SomeOutOfRange(rows: seq<Row>) {
    exists i :: 0 <= i < |rows| && OutOfRange(rows[i])
  }

  predicate AllReadable(rows: seq<Row>) {
    forall i :: 0 <= i < |rows| ==> Readable(rows[i])
  }

  /** A page after a turn number, from the beginning when none is given; its cursor is the number of its last turn. */
  function HistoryPage(t: Tables, table: seq<Turn>, turnNo: Option<int>): Result<EvaluatedPage, string> {
    var rows := HistoryRows(t, table, if turnNo.Some? then turnNo.value else TURN_NO_DEFAULT);
    if !AllReadable(rows) then Err("invalid score")
    else Ok(EvaluatedPage(rows, if rows == [] then 0 else ToInt32(rows[|rows| - 1].turn.turnNo)))
  }

  method GetChatHistoryWithEvaluation(t: Tables, table: seq<Turn>, turnNo: Option<int>)
    returns (r: Result<EvaluatedPage, string>)
    ensures r.Err? <==> SomeOutOfRange(HistoryRows(t, table, if turnNo.Some? then turnNo.value else 0))
    ensures r.Ok? ==> r.value.rows == HistoryRows(t, table, if turnNo.Some? then turnNo.value else 0)
    ensures r == HistoryPage(t, table, turnNo)
  {
    hide HistoryRows, ToInt32;
    var from := TURN_NO_DEFAULT;
    if turnNo.Some? {
      from := turnNo.value;
    }
    var rows := HistoryRows(t, table, from);
    var shown: seq<Row> := [];
    for i := 0 to |rows|
      invariant shown == rows[..i] && AllReadable(rows[..i])
    {
      var readable := ReadEvaluation(rows[i]);
      if !readable {
        return Err("invalid score");
      }
      shown := shown + [rows[i]];
    }
    assert rows[..|rows|] == rows;
    if |shown| > 0 {
      return Ok(EvaluatedPage(shown, ToInt32(shown[|shown| - 1].turn.turnNo)));
    }
    return Ok(EvaluatedPage(shown, 0));
  }

  /** The checks on an evaluation: the overall score, then one criterion score after the other. */
  method ReadEvaluation(row: Row) returns (ok: bool)
    ensures ok <==> Readable(row)
  {
    if row.evaluation.None? {
      return true;
    }
    var e := row.evaluation.value;
    if !InRange(e.overall) {
      return false;
    }
    for j := 0 to |e.criteria|
      invariant forall i :: 0 <= i < j ==> InRange(e.criteria[i])
    {
      if !InRange(e.criteria[j]) {
        return false;
      }
    }
    return true;
  }

  // ---------------------------------------------------------------- storing

  /**
   The transaction that stores a turn's evaluation with its scores and its improved sentence: refused when a statement
   fails, the turn has an evaluation already or a score is out of range.
   */
  function StoreTx(t: Tables, e: Evaluation, sentence: string, statementsSucceed: bool): Tables {
    if statementsSucceed && EvaluationsOf(t, e.turnNo) == [] && Readable(Row(Turn(e.turnNo, ""), Some(e), None))
    then Tables(t.evaluations + [e], t.improvements + [Improvement(e.turnNo, sentence)])
    else t
  }

  /** What the transaction stores, and when. */
  lemma StoreStores(t: Tables, e: Evaluation, sentence: string, ok: bool)
    ensures var t1 := StoreTx(t, e, sentence, ok);
      if ok && !OutOfRange(Row(Turn(e.turnNo, ""), Some(e), None))
         && forall i :: 0 <= i < |t.evaluations| ==> t.evaluations[i].turnNo != e.turnNo
      then
        && t1.evaluations == t.evaluations + [e]
        && t1.improvements == t.improvements + [Improvement(e.turnNo, sentence)]
      else t1 == t
  {
    WhereIs(t.evaluations, (x: Evaluation) => x.turnNo == e.turnNo);
    if EvaluationsOf(t, e.turnNo) != [] {
      assert EvaluationsOf(t, e.turnNo)[0] in t.evaluations;
    } else {
      forall i | 0 <= i < |t.evaluations| ensures t.evaluations[i].turnNo != e.turnNo {
        assert t.evaluations[i] in t.evaluations;
      }
    }
    hide Where;
  }

  datatype Store = Store(evaluation: Evaluation, sentence: string, statementsSucceed: bool)

  function After(t: Tables, stores: seq<Store>): Tables {
    if stores == [] then t
    else
      var last := stores[|stores| - 1];
      StoreTx(After(t, stores[..|stores| - 1]), last.evaluation, last.sentence, last.statementsSucceed)
  }

  /** Each turn has one evaluation in range with one improved sentence, or neither. */
  ghost predicate Right(t: Tables) {
    && (forall turnNo :: |EvaluationsOf(t, turnNo)| == |ImprovementsOf(t, turnNo)| <= 1)
    && forall i :: 0 <= i < |t.evaluations| ==> Readable(Row(Turn(0, ""), Some(t.evaluations[i]), None))
  }

  lemma {:induction false} WhereAppended<T>(rows: seq<T>, row: T, p: T -> bool)
    ensures Where(rows + [row], p) == Where(rows, p) + if p(row) then [row] else []
  {
    if rows == [] {
      assert rows + [row] == [row];
    } else {
      assert (rows + [row])[1..] == rows[1..] + [row];
      WhereAppended(rows[1..], row, p);
    }
  }

  lemma StoreKeepsRight(t: Tables, e: Evaluation, sentence: string, ok: bool)
    requires Right(t)
    ensures Right(StoreTx(t, e, sentence, ok))
  {
    var t1 := StoreTx(t, e, sentence, ok);
    if t1 != t {
      forall turnNo ensures |EvaluationsOf(t1, turnNo)| == |ImprovementsOf(t1, turnNo)| <= 1 {
        WhereAppended(t.evaluations, e, (x: Evaluation) => x.turnNo == turnNo);
        WhereAppended(t.improvements, Improvement(e.turnNo, sentence), (x: Improvement) => x.turnNo == turnNo);
        assert |EvaluationsOf(t, turnNo)| == |ImprovementsOf(t, turnNo)|;
      }
    }
  }

  lemma {:induction false} RightHolds(t: Tables, stores: seq<Store>)
    requires Right(t)
    ensures Right(After(t, stores))
  {
    hide Right, StoreTx;
    if stores != [] {
      var last := stores[|stores| - 1];
      RightHolds(t, stores[..|stores| - 1]);
      StoreKeepsRight(After(t, stores[..|stores| - 1]), last.evaluation, last.sentence, last.statementsSucceed);
    }
  }

  // ---------------------------------------------------------------- one row per turn

  lemma {:induction false} PairsCount(turn: Turn, a: seq<Option<Evaluation>>, b: seq<Option<string>>)
    ensures |Pairs(turn, a, b)| == |a| * |b|
    ensures forall i :: 0 <= i < |Pairs(turn, a, b)| ==>
      Pairs(turn, a, b)[i].turn == turn && Pairs(turn, a, b)[i].evaluation in a
  {
    if a != [] {
      PairsCount(turn, a[1..], b);
      assert (|a| - 1) * |b| + |b| == |a| * |b|;
      assert a == [a[0]] + a[1..];
    }
  }

  lemma {:induction false} SentencesFew(improvements: seq<Improvement>)
    ensures |Sentences(improvements)| <= |improvements|
    ensures Sentences(improvements) == [] <==> improvements == []
  {
    if improvements != [] {
      SentencesFew(improvements[1..]);
    }
  }

  /** Grouping leaves every sentence once. */
  lemma {:induction false} SentencesOnce(improvements: seq<Improvement>)
    ensures forall i, j :: 0 <= i < j < |Sentences(improvements)| ==>
      Sentences(improvements)[i] != Sentences(improvements)[j]
    ensures forall s :: s in Sentences(improvements) <==>
      exists i :: 0 <= i < |improvements| && improvements[i].sentence == s
  {
    if improvements != [] {
      var rest := improvements[1..];
      SentencesOnce(rest);
      forall s ensures s in Sentences(improvements) <==>
        exists i :: 0 <= i < |improvements| && improvements[i].sentence == s
      {
        if s in Sentences(rest) {
          var i :| 0 <= i < |rest| && rest[i].sentence == s;
          assert improvements[i + 1].sentence == s;
        }
        if exists i :: 0 < i < |improvements| && improvements[i].sentence == s {
          var i :| 0 < i < |improvements| && improvements[i].sentence == s;
          assert rest[i - 1].sentence == s;
        }
      }
    }
  }

  /** The join has one row for a turn exactly when it has at most one evaluation and at most one sentence. */
  lemma OneRowIff(t: Tables, turn: Turn)
    ensures |RowsOf(t, turn)| == 1 <==>
      |EvaluationsOf(t, turn.turnNo)| <= 1 && |Sentences(ImprovementsOf(t, turn.turnNo))| <= 1
  {
    var a := OrNone(EvaluationsOf(t, turn.turnNo));
    var b := OrNone(Sentences(ImprovementsOf(t, turn.turnNo)));
    PairsCount(turn, a, b);
    ProductIsOne(|a|, |b|);
  }

  lemma ProductIsOne(a: nat, b: nat)
    ensures a * b == 1 <==> a == 1 && b == 1
  {
    if a > 1 && b >= 1 {
      assert a * b >= a;
    }
  }

  function TurnsOf(rows: seq<Row>): seq<Turn> {
    seq(|rows|, i requires 0 <= i < |rows| => rows[i].turn)
  }

  lemma {:induction false} JoinedTurns(t: Tables, turns: seq<Turn>)
    requires Right(t)
    ensures TurnsOf(Joined(t, turns)) == turns && AllReadable(Joined(t, turns))
  {
    if turns != [] {
      JoinedTurns(t, turns[1..]);
      OneTurn(t, turns[0]);
      hide Right, RowsOf, Readable;
      var head := RowsOf(t, turns[0]);
      assert Joined(t, turns) == head + Joined(t, turns[1..]);
      assert turns == [turns[0]] + turns[1..];
    }
  }

  /** The row has the turn's evaluation and improved sentence, or none where the turn has none. */
  ghost predicate ShowsStored(t: Tables, row: Row) {
    && (row.evaluation.Some? ==>
         row.evaluation.value in t.evaluations && row.evaluation.value.turnNo == row.turn.turnNo)
    && (row.evaluation.None? ==> forall i :: 0 <= i < |t.evaluations| ==> t.evaluations[i].turnNo != row.turn.turnNo)
    && (row.sentence.Some? ==> Improvement(row.turn.turnNo, row.sentence.value) in t.improvements)
    && (row.sentence.None? ==> forall i :: 0 <= i < |t.improvements| ==> t.improvements[i].turnNo != row.turn.turnNo)
  }

  lemma {:induction false} WhereIs<T>(rows: seq<T>, p: T -> bool)
    ensures forall row :: row in Where(rows, p) <==> row in rows && p(row)
  {
    if rows != [] {
      WhereIs(rows[1..], p);
      assert rows == [rows[0]] + rows[1..];
    }
  }

  lemma OneTurnShown(t: Tables, turn: Turn)
    requires Right(t)
    ensures |RowsOf(t, turn)| == 1 && ShowsStored(t, RowsOf(t, turn)[0])
  {
    OneTurn(t, turn);
    var found, improved := EvaluationsOf(t, turn.turnNo), ImprovementsOf(t, turn.turnNo);
    assert |found| == |improved| <= 1;
    WhereIs(t.evaluations, (e: Evaluation) => e.turnNo == turn.turnNo);
    WhereIs(t.improvements, (i: Improvement) => i.turnNo == turn.turnNo);
    forall i | 0 <= i < |t.evaluations| && found == [] ensures t.evaluations[i].turnNo != turn.turnNo {
      assert t.evaluations[i] in t.evaluations;
    }
    forall i | 0 <= i < |t.improvements| && improved == [] ensures t.improvements[i].turnNo != turn.turnNo {
      assert t.improvements[i] in t.improvements;
    }
    OnePair(turn, found, improved);
    if found != [] {
      assert found[0] in found && improved[0] in improved;
      assert improved[0] == Improvement(turn.turnNo, improved[0].sentence);
    }
    hide Where;
  }

  lemma {:induction false} JoinedShown(t: Tables, turns: seq<Turn>)
    requires Right(t)
    ensures forall i :: 0 <= i < |Joined(t, turns)| ==> ShowsStored(t, Joined(t, turns)[i])
  {
    if turns != [] {
      JoinedShown(t, turns[1..]);
      OneTurnShown(t, turns[0]);
      hide Right, RowsOf, ShowsStored;
    }
  }

  lemma OnePair(turn: Turn, found: seq<Evaluation>, improved: seq<Improvement>)
    requires |found| == |improved| <= 1
    ensures Pairs(turn, OrNone(found), OrNone(Sentences(improved))) ==
      [if found == [] then Row(turn, None, None) else Row(turn, Some(found[0]), Some(improved[0].sentence))]
  {
    if found != [] {
      assert improved[1..] == [] && Sentences(improved) == [improved[0].sentence];
      assert OrNone(found)[1..] == [];
    }
  }

  lemma OneTurn(t: Tables, turn: Turn)
    requires Right(t)
    ensures |RowsOf(t, turn)| == 1 && RowsOf(t, turn)[0].turn == turn && Readable(RowsOf(t, turn)[0])
  {
    assert |EvaluationsOf(t, turn.turnNo)| == |ImprovementsOf(t, turn.turnNo)| <= 1;
    SentencesFew(ImprovementsOf(t, turn.turnNo));
    OneRowIff(t, turn);
    var a := OrNone(EvaluationsOf(t, turn.turnNo));
    PairsCount(turn, a, OrNone(Sentences(ImprovementsOf(t, turn.turnNo))));
    var row := RowsOf(t, turn)[0];
    if row.evaluation.Some? {
      WhereFinds(t.evaluations, (e: Evaluation) => e.turnNo == turn.turnNo, row.evaluation.value);
    }
  }

  lemma {:induction false} WhereFinds<T>(rows: seq<T>, p: T -> bool, row: T)
    requires row in Where(rows, p)
    ensures exists i :: 0 <= i < |rows| && rows[i] == row
  {
    if rows != [] && row in Where(rows[1..], p) {
      WhereFinds(rows[1..], p, row);
      var i :| 0 <= i < |rows[1..]| && rows[1..][i] == row;
      assert rows[i + 1] == row;
    }
  }

  /**
   After any run of scoring transactions, failed ones included, the history with evaluations can always be read, and its
   pages are those of the plain history: the same turns, each once, with the same cursor, and each with its evaluation
   and improved sentence.
   */
  lemma HistoryIsPlain(t: Tables, stores: seq<Store>, table: seq<Turn>, turnNo: Option<int>)
    requires Right(t)
    ensures var r := HistoryPage(After(t, stores), table, turnNo);
      && r.Ok?
      && TurnsOf(r.value.rows) == ForwardPage(table, turnNo).turns
      && r.value.cursorTurnNext == ForwardPage(table, turnNo).cursorTurnNext
      && forall i :: 0 <= i < |r.value.rows| ==> ShowsStored(After(t, stores), r.value.rows[i])
  {
    RightHolds(t, stores);
    var from := if turnNo.Some? then turnNo.value else TURN_NO_DEFAULT;
    var turns := OrderAsc(TurnsAbove(table, from), TurnKey);
    JoinedTurns(After(t, stores), turns);
    JoinedShown(After(t, stores), turns);
    LimitTurns(Joined(After(t, stores), turns), turns, PAGE_SIZE);
    assert forall i :: 0 <= i < |Limit(Joined(After(t, stores), turns), PAGE_SIZE)| ==>
      Limit(Joined(After(t, stores), turns), PAGE_SIZE)[i] == Joined(After(t, stores), turns)[i];
    hide Joined, After, ToInt32, Readable, TurnsAbove, OrderAsc, Right, Limit, ShowsStored;
  }

  lemma LimitTurns(rows: seq<Row>, turns: seq<Turn>, n: nat)
    requires TurnsOf(rows) == turns && AllReadable(rows)
    ensures TurnsOf(Limit(rows, n)) == Limit(turns, n) && AllReadable(Limit(rows, n))
  {
    assert |rows| == |turns|;
    forall i | 0 <= i < |Limit(rows, n)| ensures Limit(rows, n)[i].turn == turns[i] {
      assert TurnsOf(rows)[i] == turns[i];
    }
  }
}
