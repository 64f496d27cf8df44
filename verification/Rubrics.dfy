/** Grouping the rows of a rubric-criteria join into rubrics. */
module Rubrics {
  import opened Prelude

  /** A row of the join; the criterion stands for its columns with the derived percentage and colour. */
  datatype Row = Row(rubricId: int, rubricName: string, description: string, criterion: int)

  datatype Rubric = Rubric(id: int, name: string, description: string, criteria: seq<int>)

  // ---------------------------------------------------------------- specification

  /** The criteria of a rubric in the order of the rows. */
  function CriteriaOf(rows: seq<Row>, id: int): seq<int> {
    if rows == [] then []
    else
      var last := rows[|rows| - 1];
      CriteriaOf(rows[..|rows| - 1], id) + (if last.rubricId == id then [last.criterion] else [])
  }

  ghost predicate Mentioned(rows: seq<Row>, id: int) {
    exists i :: 0 <= i < |rows| && rows[i].rubricId == id
  }

  /** The row a rubric takes its name and description from. */
  ghost predicate FirstRow(rows: seq<Row>, id: int, i: int) {
    0 <= i < |rows| && rows[i].rubricId == id && forall j :: 0 <= j < i ==> rows[j].rubricId != id
  }

  ghost predicate RubricOf(rows: seq<Row>, id: int, r: Rubric) {
    && r.id == id && r.criteria == CriteriaOf(rows, id)
    && exists i :: FirstRow(rows, id, i) && r.name == rows[i].rubricName && r.description == rows[i].description
  }

  /** One rubric for every id in the rows. */
  ghost predicate Grouped(rows: seq<Row>, groups: map<int, Rubric>) {
    && (forall id :: id in groups <==> Mentioned(rows, id))
    && forall id :: id in groups ==> RubricOf(rows, id, groups[id])
  }

  // ---------------------------------------------------------------- the loop over the rows

  method GroupRows(rows: seq<Row>) returns (groups: map<int, Rubric>)
    ensures Grouped(rows, groups)
  {
    groups := map[];
    for i := 0 to |rows|
      invariant Grouped(rows[..i], groups)
    {
      var row := rows[i];
      ghost var before := groups;
      if row.rubricId !in groups {
        groups := groups[row.rubricId := Rubric(row.rubricId, row.rubricName, row.description, [])];
      }
      var group := groups[row.rubricId];
      groups := groups[row.rubricId := group.(criteria := group.criteria + [row.criterion])];
      GroupStep(rows, i, before, groups);
    }
    assert rows[..|rows|] == rows;
  }

  lemma {:induction false} NoCriteria(rows: seq<Row>, id: int)
    requires forall i :: 0 <= i < |rows| ==> rows[i].rubricId != id
    ensures CriteriaOf(rows, id) == []
  {
    if rows != [] {
      NoCriteria(rows[..|rows| - 1], id);
    }
  }

  lemma CriteriaStep(rows: seq<Row>, n: nat, id: int)
    requires n < |rows|
    ensures CriteriaOf(rows[..n + 1], id) ==
            CriteriaOf(rows[..n], id) + (if rows[n].rubricId == id then [rows[n].criterion] else [])
  {
    assert rows[..n + 1][..n] == rows[..n];
  }

  lemma MentionedStep(rows: seq<Row>, n: nat, id: int)
    requires n < |rows|
    ensures Mentioned(rows[..n + 1], id) <==> Mentioned(rows[..n], id) || rows[n].rubricId == id
  {
  }

  lemma KeptRubric(rows: seq<Row>, n: nat, id: int, r: Rubric)
    requires n < |rows| && RubricOf(rows[..n], id, r)
    ensures RubricOf(rows[..n + 1], id, r.(criteria := CriteriaOf(rows[..n + 1], id)))
  {
    var i :|
      FirstRow(rows[..n], id, i) && r.name == rows[..n][i].rubricName && r.description == rows[..n][i].description;
    assert FirstRow(rows[..n + 1], id, i);
  }

  lemma NewRubric(rows: seq<Row>, n: nat)
    requires n < |rows| && !Mentioned(rows[..n], rows[n].rubricId)
    ensures var row := rows[n];
      RubricOf(rows[..n + 1], row.rubricId, Rubric(row.rubricId, row.rubricName, row.description, [row.criterion]))
  {
    var row := rows[n];
    NoCriteria(rows[..n], row.rubricId);
    CriteriaStep(rows, n, row.rubricId);
    hide CriteriaOf;
    assert forall j :: 0 <= j < n ==> rows[..n][j] == rows[..n + 1][j];
    assert FirstRow(rows[..n + 1], row.rubricId, n);
  }

  lemma GroupStep(rows: seq<Row>, n: nat, before: map<int, Rubric>, after: map<int, Rubric>)
    requires n < |rows| && Grouped(rows[..n], before)
    requires var row := rows[n];
      var group := if row.rubricId in before then before[row.rubricId]
                   else Rubric(row.rubricId, row.rubricName, row.description, []);
      after == before[row.rubricId := group.(criteria := group.criteria + [row.criterion])]
    ensures Grouped(rows[..n + 1], after)
  {
    forall id ensures id in after <==> Mentioned(rows[..n + 1], id) {
      MentionedStep(rows, n, id);
    }
    forall id | id in after ensures RubricOf(rows[..n + 1], id, after[id]) {
      CriteriaStep(rows, n, id);
      if id in before {
        KeptRubric(rows, n, id, before[id]);
      } else {
        NewRubric(rows, n);
      }
      hide CriteriaOf;
    }
  }

  /** The loop over the map: every rubric once, in whatever order the map yields them. */
  method ListRubrics(rows: seq<Row>) returns (rubrics: seq<Rubric>, ids: seq<int>)
    ensures |rubrics| == |ids| && Distinct(ids)
    ensures forall id :: id in ids <==> Mentioned(rows, id)
    ensures forall i :: 0 <= i < |ids| ==> RubricOf(rows, ids[i], rubrics[i])
  {
    var groups := GroupRows(rows);
    rubrics, ids := [], [];
    var rest := groups.Keys;
    while rest != {}
      invariant rest <= groups.Keys
      invariant |rubrics| == |ids| && Distinct(ids)
      invariant forall id :: id in ids <==> id in groups.Keys - rest
      invariant forall i :: 0 <= i < |ids| ==> ids[i] in groups && rubrics[i] == groups[ids[i]]
      decreases rest
    {
      HasElement(rest);
      var id: int :| id in rest;
      assert id !in ids;
      rubrics := rubrics + [groups[id]];
      ids := ids + [id];
      rest := rest - {id};
    }
  }

  ghost predicate Distinct(ids: seq<int>) {
    forall i, j :: 0 <= i < j < |ids| ==> ids[i] != ids[j]
  }

  // ---------------------------------------------------------------- nothing lost, nothing doubled

  /** The rows as pairs of rubric and criterion. */
  function RowPairs(rows: seq<Row>): multiset<(int, int)> {
    if rows == [] then multiset{}
    else RowPairs(rows[..|rows| - 1]) + multiset{(rows[|rows| - 1].rubricId, rows[|rows| - 1].criterion)}
  }

  function GroupPairs(id: int, criteria: seq<int>): multiset<(int, int)> {
    if criteria == [] then multiset{}
    else GroupPairs(id, criteria[..|criteria| - 1]) + multiset{(id, criteria[|criteria| - 1])}
  }

  /** The criteria of all listed rubrics as such pairs. */
  function ListedPairs(rows: seq<Row>, ids: seq<int>): multiset<(int, int)> {
    if ids == [] then multiset{}
    else ListedPairs(rows, ids[..|ids| - 1]) + GroupPairs(ids[|ids| - 1], CriteriaOf(rows, ids[|ids| - 1]))
  }

  lemma GroupPairsStep(front: seq<Row>, row: Row, id: int)
    ensures GroupPairs(id, CriteriaOf(front + [row], id))
         == GroupPairs(id, CriteriaOf(front, id)) + PairIf(row, row.rubricId == id)
  {
    var criteria := CriteriaOf(front, id);
    assert (front + [row])[..|front|] == front;
    if row.rubricId == id {
      assert CriteriaOf(front + [row], id) == criteria + [row.criterion];
      assert (criteria + [row.criterion])[..|criteria|] == criteria;
    } else {
      assert CriteriaOf(front + [row], id) == criteria + [] == criteria;
    }
  }

  /** The pair of a row, or nothing. */
  function PairIf(row: Row, wanted: bool): multiset<(int, int)> {
    if wanted then multiset{(row.rubricId, row.criterion)} else multiset{}
  }

  /** A further row adds its pair to the listed ones, once, if its rubric is listed. */
  lemma {:induction false} ListedPairsStep(front: seq<Row>, row: Row, ids: seq<int>)
    requires Distinct(ids)
    ensures ListedPairs(front + [row], ids) == ListedPairs(front, ids) + PairIf(row, row.rubricId in ids)
  {
    if ids != [] {
      var k := |ids| - 1;
      var rest, id, rows := ids[..k], ids[k], front + [row];
      PairOnce(row, ids);
      hide CriteriaOf, GroupPairs, PairIf;
      ListedPairsStep(front, row, rest);
      GroupPairsStep(front, row, id);
      Regroup(ListedPairs(front, rest), GroupPairs(id, CriteriaOf(front, id)),
              PairIf(row, row.rubricId in rest), PairIf(row, row.rubricId == id));
    }
  }

  lemma PairOnce(row: Row, ids: seq<int>)
    requires Distinct(ids) && ids != []
    ensures var k := |ids| - 1;
      PairIf(row, row.rubricId in ids) == PairIf(row, row.rubricId in ids[..k]) + PairIf(row, row.rubricId == ids[k])
  {
  }

  lemma Regroup(a: multiset<(int, int)>, b: multiset<(int, int)>, c: multiset<(int, int)>, d: multiset<(int, int)>)
    ensures (a + c) + (b + d) == (a + b) + (c + d)
  {
  }

  lemma {:induction false} NoRowsNoPairs(ids: seq<int>)
    ensures ListedPairs([], ids) == multiset{}
  {
    if ids != [] {
      NoRowsNoPairs(ids[..|ids| - 1]);
      assert CriteriaOf([], ids[|ids| - 1]) == [];
    }
  }

  /** Every row lands in exactly one group: the listed rubrics hold the rows' criteria, each as often as it occurs. */
  lemma {:induction false} GroupingConserves(rows: seq<Row>, ids: seq<int>)
    requires Distinct(ids) && forall i :: 0 <= i < |rows| ==> rows[i].rubricId in ids
    ensures ListedPairs(rows, ids) == RowPairs(rows)
  {
    if rows == [] {
      NoRowsNoPairs(ids);
    } else {
      var front, row := rows[..|rows| - 1], rows[|rows| - 1];
      assert rows == front + [row];
      assert RowPairs(rows) == RowPairs(front) + PairIf(row, true);
      assert row.rubricId in ids;
      hide RowPairs, ListedPairs, PairIf;
      GroupingConserves(front, ids);
      ListedPairsStep(front, row, ids);
    }
  }
}
