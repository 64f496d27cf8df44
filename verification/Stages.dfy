/** Validating the stages a user selects and putting them into their canonical order. */
module Stages {
  import opened Prelude

  const STAGE_ORDER: map<string, int> := map["Experience" := 0, "Project" := 1, "Technical" := 2, "Behavioral" := 3]

  predicate IsValidStage(stage: string) {
    stage in STAGE_ORDER
  }

  predicate AllValid(stages: seq<string>) {
    forall i :: 0 <= i < |stages| ==> IsValidStage(stages[i])
  }

  /** The position of a stage; a stage not in the table reads as 0, as a missing map key does. */
  function Rank(stage: string): int {
    if stage in STAGE_ORDER then STAGE_ORDER[stage] else 0
  }

  ghost predicate Sorted(stages: seq<string>) {
    forall i, j :: 0 <= i < j < |stages| ==> Rank(stages[i]) <= Rank(stages[j])
  }

  /** The same stages, each as often, in canonical order. */
  ghost predicate Canonical(selected: seq<string>, r: seq<string>) {
    Sorted(r) && multiset(r) == multiset(selected)
  }

  lemma FourSorted()
    ensures Sorted(["Experience", "Project", "Technical", "Behavioral"])
    ensures forall stage :: IsValidStage(stage) <==>
      stage == "Experience" || stage == "Project" || stage == "Technical" || stage == "Behavioral"
  {
  }

  /** A complete selection comes back in this order, whatever order it was made in. */
  lemma FourInOrder(selected: seq<string>, r: seq<string>)
    requires multiset(selected) == multiset(["Experience", "Project", "Technical", "Behavioral"])
    requires AllValid(selected) && Canonical(selected, r)
    ensures r == ["Experience", "Project", "Technical", "Behavioral"]
  {
    FourSorted();
    hide Rank, IsValidStage, Sorted;
    CanonicalIsUnique(selected, selected, r, ["Experience", "Project", "Technical", "Behavioral"]);
  }

  method ValidateSelectedStages(selected: seq<string>) returns (r: Result<seq<string>, string>)
    ensures r.Ok? <==> AllValid(selected)
    ensures r.Ok? ==> Canonical(selected, r.value)
    ensures r.Err? ==> r.error in selected && !IsValidStage(r.error)
  {
    for i := 0 to |selected|
      invariant forall j :: 0 <= j < i ==> IsValidStage(selected[j])
    {
      if !IsValidStage(selected[i]) {
        return Err(selected[i]);
      }
    }
    var sorted := SortSlice(selected);
    return Ok(sorted);
  }

  /** Sorting by rank; nothing is promised about the order of equal ranks. */
  method SortSlice(stages: seq<string>) returns (sorted: seq<string>)
    ensures Canonical(stages, sorted)
  {
    sorted := [];
    for i := 0 to |stages|
      invariant Canonical(stages[..i], sorted)
    {
      sorted := InsertByRank(sorted, stages[i]);
      assert stages[..i + 1] == stages[..i] + [stages[i]];
    }
    assert stages[..|stages|] == stages;
  }

  method InsertByRank(sorted: seq<string>, stage: string) returns (r: seq<string>)
    requires Sorted(sorted)
    ensures Sorted(r) && multiset(r) == multiset(sorted) + multiset{stage}
  {
    hide Rank;
    var k := 0;
    while k < |sorted| && Rank(sorted[k]) <= Rank(stage)
      invariant 0 <= k <= |sorted|
      invariant forall j :: 0 <= j < k ==> Rank(sorted[j]) <= Rank(stage)
    {
      k := k + 1;
    }
    InsertKeeps(sorted, k, stage);
    InsertMultiset(sorted, k, stage);
    r := sorted[..k] + [stage] + sorted[k..];
  }

  lemma InsertKeeps(sorted: seq<string>, k: nat, stage: string)
    requires Sorted(sorted) && k <= |sorted|
    requires forall j :: 0 <= j < k ==> Rank(sorted[j]) <= Rank(stage)
    requires k < |sorted| ==> Rank(stage) <= Rank(sorted[k])
    ensures Sorted(sorted[..k] + [stage] + sorted[k..])
  {
  }

  lemma InsertMultiset(sorted: seq<string>, k: nat, stage: string)
    requires k <= |sorted|
    ensures multiset(sorted[..k] + [stage] + sorted[k..]) == multiset(sorted) + multiset{stage}
  {
    assert sorted == sorted[..k] + sorted[k..];
  }

  /** Different valid stages have different ranks. */
  lemma RankInjective(a: string, b: string)
    requires IsValidStage(a) && IsValidStage(b) && Rank(a) == Rank(b)
    ensures a == b
  {
  }

  lemma ValidByCount(a: seq<string>, b: seq<string>)
    requires multiset(a) == multiset(b) && AllValid(a)
    ensures AllValid(b) && |a| == |b|
  {
    assert |multiset(a)| == |multiset(b)|;
    forall i | 0 <= i < |b| ensures IsValidStage(b[i]) {
      assert b[i] in multiset(b);
      assert b[i] in a;
    }
  }

  /** There is one canonical order only, so it does not depend on the order of the selection or on the sorting used. */
  lemma {:induction false} CanonicalIsUnique(a: seq<string>, b: seq<string>, r: seq<string>, s: seq<string>)
    requires AllValid(a) && multiset(a) == multiset(b) && Canonical(a, r) && Canonical(b, s)
    ensures r == s
    decreases |r|
  {
    ValidByCount(a, r);
    ValidByCount(a, s);
    if r != [] {
      HeadsEqual(r, s);
      TailsEqual(r, s);
      hide Rank, IsValidStage;
      CanonicalIsUnique(r[1..], s[1..], r[1..], s[1..]);
    }
  }

  lemma HeadsEqual(r: seq<string>, s: seq<string>)
    requires r != [] && s != [] && AllValid(r) && AllValid(s) && Sorted(r) && Sorted(s) && multiset(r) == multiset(s)
    ensures r[0] == s[0]
  {
    assert r[0] in multiset(r) && s[0] in multiset(s);
    var i :| 0 <= i < |s| && s[i] == r[0];
    var j :| 0 <= j < |r| && r[j] == s[0];
    assert Rank(s[0]) <= Rank(s[i]) && Rank(r[0]) <= Rank(r[j]) by {
      hide Rank;
    }
    RankInjective(r[0], s[0]);
  }

  lemma TailsEqual(r: seq<string>, s: seq<string>)
    requires r != [] && s != [] && r[0] == s[0] && multiset(r) == multiset(s)
    ensures multiset(r[1..]) == multiset(s[1..])
  {
    assert r == [r[0]] + r[1..] && s == [s[0]] + s[1..];
    assert multiset(r[1..]) == multiset(r) - multiset{r[0]};
    assert multiset(s[1..]) == multiset(s) - multiset{s[0]};
  }

  /** Validating a validated selection changes nothing. */
  lemma Idempotent(selected: seq<string>, once: seq<string>, twice: seq<string>)
    requires AllValid(selected) && Canonical(selected, once) && Canonical(once, twice)
    ensures twice == once
  {
    CanonicalIsUnique(selected, once, once, twice);
  }
}
