/** What finalizing a session guarantees, whatever fails and however often it is repeated. */
module Finalization {
  import opened Prelude
  import opened SessionStatus
  import opened SessionRecords
  import opened Evaluation
  import Scores

  // ---------------------------------------------------------------- a closed form of the loop

  /** No call made for a stage fails; a stage without scored turns needs only the query. */
  predicate StagePasses(turns: seq<TurnEvaluation>, phrase: string, c: Calculation) {
    c != QueryFails && (HasScores(turns, phrase) ==> c == Completes)
  }

  /** How many stages pass before the first that does not. */
  function Passed(turns: seq<TurnEvaluation>, pending: seq<Stage>, calculations: seq<Calculation>): (n: nat)
    ensures n <= |pending|
    decreases |pending|
  {
    if pending == [] || !StagePasses(turns, pending[0].phrase, First(calculations)) then 0
    else 1 + Passed(turns, pending[1..], Rest(calculations))
  }

  /** The phrase evaluations stored for stages that pass. */
  function Scored(turns: seq<TurnEvaluation>, done: seq<Stage>): seq<PhraseEvaluation> {
    if done == [] then []
    else (if HasScores(turns, done[0].phrase) then [PhraseEvaluation(done[0].id, done[0].phrase)] else [])
         + Scored(turns, done[1..])
  }

  function Ids(evaluations: seq<PhraseEvaluation>): set<int> {
    set e <- evaluations :: e.stateId
  }

  /** Storing phrase evaluations and flagging exactly their stages. */
  function Store(s: Session, added: seq<PhraseEvaluation>): Session {
    s.(phraseEvaluations := s.phraseEvaluations + added, stages := MarkEvaluated(s.stages, Ids(added)))
  }

  lemma StoreNothing(s: Session)
    ensures Store(s, []) == s
  {
  }

  lemma StoreTwice(s: Session, a: seq<PhraseEvaluation>, b: seq<PhraseEvaluation>)
    ensures Store(Store(s, a), b) == Store(s, a + b)
  {
  }

  lemma StoreOne(s: Session, id: int, phrase: string)
    ensures StorePhraseEvaluation(s, id, phrase) == Store(s, [PhraseEvaluation(id, phrase)])
  {
  }

  lemma StoreKeepsStages(s: Session, added: seq<PhraseEvaluation>, id: int)
    requires HasStage(s.stages, id)
    ensures HasStage(Store(s, added).stages, id)
  {
    var i :| 0 <= i < |s.stages| && s.stages[i].id == id;
    assert Store(s, added).stages[i].id == id;
  }

  lemma ScoredOne(turns: seq<TurnEvaluation>, st: Stage)
    ensures Scored(turns, [st]) == if HasScores(turns, st.phrase) then [PhraseEvaluation(st.id, st.phrase)] else []
  {
  }

  lemma CalculateIs(s: Session, st: Stage, c: Calculation)
    requires HasStage(s.stages, st.id)
    ensures var passes := StagePasses(s.turnEvaluations, st.phrase, c);
            Calculate(s, st.id, st.phrase, c)
              == (if passes then Store(s, Scored(s.turnEvaluations, [st])) else s, passes)
  {
    StoreOne(s, st.id, st.phrase);
    StoreNothing(s);
    ScoredOne(s.turnEvaluations, st);
    hide Store, StorePhraseEvaluation, Scored, HasScores;
  }

  lemma {:induction false} ScoredAppend(turns: seq<TurnEvaluation>, a: seq<Stage>, b: seq<Stage>)
    ensures Scored(turns, a + b) == Scored(turns, a) + Scored(turns, b)
  {
    if a == [] {
      assert a + b == b && Scored(turns, a) + Scored(turns, b) == Scored(turns, b);
    } else {
      var head := if HasScores(turns, a[0].phrase) then [PhraseEvaluation(a[0].id, a[0].phrase)] else [];
      assert (a + b)[0] == a[0] && (a + b)[1..] == a[1..] + b;
      assert Scored(turns, a + b) == head + Scored(turns, a[1..] + b);
      assert Scored(turns, a) == head + Scored(turns, a[1..]);
      hide *;
      ScoredAppend(turns, a[1..], b);
    }
  }

  /** The loop stores the evaluations of the stages before the first failure and nothing else. */
  lemma {:induction false} CalculateAllIs(s: Session, pending: seq<Stage>, calculations: seq<Calculation>)
    requires forall st :: st in pending ==> HasStage(s.stages, st.id)
    ensures var n := Passed(s.turnEvaluations, pending, calculations);
            CalculateAll(s, pending, calculations)
              == (Store(s, Scored(s.turnEvaluations, pending[..n])), n == |pending|)
    decreases |pending|
  {
    var turns := s.turnEvaluations;
    var n := Passed(turns, pending, calculations);
    if pending == [] {
      StoreNothing(s);
    } else {
      CalculateIs(s, pending[0], First(calculations));
      if n == 0 {
        assert pending[..0] == [];
        StoreNothing(s);
      } else {
        var head := Scored(turns, [pending[0]]);
        var next := Store(s, head);
        forall st | st in pending[1..] ensures HasStage(next.stages, st.id) {
          StoreKeepsStages(s, head, st.id);
        }
        hide HasStage, HasScores, Store, Scored, StagePasses, Calculate;
        CalculateAllIs(next, pending[1..], Rest(calculations));
        StoreFields(s, head);
        assert pending[..n] == [pending[0]] + pending[1..][..n - 1];
        ScoredAppend(turns, [pending[0]], pending[1..][..n - 1]);
        StoreTwice(s, head, Scored(turns, pending[1..][..n - 1]));
      }
    }
  }

  lemma StoreFields(s: Session, added: seq<PhraseEvaluation>)
    ensures var r := Store(s, added);
      r.turnEvaluations == s.turnEvaluations && r.finalize == s.finalize && r.status == s.status
      && r.current == s.current && r.overallScore == s.overallScore
      && r.phraseEvaluations == s.phraseEvaluations + added
  {
  }

  // ---------------------------------------------------------------- one finalization

  predicate Processed(st: Stage) {
    st.ended && st.evaluated
  }

  lemma {:induction false} UnprocessedIs(stages: seq<Stage>)
    ensures forall st :: st in Unprocessed(stages) <==> st in stages && !Processed(st)
  {
    if stages != [] {
      UnprocessedIs(stages[1..]);
      assert stages == [stages[0]] + stages[1..];
    }
  }

  lemma {:induction false} ScoredIs(turns: seq<TurnEvaluation>, done: seq<Stage>)
    ensures forall e :: e in Scored(turns, done) <==>
      exists st :: st in done && HasScores(turns, st.phrase) && e == PhraseEvaluation(st.id, st.phrase)
  {
    if done != [] {
      ScoredIs(turns, done[1..]);
      hide HasScores;
      assert done == [done[0]] + done[1..];
      var e0 := PhraseEvaluation(done[0].id, done[0].phrase);
      forall e ensures e in Scored(turns, done) <==>
        exists st :: st in done && HasScores(turns, st.phrase) && e == PhraseEvaluation(st.id, st.phrase)
      {
        if HasScores(turns, done[0].phrase) && e == e0 {
          assert done[0] in done;
        }
      }
    }
  }

  function At(calculations: seq<Calculation>, k: nat): Calculation {
    if k < |calculations| then calculations[k] else Completes
  }

  /** Every stage passes when no call made for any of them fails. */
  lemma {:induction false} AllPass(turns: seq<TurnEvaluation>, pending: seq<Stage>, calculations: seq<Calculation>)
    ensures Passed(turns, pending, calculations) == |pending| <==>
      forall k :: 0 <= k < |pending| ==> StagePasses(turns, pending[k].phrase, At(calculations, k))
    decreases |pending|
  {
    hide StagePasses;
    if pending != [] {
      var rest := Rest(calculations);
      AllPass(turns, pending[1..], rest);
      assert First(calculations) == At(calculations, 0);
      assert forall k :: 0 <= k < |pending| - 1 ==>
        pending[1..][k] == pending[k + 1] && At(rest, k) == At(calculations, k + 1);
      if forall k :: 0 <= k < |pending| - 1 ==> StagePasses(turns, pending[1..][k].phrase, At(rest, k)) {
        forall k | 1 <= k < |pending| ensures StagePasses(turns, pending[k].phrase, At(calculations, k)) {
          assert pending[1..][k - 1] == pending[k];
        }
      } else {
        var k :| 0 <= k < |pending| - 1 && !StagePasses(turns, pending[1..][k].phrase, At(rest, k));
        assert !StagePasses(turns, pending[k + 1].phrase, At(calculations, k + 1));
      }
    }
  }

  /** The evaluations one finalization stores. */
  function AddedBy(s: Session, f: Faults): seq<PhraseEvaluation> {
    var pending := Unprocessed(s.stages);
    var n := Passed(s.turnEvaluations, pending, f.calculations);
    if f.stagesRead then Scored(s.turnEvaluations, pending[..n]) else []
  }

  /** No call of the finalization fails. */
  ghost predicate Faultless(s: Session, f: Faults) {
    var pending := Unprocessed(s.stages);
    && f.stagesRead && f.finalizedWrite
    && forall k :: 0 <= k < |pending| ==> StagePasses(s.turnEvaluations, pending[k].phrase, At(f.calculations, k))
  }

  /** Besides the finalize status a finalization changes nothing but stored evaluations with their flags. */
  lemma FinalizeIs(s: Session, f: Faults)
    ensures var (r, ok) := Finalize(s, f);
      && r == Store(s, AddedBy(s, f)).(finalize := r.finalize)
      && (ok <==> Faultless(s, f))
      && r.finalize == (if ok then Finalized else if f.failedWrite then Failed else s.finalize)
  {
    var pending := Unprocessed(s.stages);
    UnprocessedIs(s.stages);
    StoreNothing(s);
    AllPass(s.turnEvaluations, pending, f.calculations);
    forall st | st in pending ensures HasStage(s.stages, st.id) {
    }
    CalculateAllIs(s, pending, f.calculations);
    StoreFields(s, AddedBy(s, f));
    hide Store, Passed, Scored, Unprocessed, CalculateAll, StagePasses, HasStage;
  }

  /** The outcome for one stage row: evaluated together with its phrase evaluation, or no turn of it has scores. */
  ghost predicate Settled(s: Session, i: nat)
    requires i < |s.stages|
  {
    var st := s.stages[i];
    || (st.evaluated && PhraseEvaluation(st.id, st.phrase) in s.phraseEvaluations)
    || forall k :: 0 <= k < |s.turnEvaluations| && s.turnEvaluations[k].phrase == st.phrase ==>
         s.turnEvaluations[k].criterionScores == 0
  }

  /** Some turn evaluation of the phrase has criterion scores. */
  ghost predicate TurnScored(s: Session, phrase: string) {
    exists k ::
      && 0 <= k < |s.turnEvaluations|
      && s.turnEvaluations[k].phrase == phrase && s.turnEvaluations[k].criterionScores > 0
  }

  lemma HasScoresIs(s: Session, phrase: string)
    ensures HasScores(s.turnEvaluations, phrase) <==> TurnScored(s, phrase)
  {
    if TurnScored(s, phrase) {
      var k :| 0 <= k < |s.turnEvaluations|
               && s.turnEvaluations[k].phrase == phrase && s.turnEvaluations[k].criterionScores > 0;
      assert s.turnEvaluations[k] in s.turnEvaluations;
    }
  }

  /** A finalization that succeeds stores an evaluation for exactly the stages not processed that have scored turns. */
  lemma FinalizedExactly(s: Session, f: Faults)
    requires Finalize(s, f).1
    ensures var r, added := Finalize(s, f).0, AddedBy(s, f);
      && r.phraseEvaluations == s.phraseEvaluations + added && |r.stages| == |s.stages|
      && (forall e :: e in added <==>
           exists i :: 0 <= i < |s.stages| && !(s.stages[i].ended && s.stages[i].evaluated)
                       && TurnScored(s, s.stages[i].phrase)
                       && e == PhraseEvaluation(s.stages[i].id, s.stages[i].phrase))
      && forall i :: 0 <= i < |s.stages| ==>
           (r.stages[i].evaluated <==> s.stages[i].evaluated || s.stages[i].id in Ids(added))
  {
    var pending, added := Unprocessed(s.stages), AddedBy(s, f);
    FinalizeIs(s, f);
    StoreFields(s, added);
    AllPass(s.turnEvaluations, pending, f.calculations);
    assert pending[..|pending|] == pending;
    UnprocessedIs(s.stages);
    ScoredIs(s.turnEvaluations, pending);
    forall phrase ensures HasScores(s.turnEvaluations, phrase) <==> TurnScored(s, phrase) {
      HasScoresIs(s, phrase);
    }
    hide Finalize, Scored, HasScores, TurnScored, Unprocessed, Passed, StagePasses, Ids;
    forall e | e in added
      ensures exists i :: 0 <= i < |s.stages| && !(s.stages[i].ended && s.stages[i].evaluated)
                          && TurnScored(s, s.stages[i].phrase)
                          && e == PhraseEvaluation(s.stages[i].id, s.stages[i].phrase)
    {
      var st :| st in pending && HasScores(s.turnEvaluations, st.phrase) && e == PhraseEvaluation(st.id, st.phrase);
      var i :| 0 <= i < |s.stages| && s.stages[i] == st;
    }
    forall i | 0 <= i < |s.stages| && !(s.stages[i].ended && s.stages[i].evaluated) && TurnScored(s, s.stages[i].phrase)
      ensures PhraseEvaluation(s.stages[i].id, s.stages[i].phrase) in added
    {
      assert s.stages[i] in pending;
    }
  }

  /** Every stage unprocessed before is settled after. */
  ghost predicate AllSettled(before: Session, after: Session) {
    && |after.stages| == |before.stages|
    && forall i :: 0 <= i < |before.stages| && !Processed(before.stages[i]) ==> Settled(after, i)
  }

  /**
   Finalization is all or failed. "Finalized" is written exactly when no call fails, and then every stage that was
   unprocessed is settled; otherwise "failed" is written unless that write fails too.
   */
  lemma FinalizeAllOrFailed(s: Session, f: Faults)
    ensures var (r, ok) := Finalize(s, f);
      && (ok <==> Faultless(s, f))
      && (ok ==> r.finalize == Finalized && AllSettled(s, r))
      && (!ok ==> r.finalize == if f.failedWrite then Failed else s.finalize)
  {
    var (r, ok) := Finalize(s, f);
    FinalizeIs(s, f);
    StoreFields(s, AddedBy(s, f));
    if ok {
      var pending := Unprocessed(s.stages);
      AllPass(s.turnEvaluations, pending, f.calculations);
      assert pending[..|pending|] == pending;
      forall i | 0 <= i < |s.stages| && !Processed(s.stages[i]) ensures Settled(r, i) {
        UnprocessedIs(s.stages);
        ScoredIs(s.turnEvaluations, pending);
        assert s.stages[i] in pending;
        SettledByStore(s, Scored(s.turnEvaluations, pending), i);
      }
    }
  }

  lemma SettledByStore(s: Session, added: seq<PhraseEvaluation>, i: nat)
    requires i < |s.stages|
    requires var st := s.stages[i];
      HasScores(s.turnEvaluations, st.phrase) ==> PhraseEvaluation(st.id, st.phrase) in added
    ensures Settled(Store(s, added), i)
  {
  }

  /** Finalizing again after a success stores further evaluations exactly when an open stage has scored turns. */
  lemma FinalizeAgain(s: Session, f: Faults, again: Faults)
    requires Finalize(s, f).1 && Finalize(Finalize(s, f).0, again).1
    ensures var r := Finalize(s, f).0;
      Finalize(r, again).0 == r <==>
        forall st :: st in s.stages && !st.ended ==> !HasScores(s.turnEvaluations, st.phrase)
  {
    var r, turns := Finalize(s, f).0, s.turnEvaluations;
    FinalizeAllOrFailed(s, f);
    FinalizeIs(s, f);
    StoreFields(s, AddedBy(s, f));
    FinalizeIs(r, again);
    var pending := Unprocessed(r.stages);
    AllPass(turns, pending, again.calculations);
    assert pending[..|pending|] == pending;
    UnprocessedIs(r.stages);
    ScoredIs(turns, pending);
    var added := Scored(turns, pending);
    StoreKeepsOrder(s, AddedBy(s, f));
    StoreNothing(r);
    hide Finalize, Store, AddedBy, Scored, HasScores, Unprocessed, Faultless, StagePasses;
    if added != [] {
      OpenScored(s, r, added);
      StoreFields(r, added);
      assert (Store(r, added)).phraseEvaluations != r.phraseEvaluations;
    } else {
      forall i | 0 <= i < |s.stages| && !s.stages[i].ended ensures !HasScores(turns, s.stages[i].phrase) {
        assert r.stages[i] in pending;
        var st := r.stages[i];
        assert HasScores(turns, st.phrase) ==> PhraseEvaluation(st.id, st.phrase) in added;
      }
    }
  }

  lemma StoreKeepsOrder(s: Session, added: seq<PhraseEvaluation>)
    ensures OnlyEvaluated(s.stages, Store(s, added).stages)
  {
  }

  /** An evaluation added after everything was settled belongs to an open stage. */
  lemma OpenScored(s: Session, r: Session, added: seq<PhraseEvaluation>)
    requires AllSettled(s, r) && OnlyEvaluated(s.stages, r.stages) && added != []
    requires r.turnEvaluations == s.turnEvaluations
    requires forall e :: e in added ==>
      exists st :: st in r.stages && !Processed(st) && HasScores(s.turnEvaluations, st.phrase)
    ensures exists st :: st in s.stages && !st.ended && HasScores(s.turnEvaluations, st.phrase)
  {
    hide HasScores;
    assert added[0] in added;
    var st :| st in r.stages && !Processed(st) && HasScores(s.turnEvaluations, st.phrase);
    var i :| 0 <= i < |r.stages| && r.stages[i] == st;
    assert Settled(r, i);
    HasScoresIs(r, st.phrase);
    assert s.stages[i] in s.stages;
  }

  // ---------------------------------------------------------------- ending a session

  /** The session row gets the requested status and its overall score. */
  predicate SessionWritten(s: Session, e: EndFaults) {
    && e.evaluationsRead && Scores.Overall(ScoreTexts(s.turnEvaluations)).Some?
    && (s.turnEvaluations == [] || e.summaryMade) && e.sessionWrite
  }

  /** An attempt to write "failed" succeeds, at the outer or the inner level. */
  predicate FailureWritten(s: Session, e: EndFaults) {
    e.failedWrite || (SessionWritten(s, e) && e.faults.failedWrite)
  }

  function AddedByEnd(s: Session, e: EndFaults): seq<PhraseEvaluation> {
    if SessionWritten(s, e) then AddedBy(s, e.faults) else []
  }

  lemma EndIs(s: Session, status: Status, e: EndFaults)
    ensures var (r, ok) := End(s, status, e);
      r == Store(s, AddedByEnd(s, e)).(status := r.status, overallScore := r.overallScore, finalize := r.finalize)
  {
    StoreNothing(s);
    if SessionWritten(s, e) {
      var score := Scores.Overall(ScoreTexts(s.turnEvaluations)).value;
      FinalizeIs(s.(status := status, overallScore := score), e.faults);
      hide Scores.Overall, Finalize, AddedBy, Faultless;
    }
  }

  /**
   Ending a session succeeds exactly when no call fails; the session then has the requested status, its overall score,
   "finalized", and every stage settled. Otherwise it is "failed" unless every attempt to write that fails.
   */
  lemma EndAllOrFailed(s: Session, status: Status, e: EndFaults)
    ensures var (r, ok) := End(s, status, e);
      && (ok <==> SessionWritten(s, e) && Faultless(s, e.faults))
      && (ok ==> r.finalize == Finalized && AllSettled(s, r))
      && (!ok ==> r.finalize == if FailureWritten(s, e) then Failed else s.finalize)
      && r.status == (if SessionWritten(s, e) then status else s.status)
      && (SessionWritten(s, e) ==> Some(r.overallScore) == Scores.Overall(ScoreTexts(s.turnEvaluations)))
  {
    if SessionWritten(s, e) {
      var score := Scores.Overall(ScoreTexts(s.turnEvaluations)).value;
      var written := s.(status := status, overallScore := score);
      FinalizeAllOrFailed(written, e.faults);
      FinalizeIs(written, e.faults);
      StoreFields(written, AddedBy(written, e.faults));
      assert Faultless(written, e.faults) <==> Faultless(s, e.faults);
      hide Scores.Overall, Finalize, AddedBy, Faultless, Store, Settled;
    }
  }

  /**
   For rows that hold what is stored for raw scores in range, nothing but a failing call keeps the score from being
   written; it is in range, in hundredths, and within 0.01 of the mean of the raw scores.
   */
  lemma EndedScore(s: Session, status: Status, e: EndFaults, raw: seq<real>)
    requires |raw| == |s.turnEvaluations| && raw != []
    requires forall i :: 0 <= i < |raw| ==> 0.0 <= raw[i] <= Scores.MAX_SCORE
    requires forall i :: 0 <= i < |raw| ==> Scores.Stored(raw[i]) == Some(s.turnEvaluations[i].overallScore)
    ensures SessionWritten(s, e) <==> e.evaluationsRead && e.summaryMade && e.sessionWrite
    ensures SessionWritten(s, e) ==>
      var score := End(s, status, e).0.overallScore;
      && 0.0 <= score <= Scores.MAX_SCORE && Scores.Hundredths(score)
      && Scores.Near(score, Scores.Sum(raw) / |raw| as real, 0.01)
  {
    OverallFits(raw, s.turnEvaluations);
    if SessionWritten(s, e) {
      EndScores(s, status, e, raw);
    }
    hide Scores.Overall, Scores.Stored, End;
  }

  /** Without evaluations the score is 0. */
  lemma EndedScoreOfNone(s: Session, status: Status, e: EndFaults)
    requires SessionWritten(s, e) && s.turnEvaluations == []
    ensures End(s, status, e).0.overallScore == 0.0
  {
    EndScores(s, status, e, []);
    hide End;
  }

  // ---------------------------------------------------------------- counting evaluations

  lemma EndKeeps(s: Session, status: Status, e: EndFaults)
    ensures var r := End(s, status, e).0;
      && OnlyEvaluated(s.stages, r.stages) && r.phraseEvaluations == s.phraseEvaluations + AddedByEnd(s, e)
      && r.current == s.current && r.turnEvaluations == s.turnEvaluations
  {
    EndIs(s, status, e);
    StoreFields(s, AddedByEnd(s, e));
    StoreKeepsOrder(s, AddedByEnd(s, e));
  }

  function Count(evaluations: seq<PhraseEvaluation>, id: int): nat {
    if evaluations == [] then 0 else (if evaluations[0].stateId == id then 1 else 0) + Count(evaluations[1..], id)
  }

  lemma {:induction false} CountAppend(a: seq<PhraseEvaluation>, b: seq<PhraseEvaluation>, id: int)
    ensures Count(a + b, id) == Count(a, id) + Count(b, id)
  {
    if a == [] {
      assert a + b == b;
    } else {
      assert (a + b)[1..] == a[1..] + b;
      CountAppend(a[1..], b, id);
    }
  }

  lemma {:induction false} CountMember(evaluations: seq<PhraseEvaluation>, id: int)
    ensures Count(evaluations, id) > 0 <==> id in Ids(evaluations)
  {
    if evaluations != [] {
      CountMember(evaluations[1..], id);
      assert evaluations == [evaluations[0]] + evaluations[1..];
      assert Ids(evaluations) == {evaluations[0].stateId} + Ids(evaluations[1..]);
    }
  }

  lemma {:induction false} UnprocessedDistinct(stages: seq<Stage>)
    requires DistinctStages(stages)
    ensures DistinctStages(Unprocessed(stages))
  {
    if stages != [] {
      UnprocessedDistinct(stages[1..]);
      UnprocessedIs(stages[1..]);
      var rest := Unprocessed(stages[1..]);
      forall j | 0 <= j < |rest| ensures rest[j].id != stages[0].id {
        assert rest[j] in stages[1..];
        var k :| 0 <= k < |stages[1..]| && stages[1..][k] == rest[j];
        assert stages[k + 1] == rest[j];
      }
    }
  }

  lemma {:induction false} CountScored(turns: seq<TurnEvaluation>, done: seq<Stage>, id: int)
    requires DistinctStages(done)
    ensures Count(Scored(turns, done), id) <= 1
    ensures Count(Scored(turns, done), id) == 1 ==> exists st :: st in done && st.id == id
  {
    if done != [] {
      CountScored(turns, done[1..], id);
      hide HasScores;
      ScoredOne(turns, done[0]);
      assert done == [done[0]] + done[1..];
      ScoredAppend(turns, [done[0]], done[1..]);
      CountAppend(Scored(turns, [done[0]]), Scored(turns, done[1..]), id);
      CountOne(turns, done[0], id);
      if done[0].id == id {
        assert done[0] in done;
        if exists st :: st in done[1..] && st.id == id {
          var k :| 0 <= k < |done[1..]| && done[1..][k].id == id;
          assert done[k + 1].id == done[0].id;
        }
      }
    }
  }

  lemma CountOne(turns: seq<TurnEvaluation>, st: Stage, id: int)
    ensures Count(Scored(turns, [st]), id) <= if st.id == id then 1 else 0
  {
  }

  /** A finalization without failures stores exactly one evaluation of an open stage with scored turns. */
  lemma OpenStageAdded(s: Session, f: Faults, i: nat)
    requires DistinctStages(s.stages) && i < |s.stages| && !s.stages[i].ended
    requires HasScores(s.turnEvaluations, s.stages[i].phrase) && Faultless(s, f)
    ensures Count(AddedBy(s, f), s.stages[i].id) == 1
  {
    var pending, st := Unprocessed(s.stages), s.stages[i];
    UnprocessedIs(s.stages);
    UnprocessedDistinct(s.stages);
    assert st in s.stages;
    AllPass(s.turnEvaluations, pending, f.calculations);
    assert pending[..|pending|] == pending;
    ScoredIs(s.turnEvaluations, pending);
    CountScored(s.turnEvaluations, pending, st.id);
    CountMember(Scored(s.turnEvaluations, pending), st.id);
    hide Scored, Unprocessed, Count, HasScores, Passed, StagePasses;
    assert PhraseEvaluation(st.id, st.phrase) in Scored(s.turnEvaluations, pending);
    assert st.id in Ids(Scored(s.turnEvaluations, pending));
  }

  lemma AddedOnce(s: Session, e: EndFaults, i: nat)
    requires DistinctStages(s.stages) && i < |s.stages|
    ensures Count(AddedByEnd(s, e), s.stages[i].id) <= 1
    ensures Count(AddedByEnd(s, e), s.stages[i].id) == 1 ==> !Processed(s.stages[i])
  {
    var pending := Unprocessed(s.stages);
    UnprocessedDistinct(s.stages);
    UnprocessedIs(s.stages);
    var n := Passed(s.turnEvaluations, pending, e.faults.calculations);
    CountScored(s.turnEvaluations, pending[..n], s.stages[i].id);
    hide Scored, Passed, Unprocessed, SessionWritten;
    if Count(AddedByEnd(s, e), s.stages[i].id) == 1 {
      var st :| st in pending[..n] && st.id == s.stages[i].id;
      assert st in pending;
      var k :| 0 <= k < |s.stages| && s.stages[k] == st;
      assert k == i;
    }
  }

  /** An attempt to end a session stores an evaluation of an ended stage exactly when it sets its flag, and only one. */
  lemma EndedOnceStep(s: Session, status: Status, e: EndFaults, i: nat)
    requires DistinctStages(s.stages) && i < |s.stages| && s.stages[i].ended
    ensures var r := End(s, status, e).0;
      && DistinctStages(r.stages) && i < |r.stages| && r.stages[i].ended && r.stages[i].id == s.stages[i].id
      && (s.stages[i].evaluated ==> r.stages[i].evaluated)
      && Count(r.phraseEvaluations, s.stages[i].id) == Count(s.phraseEvaluations, s.stages[i].id)
           + (if r.stages[i].evaluated && !s.stages[i].evaluated then 1 else 0)
  {
    EndKeeps(s, status, e);
    EndIs(s, status, e);
    var added := AddedByEnd(s, e);
    AddedOnce(s, e, i);
    CountMember(added, s.stages[i].id);
    CountAppend(s.phraseEvaluations, added, s.stages[i].id);
    hide End, AddedByEnd, Count;
  }
}
