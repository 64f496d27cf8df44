/**
 Evaluating the stages of a session and finalizing it.
 Queries, the scoring agent and transactions may fail; a fault plan says which calls do.
 */
module Evaluation {
  import opened Prelude
  import opened SessionStatus
  import opened SessionRecords
  import Scores

  // ---------------------------------------------------------------- what can go wrong

  /** How the calls made for one stage end. */
  datatype Calculation = QueryFails | BadSummary | AgentFails | BadCriterionId | TransactionFails | Completes

  /** How the calls of one finalization end: reading the stages, each stage, the two status writes. */
  datatype Faults = Faults(stagesRead: bool, calculations: seq<Calculation>, finalizedWrite: bool, failedWrite: bool)

  /** How the calls of one session end end. */
  datatype EndFaults = EndFaults(
    evaluationsRead: bool, summaryMade: bool, sessionWrite: bool, failedWrite: bool, faults: Faults)

  function First(calculations: seq<Calculation>): Calculation {
    if calculations == [] then Completes else calculations[0]
  }

  function Rest(calculations: seq<Calculation>): seq<Calculation> {
    if calculations == [] then [] else calculations[1..]
  }

  // ---------------------------------------------------------------- step by step

  /** The summary query finds a row: some evaluation of the phrase has criterion scores. */
  predicate HasScores(turns: seq<TurnEvaluation>, phrase: string) {
    exists e :: e in turns && e.phrase == phrase && e.criterionScores > 0
  }

  predicate HasStage(stages: seq<Stage>, id: int) {
    exists st :: st in stages && st.id == id
  }

  function Marked(st: Stage, ids: set<int>): Stage {
    if st.id in ids then st.(evaluated := true) else st
  }

  function MarkEvaluated(stages: seq<Stage>, ids: set<int>): seq<Stage> {
    seq(|stages|, i requires 0 <= i < |stages| => Marked(stages[i], ids))
  }

  /** The transaction that stores a phrase evaluation and flags its stage. */
  function StorePhraseEvaluation(s: Session, id: int, phrase: string): Session {
    s.(phraseEvaluations := s.phraseEvaluations + [PhraseEvaluation(id, phrase)],
       stages := MarkEvaluated(s.stages, {id}))
  }

  function Calculate(s: Session, id: int, phrase: string, c: Calculation): (Session, bool) {
    if c == QueryFails then (s, false)
    else if !HasScores(s.turnEvaluations, phrase) then (s, true)
    else if c != Completes || !HasStage(s.stages, id) then (s, false)
    else (StorePhraseEvaluation(s, id, phrase), true)
  }

  /** Stages not ended or not evaluated, in table order. */
  function Unprocessed(stages: seq<Stage>): seq<Stage> {
    if stages == [] then []
    else (if stages[0].ended && stages[0].evaluated then [] else [stages[0]]) + Unprocessed(stages[1..])
  }

  function CalculateAll(s: Session, pending: seq<Stage>, calculations: seq<Calculation>): (Session, bool)
    decreases |pending|
  {
    if pending == [] then (s, true)
    else
      var (next, ok) := Calculate(s, pending[0].id, pending[0].phrase, First(calculations));
      if ok then CalculateAll(next, pending[1..], Rest(calculations)) else (next, false)
  }

  function MarkFailed(s: Session, written: bool): Session {
    if written then s.(finalize := Failed) else s
  }

  function Finalize(s: Session, f: Faults): (Session, bool) {
    if !f.stagesRead then (MarkFailed(s, f.failedWrite), false)
    else
      var (done, ok) := CalculateAll(s, Unprocessed(s.stages), f.calculations);
      if ok && f.finalizedWrite then (done.(finalize := Finalized), true)
      else (MarkFailed(done, f.failedWrite), false)
  }

  function ScoreTexts(turns: seq<TurnEvaluation>): seq<string> {
    seq(|turns|, i requires 0 <= i < |turns| => turns[i].overallScore)
  }

  function End(s: Session, status: Status, e: EndFaults): (Session, bool) {
    var score := Scores.Overall(ScoreTexts(s.turnEvaluations));
    if !e.evaluationsRead || score.None? || (s.turnEvaluations != [] && !e.summaryMade) || !e.sessionWrite then
      (MarkFailed(s, e.failedWrite), false)
    else
      var (done, ok) := Finalize(s.(status := status, overallScore := score.value), e.faults);
      if ok then (done, true) else (MarkFailed(done, e.failedWrite), false)
  }

  // ---------------------------------------------------------------- the overall score

  /** The rows hold, in order, what is stored for these raw scores in range. */
  ghost predicate ScoredAs(raw: seq<real>, turns: seq<TurnEvaluation>) {
    && |raw| == |turns|
    && forall i :: 0 <= i < |raw| ==>
      0.0 <= raw[i] <= Scores.MAX_SCORE && Scores.Stored(raw[i]) == Some(turns[i].overallScore)
  }

  /** A whole number of hundredths in range, within 0.01 of the mean of the raw scores; 0 for none. */
  ghost predicate ScoreFits(score: real, raw: seq<real>) {
    && Scores.Hundredths(score) && 0.0 <= score <= Scores.MAX_SCORE
    && if raw == [] then score == 0.0 else Scores.Near(score, Scores.Sum(raw) / |raw| as real, 0.01)
  }

  lemma OverallFits(raw: seq<real>, turns: seq<TurnEvaluation>)
    requires ScoredAs(raw, turns)
    ensures Scores.Overall(ScoreTexts(turns)).Some? && ScoreFits(Scores.Overall(ScoreTexts(turns)).value, raw)
  {
    var texts := ScoreTexts(turns);
    if raw != [] {
      Scores.PipelineBound(raw, texts);
      Scores.OverallIsHundredths(texts);
    }
    hide Scores.Overall, Scores.Sum, Scores.Stored;
  }

  lemma {:induction false} CalculateAllKeepsScore(s: Session, pending: seq<Stage>, calculations: seq<Calculation>)
    ensures var r := CalculateAll(s, pending, calculations).0; r.overallScore == s.overallScore && r.status == s.status
    decreases |pending|
  {
    if pending != [] {
      var next := Calculate(s, pending[0].id, pending[0].phrase, First(calculations)).0;
      assert next.overallScore == s.overallScore && next.status == s.status;
      hide Calculate, First, Rest;
      CalculateAllKeepsScore(next, pending[1..], Rest(calculations));
    }
  }

  /** When the writes work, a session whose rows hold stored scores gets the status asked for and a score that fits. */
  lemma EndScores(s: Session, status: Status, e: EndFaults, raw: seq<real>)
    requires ScoredAs(raw, s.turnEvaluations)
    requires e.evaluationsRead && (raw == [] || e.summaryMade) && e.sessionWrite
    ensures var r := End(s, status, e).0; r.status == status && ScoreFits(r.overallScore, raw)
  {
    OverallFits(raw, s.turnEvaluations);
    var score := Scores.Overall(ScoreTexts(s.turnEvaluations)).value;
    var written := s.(status := status, overallScore := score);
    CalculateAllKeepsScore(written, Unprocessed(s.stages), e.faults.calculations);
    hide Scores.Overall, ScoreFits, CalculateAll, Unprocessed;
  }

  // ---------------------------------------------------------------- the services

  /** The stored session the services work on. */
  class SessionStore {
    var row: Session

    constructor (row: Session)
      ensures this.row == row
    {
      this.row := row;
    }

    method CalculateEvaluationInOldState(id: int, phrase: string, c: Calculation) returns (ok: bool)
      modifies this
      ensures (row, ok) == Calculate(old(row), id, phrase, c)
    {
      if c == QueryFails {
        return false;
      }
      if !HasScores(row.turnEvaluations, phrase) {
        return true;
      }
      if c == BadSummary || c == AgentFails || c == BadCriterionId {
        return false;
      }
      ok := CreatePhraseEvaluationTx(id, phrase, c != TransactionFails);
    }

    /** All or nothing: when the flag update finds no row the inserted evaluation goes too. */
    method CreatePhraseEvaluationTx(id: int, phrase: string, statementsSucceed: bool) returns (ok: bool)
      modifies this
      ensures ok <==> statementsSucceed && HasStage(old(row).stages, id)
      ensures row == if ok then StorePhraseEvaluation(old(row), id, phrase) else old(row)
    {
      var before := row;
      row := row.(phraseEvaluations := row.phraseEvaluations + [PhraseEvaluation(id, phrase)]);
      var affected := HasStage(row.stages, id);
      row := row.(stages := MarkEvaluated(row.stages, {id}));
      ok := statementsSucceed && affected;
      if !ok {
        row := before;
      }
    }

    /** Nothing but the finalize status changes, and no row is "finalized" after the write. */
    method FinalizeSessionFailed(written: bool)
      modifies this
      ensures row.(finalize := old(row.finalize)) == old(row)
      ensures row.finalize == Finalized <==> old(row.finalize) == Finalized && !written
      ensures row == MarkFailed(old(row), written)
    {
      if written {
        row := row.(finalize := Failed);
      }
    }

    method FinalizeSessionPhraseEvaluation(f: Faults) returns (ok: bool)
      modifies this
      ensures (row, ok) == Finalize(old(row), f)
    {
      if !f.stagesRead {
        FinalizeSessionFailed(f.failedWrite);
        return false;
      }
      var pending := Unprocessed(row.stages);
      var calculations := f.calculations;
      for i := 0 to |pending|
        invariant CalculateAll(old(row), pending, f.calculations) == CalculateAll(row, pending[i..], calculations)
      {
        var calculated := CalculateEvaluationInOldState(pending[i].id, pending[i].phrase, First(calculations));
        assert pending[i..][0] == pending[i] && pending[i..][1..] == pending[i + 1..];
        calculations := Rest(calculations);
        if !calculated {
          FinalizeSessionFailed(f.failedWrite);
          return false;
        }
      }
      if !f.finalizedWrite {
        FinalizeSessionFailed(f.failedWrite);
        return false;
      }
      row := row.(finalize := Finalized);
      return true;
    }

    method EndInterviewSession(status: Status, e: EndFaults) returns (ok: bool)
      modifies this
      ensures forall raw ::
        && ScoredAs(raw, old(row.turnEvaluations))
        && e.evaluationsRead && (raw == [] || e.summaryMade) && e.sessionWrite
        ==> row.status == status && ScoreFits(row.overallScore, raw)
      ensures (row, ok) == End(old(row), status, e)
    {
      forall raw |
        && ScoredAs(raw, row.turnEvaluations)
        && e.evaluationsRead && (raw == [] || e.summaryMade) && e.sessionWrite
        ensures var r := End(row, status, e).0; r.status == status && ScoreFits(r.overallScore, raw)
      {
        EndScores(row, status, e, raw);
      }
      hide ScoredAs, ScoreFits;
      if !e.evaluationsRead {
        FinalizeSessionFailed(e.failedWrite);
        return false;
      }
      var score := Scores.OverallScore(ScoreTexts(row.turnEvaluations));
      if score.Err? {
        FinalizeSessionFailed(e.failedWrite);
        return false;
      }
      if |row.turnEvaluations| > 0 && !e.summaryMade {
        FinalizeSessionFailed(e.failedWrite);
        return false;
      }
      if !e.sessionWrite {
        FinalizeSessionFailed(e.failedWrite);
        return false;
      }
      row := row.(status := status, overallScore := score.value);
      var finalized := FinalizeSessionPhraseEvaluation(e.faults);
      if !finalized {
        FinalizeSessionFailed(e.failedWrite);
        return false;
      }
      return true;
    }
  }
}
