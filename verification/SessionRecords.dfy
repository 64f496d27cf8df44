/** The rows one interview session consists of. */
module SessionRecords {
  import opened Prelude
  import opened SessionStatus

  /** A row of interview_states: one stage of the interview. */
  datatype Stage = Stage(id: int, phrase: string, ended: bool, lastTurn: Option<int>, evaluated: bool)

  /** A row of interview_turns, of the interviewer or the user, with the phrase it was stored under. */
  datatype Turn = Turn(id: int, phrase: string)

  /** The evaluation of a turn with the number of its criterion scores and its overall score as stored. */
  datatype TurnEvaluation = TurnEvaluation(turn: int, phrase: string, criterionScores: nat, overallScore: string)

  datatype PhraseEvaluation = PhraseEvaluation(stateId: int, phrase: string)

  /** A row of interview_sessions with its stages, turns and evaluations, each in the order of insertion. */
  datatype Session = Session(
    status: Status,
    finalize: FinalizeStatus,
    current: Option<(int, string)>,
    overallScore: real,
    stages: seq<Stage>,
    turns: seq<Turn>,
    turnEvaluations: seq<TurnEvaluation>,
    phraseEvaluations: seq<PhraseEvaluation>)

  ghost predicate DistinctStages(stages: seq<Stage>) {
    forall i, j :: 0 <= i < j < |stages| ==> stages[i].id != stages[j].id
  }

  /** The same stages, in the same order, of which possibly more are evaluated. */
  ghost predicate OnlyEvaluated(before: seq<Stage>, after: seq<Stage>) {
    && |before| == |after|
    && forall i :: 0 <= i < |before| ==>
      after[i] == before[i].(evaluated := after[i].evaluated) && (before[i].evaluated ==> after[i].evaluated)
  }
}
