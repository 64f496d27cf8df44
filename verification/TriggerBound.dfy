/**
 In orderly runs the scoring of turns evaluates a stage at most once, for its last turn. Together with the evaluations
 of finalizations this bounds how often an ended stage is evaluated, and a run reaches the bound.
 */
module TriggerBound {
  import opened Prelude
  import opened SessionStatus
  import opened SessionRecords
  import opened Evaluation
  import opened LiveSession
  import opened SessionRuns
  import opened StageLedger
  import opened EvaluationRuns
  import opened LastTurns
  import Finalization
  import Scores

  // ---------------------------------------------------------------- at most one triggered evaluation

  /** The stage has ended and its last turn is scored. */
  ghost predicate LastScoredIn(s: Session, id: int) {
    exists i, turn ::
      && 0 <= i < |s.stages|
      && s.stages[i].id == id && s.stages[i].ended && s.stages[i].lastTurn == Some(turn) && IsScored(s, turn)
  }

  ghost predicate LastScored(w: World, sid: int, id: int) {
    sid in w.shared.sessions && LastScoredIn(w.shared.sessions[sid], id)
  }

  /** Of two states of a session: stages that have ended keep their line. */
  ghost predicate LinesStay(s: Session, r: Session) {
    forall i :: 0 <= i < |s.stages| && s.stages[i].ended ==> i < |r.stages| && SameLine(s.stages[i], r.stages[i])
  }

  lemma LastScoredStays(s: Session, r: Session, id: int)
    requires LastScoredIn(s, id) && LinesStay(s, r) && s.turnEvaluations <= r.turnEvaluations
    ensures LastScoredIn(r, id)
  {
    var i, turn :|
      && 0 <= i < |s.stages|
      && s.stages[i].id == id && s.stages[i].ended && s.stages[i].lastTurn == Some(turn) && IsScored(s, turn);
    assert SameLine(s.stages[i], r.stages[i]);
    var e :| e in s.turnEvaluations && e.turn == turn;
    assert e in r.turnEvaluations;
  }

  lemma LastScoredNow(s: Session, r: Session, id: int, turn: int)
    requires HasStage(s.stages, id) && LinesStay(s, r) && !IsScored(s, turn) && IsScored(r, turn)
    requires forall st :: st in s.stages && st.id == id ==> st.ended && st.lastTurn == Some(turn)
    ensures !LastScoredIn(s, id) && LastScoredIn(r, id)
  {
    hide IsScored;
    var i :| 0 <= i < |s.stages| && s.stages[i].id == id;
    assert s.stages[i] in s.stages;
    assert SameLine(s.stages[i], r.stages[i]);
  }

  /** A trigger names the last turn of a stage that has ended. */
  lemma TriggerNames(w: World, e: Event, sid: int, id: int)
    requires TurnInv(w) && Triggers(w, e, sid, id)
    ensures forall st :: st in w.shared.sessions[sid].stages && st.id == id ==>
      st.ended && st.lastTurn == Some(e.scoreTask.turn)
  {
    assert NamedAsLast(w.shared, sid, e.scoreTask.turn);
  }

  lemma TriggerScores(w: World, e: Event, sid: int, id: int)
    requires Triggers(w, e, sid, id)
    ensures sid in Step(w, e).shared.sessions && IsScored(Step(w, e).shared.sessions[sid], e.scoreTask.turn)
  {
    var s := w.shared.sessions[sid];
    var scored := AddEvaluation(s, e.scoreTask, e.scoreFaults);
    CalculateEvaluations(scored, id, e.scoreTask.phrase, e.scoreFaults.calculation);
    hide Calculate, HasScores, HasStage, CachedTurn;
    assert scored.turnEvaluations[|s.turnEvaluations|].turn == e.scoreTask.turn;
    assert Step(w, e).shared.sessions[sid].turnEvaluations == scored.turnEvaluations;
  }

  /** A triggered evaluation is that of the last turn of its stage, which was not scored before. */
  lemma TriggerScoresLast(w: World, e: Event, sid: int, id: int)
    requires TurnInv(w) && Triggers(w, e, sid, id)
    ensures !LastScored(w, sid, id) && LastScored(Step(w, e), sid, id)
  {
    var s, turn := w.shared.sessions[sid], e.scoreTask.turn;
    TriggerNames(w, e, sid, id);
    TriggerScores(w, e, sid, id);
    WorkerTurns(w, e);
    assert !IsScored(s, turn) && HasStage(s.stages, id);
    hide TurnInv, Triggers, Step, IsScored, LastScoredIn, HasStage;
    LastScoredNow(s, Step(w, e).shared.sessions[sid], id, turn);
  }

  lemma CalculateEvaluations(s: Session, id: int, phrase: string, c: Calculation)
    ensures Calculate(s, id, phrase, c).0.turnEvaluations == s.turnEvaluations
  {
  }

  /** How many steps of a run evaluate a stage because its last turn is scored. */
  ghost function Triggered(w: World, events: seq<Event>, sid: int, id: int): nat {
    if events == [] then 0
    else
      var n := |events| - 1;
      Triggered(w, events[..n], sid, id) + (if Triggers(After(w, events[..n]), events[n], sid, id) then 1 else 0)
  }

  /** Over every orderly run turn scoring evaluates a stage at most once, and never after its last turn is scored. */
  lemma {:induction false} TriggeredOnce(w: World, events: seq<Event>, sid: int, id: int)
    requires StageLedger.Inv(w) && TurnInv(w) && OrderlyRun(w, events) && sid in w.shared.sessions
    ensures Triggered(w, events, sid, id) <= if LastScored(w, sid, id) then 0 else 1
    ensures Triggered(w, events, sid, id) == 1 || LastScored(w, sid, id) ==> LastScored(After(w, events), sid, id)
  {
    hide StageLedger.Inv, TurnInv, Orderly, Step, OrderlyRun, LastScoredIn, Triggers;
    if events != [] {
      var n := |events| - 1;
      var before := After(w, events[..n]);
      OrderlyPrefix(w, events);
      TriggeredOnce(w, events[..n], sid, id);
      TurnInvHolds(w, events[..n]);
      StagesOnlyGrow(w, events[..n], sid);
      StepTurns(before, events[n]);
      StepGrows(before, events[n], sid);
      if LastScored(before, sid, id) {
        LastScoredStays(before.shared.sessions[sid], Step(before, events[n]).shared.sessions[sid], id);
      }
      if Triggers(before, events[n], sid, id) {
        TriggerScoresLast(before, events[n], sid, id);
      }
    }
  }

  lemma {:induction false} AnewIsTriggered(w: World, events: seq<Event>, sid: int, id: int)
    ensures ReEvaluations(w, events, sid, id) <= Triggered(w, events, sid, id)
  {
    hide Triggers, After;
    if events != [] {
      AnewIsTriggered(w, events[..|events| - 1], sid, id);
    }
  }

  /**
   Over every orderly run an ended stage gets at most one evaluation besides the one that sets its flag, and none once
   its last turn is scored.
   */
  lemma EndedStageBound(w: World, events: seq<Event>, sid: int, i: nat)
    requires StageLedger.Inv(w) && TurnInv(w) && OrderlyRun(w, events) && sid in w.shared.sessions
    requires i < |w.shared.sessions[sid].stages| && w.shared.sessions[sid].stages[i].ended
    ensures var s := w.shared.sessions[sid];
      && sid in After(w, events).shared.sessions && i < |After(w, events).shared.sessions[sid].stages|
      && var r := After(w, events).shared.sessions[sid];
         var count := Finalization.Count(s.phraseEvaluations, s.stages[i].id)
           + if r.stages[i].evaluated && !s.stages[i].evaluated then 1 else 0;
         count <= Finalization.Count(r.phraseEvaluations, s.stages[i].id)
         <= count + if LastScored(w, sid, s.stages[i].id) then 0 else 1
  {
    var id := w.shared.sessions[sid].stages[i].id;
    assert Ledger(w.shared.sessions[sid]);
    EndedStageCount(w, events, sid, i);
    AnewIsTriggered(w, events, sid, id);
    TriggeredOnce(w, events, sid, id);
    hide After, Finalization.Count, LastScored, Triggered, ReEvaluations;
  }

  // ---------------------------------------------------------------- the bound is reached

  /** A stage has ended, is not evaluated though it has scored turns, and its last turn waits to be scored. */
  ghost predicate LastTurnWaits(w: World, sid: int, i: nat, t: ScoreTask) {
    && sid in w.shared.sessions && i < |w.shared.sessions[sid].stages| && DistinctStages(w.shared.sessions[sid].stages)
    && var s := w.shared.sessions[sid];
       var st := s.stages[i];
       && st.ended && !st.evaluated && HasScores(s.turnEvaluations, st.phrase)
       && t == ScoreTask(sid, t.turn, st.phrase, Some(st.id)) && t in w.shared.scoring && !IsScored(s, t.turn)
       && (sid, st.phrase) in w.shared.lastTurns && w.shared.lastTurns[(sid, st.phrase)] == t.turn
  }

  /** Everything works, with scores for one criterion. */
  function Works(text: string): ScoreFaults {
    ScoreFaults(true, 1, text, true, true, false, Completes, true)
  }

  lemma FinalizationEvaluates(w: World, sid: int, i: nat, t: ScoreTask, status: Status, e: EndFaults)
    requires LastTurnWaits(w, sid, i, t) && Task(sid, status) in w.shared.queue
    requires var s := w.shared.sessions[sid].(finalize := Finalizing);
      Finalization.SessionWritten(s, e) && Finalization.Faultless(s, e.faults)
    ensures var w1 := Step(w, TaskRuns(Task(sid, status), true, e, false));
      && sid in w1.shared.sessions && i < |w1.shared.sessions[sid].stages|
      && w1.shared.sessions[sid].stages[i].evaluated && w1.shared.sessions[sid].stages[i].ended
      && w1.shared.sessions[sid].stages[i].id == w.shared.sessions[sid].stages[i].id
      && DistinctStages(w1.shared.sessions[sid].stages)
      && w1.shared.sessions[sid].turnEvaluations == w.shared.sessions[sid].turnEvaluations
      && w1.shared.scoring == w.shared.scoring && w1.shared.lastTurns == w.shared.lastTurns
      && Finalization.Count(w1.shared.sessions[sid].phraseEvaluations, t.stageId.value)
           == Finalization.Count(w.shared.sessions[sid].phraseEvaluations, t.stageId.value) + 1
  {
    var s := w.shared.sessions[sid].(finalize := Finalizing);
    Finalization.EndAllOrFailed(s, status, e);
    Finalization.EndKeeps(s, status, e);
    Finalization.EndedOnceStep(s, status, e, i);
    var r := End(s, status, e).0;
    assert Finalization.Settled(r, i);
    hide End, Finalization.Count, Finalization.SessionWritten, Finalization.Faultless, Finalization.AddedByEnd,
      HasScores, IsScored;
    assert Step(w, TaskRuns(Task(sid, status), true, e, false)).shared.sessions[sid] == r;
  }

  /** When the worker that ends the session comes before the one that scores the last turn, it is evaluated twice. */
  lemma LateScoring(w: World, sid: int, i: nat, t: ScoreTask, status: Status, e: EndFaults, text: string)
    requires LastTurnWaits(w, sid, i, t) && Task(sid, status) in w.shared.queue
    requires var s := w.shared.sessions[sid].(finalize := Finalizing);
      Finalization.SessionWritten(s, e) && Finalization.Faultless(s, e.faults)
    ensures var w1 := Step(w, TaskRuns(Task(sid, status), true, e, false));
      var w2 := Step(w1, TurnScored(t, Works(text)));
      && sid in w2.shared.sessions
      && Finalization.Count(w2.shared.sessions[sid].phraseEvaluations, t.stageId.value)
           == Finalization.Count(w.shared.sessions[sid].phraseEvaluations, t.stageId.value) + 2
  {
    var w1 := Step(w, TaskRuns(Task(sid, status), true, e, false));
    FinalizationEvaluates(w, sid, i, t, status, e);
    var s, o := w1.shared.sessions[sid], Works(text);
    assert !IsScored(s, t.turn);
    var turns := AddEvaluation(s, t, o).turnEvaluations;
    assert turns[|turns| - 1].phrase == t.phrase && turns[|turns| - 1] in turns;
    assert HasScores(turns, t.phrase);
    assert s.stages[i] in s.stages;
    assert Triggers(w1, TurnScored(t, o), sid, t.stageId.value);
    ScoreLaw(w1, TurnScored(t, o), sid, i);
    hide Step, Triggers, Finalization.Count, IsScored, HasScores;
  }

  /** Nothing fails; further calculations complete. */
  function NoFaults(): EndFaults {
    EndFaults(true, true, true, true, Faults(true, [], true, true))
  }

  function Unfailing(): Hangup {
    Hangup(true, NoFaults())
  }

  /** A session with its status, current pair, stages, turns and turn evaluations. */
  function Row(
    status: Status, current: Option<(int, string)>, stages: seq<Stage>, turns: seq<Turn>, scores: seq<TurnEvaluation>)
    : Session
  {
    Session(status, Ongoing, current, 0.0, stages, turns, scores, [])
  }

  function WorldOf(sid: int, row: Session, queue: multiset<Task>, scoring: set<ScoreTask>,
                   lastTurns: map<(int, string), int>, clients: map<int, Conn>): World
  {
    World(Shared(map[sid := row], queue, multiset{}, scoring, lastTurns), clients)
  }

  /** A new session and no connection. */
  function StartOf(sid: int): World {
    WorldOf(sid, Row(Pending, None, [], [], []), multiset{}, {}, map[], map[])
  }

  function Open(cid: int, sid: int, state: string, stateId: Option<int>, lastTurn: Option<int>): Conn {
    Conn(cid, sid, state, stateId, lastTurn, true, false, false, false)
  }

  function RespondAll(turnId: int, newId: int): ResponseFaults {
    ResponseFaults(turnId, true, true, true, newId, true, true, Unfailing())
  }

  lemma OneSession(sid: int, row: Session, id: int)
    ensures TurnKnown(map[sid := row], id) <==> HasTurn(row.turns, id)
    ensures StageKnown(map[sid := row], id) <==> HasStage(row.stages, id)
  {
    assert sid in map[sid := row];
  }

  lemma ConnectIs(cid: int, sid: int, o: ConnectFaults)
    requires o.stateRead && o.ongoingWrite && o.agentStarted && o.statusWrite
    ensures Step(StartOf(sid), Connecting(cid, sid, o)) ==
      WorldOf(sid, Row(OnGoing, None, [], [], []), multiset{}, {}, map[], map[cid := Open(cid, sid, "", None, None)])
  {
    hide Disconnect;
    var sessions := StartOf(sid).shared.sessions;
    var live := Row(OnGoing, None, [], [], []);
    assert sessions[sid := sessions[sid].(finalize := Ongoing)][sid := live] == map[sid := live];
  }

  /** A response that is recorded, in a world of one session. */
  lemma ToldIs(sid: int, row: Session, id: int, phrase: string, w: Shared)
    requires w.sessions == map[sid := row] && !HasTurn(row.turns, id)
    ensures StoreTurn(w, sid, id, phrase, true) == (w.(sessions := map[sid := AddTurn(row, id, phrase)]), true)
  {
    OneSession(sid, row, id);
    assert w.sessions[sid := AddTurn(row, id, phrase)] == map[sid := AddTurn(row, id, phrase)];
    hide TurnKnown;
  }

  lemma FirstStageIs(w: World, cid: int, sid: int, row: Session, state: string, turnId: int, newId: int)
    requires w.shared.sessions == map[sid := row] && w.clients == map[cid := Open(cid, sid, "", None, None)]
    requires !HasTurn(row.turns, turnId) && !HasStage(row.stages, newId) && state != ""
    ensures Step(w, Response(cid, sid, state, RespondAll(turnId, newId))) ==
      World(w.shared.(sessions := map[sid := AddStage(AddTurn(row, turnId, state), newId, state)]),
            map[cid := Open(cid, sid, state, Some(newId), None)])
  {
    var told := AddTurn(row, turnId, state);
    ToldIs(sid, row, turnId, state, w.shared);
    OneSession(sid, told, newId);
    assert map[sid := told][sid := AddStage(told, newId, state)] == map[sid := AddStage(told, newId, state)];
    hide Disconnect, StoreTurn, StageKnown, TurnKnown, AddStage, HasTurn, HasStage;
    assert w.clients[cid := Open(cid, sid, state, Some(newId), None)]
        == map[cid := Open(cid, sid, state, Some(newId), None)];
  }

  lemma TranscriptIs(w: World, cid: int, sid: int, row: Session, c: Conn, turn: int, phrase: string)
    requires w.shared.sessions == map[sid := row] && w.clients == map[cid := c] && c.sessionId == sid
    requires !HasTurn(row.turns, turn)
    ensures Step(w, Transcript(cid, sid, Some(turn), TranscriptFaults(Some(phrase), true, true, Unfailing()))) ==
      World(w.shared.(sessions := map[sid := AddTurn(row, turn, phrase)],
                      scoring := w.shared.scoring + {ScoreTask(sid, turn, c.state, c.stateId)}),
            map[cid := c.(lastTurn := Some(turn))])
  {
    ToldIs(sid, row, turn, phrase, w.shared);
    hide Disconnect, StoreTurn, AddTurn, HasTurn;
    assert w.clients[cid := c.(lastTurn := Some(turn))] == map[cid := c.(lastTurn := Some(turn))];
  }

  /** Scoring a turn while no last turn is cached. */
  lemma ScoreIs(w: World, sid: int, row: Session, t: ScoreTask, text: string)
    requires w.shared.sessions == map[sid := row] && t in w.shared.scoring && t.sessionId == sid
    requires !IsScored(row, t.turn) && w.shared.lastTurns == map[]
    ensures Step(w, TurnScored(t, Works(text)))
         == w.(shared := w.shared.(sessions := map[sid := AddEvaluation(row, t, Works(text))]))
  {
    hide Calculate, AddEvaluation, IsScored;
    assert w.shared.sessions[sid := AddEvaluation(row, t, Works(text))]
        == map[sid := AddEvaluation(row, t, Works(text))];
    assert w.shared.lastTurns - {(sid, t.phrase)} == map[];
  }

  lemma NextStageIs(
    w: World, cid: int, sid: int, row: Session, c: Conn, oldId: int, state: string, turnId: int, newId: int, last: int)
    requires w.shared.sessions == map[sid := row] && w.clients == map[cid := c] && c.sessionId == sid
    requires c.stateId == Some(oldId) && c.state != state && c.lastTurn == Some(last)
    requires !HasTurn(row.turns, turnId) && !HasStage(row.stages, newId)
    requires HasStage(row.stages, oldId) && HasTurn(row.turns, last)
    ensures Step(w, Response(cid, sid, state, RespondAll(turnId, newId))) ==
      World(w.shared.(sessions := map[sid := NextStage(AddTurn(row, turnId, state), oldId, last, newId, state)],
                      lastTurns := w.shared.lastTurns[(sid, c.state) := last]),
            map[cid := c.(state := state, stateId := Some(newId))])
  {
    var told := AddTurn(row, turnId, state);
    var next := NextStage(told, oldId, last, newId, state);
    ToldIs(sid, row, turnId, state, w.shared);
    OneSession(sid, told, newId);
    OneSession(sid, told, oldId);
    OneSession(sid, told, last);
    assert HasTurn(told.turns, last) by {
      var t :| t in row.turns && t.id == last;
      assert t in told.turns;
    }
    assert EndStageRow(map[sid := told], oldId, last)[sid := next] == map[sid := next];
    hide Disconnect, StoreTurn, StageKnown, TurnKnown, AddStage, HasTurn, HasStage, EndStages;
    assert w.clients[cid := c.(state := state, stateId := Some(newId))]
        == map[cid := c.(state := state, stateId := Some(newId))];
  }

  lemma Extend(w: World, events: seq<Event>, w1: World, e: Event)
    requires OrderlyRun(w, events) && After(w, events) == w1 && Orderly(w1, e)
    ensures OrderlyRun(w, events + [e]) && After(w, events + [e]) == Step(w1, e)
  {
    var longer := events + [e];
    assert longer[..|events|] == events;
    hide Step, Orderly, After;
    forall k | 0 <= k < |longer| ensures Orderly(After(w, longer[..k]), longer[k]) {
      if k < |events| {
        assert longer[..k] == events[..k];
      }
    }
    assert After(w, longer) == Step(w1, e) by { Unfold(w, longer); }
  }

  lemma Unfold(w: World, events: seq<Event>)
    requires events != []
    ensures After(w, events) == Step(After(w, events[..|events| - 1]), events[|events| - 1])
  {
    hide Step;
  }

  function TurnTask(sid: int, turn: int): ScoreTask {
    ScoreTask(sid, turn, "first", Some(10))
  }

  function Transcribed(cid: int, sid: int, turn: int): Event {
    Transcript(cid, sid, Some(turn), TranscriptFaults(Some("first"), true, true, Unfailing()))
  }

  /** Connecting and a response with a first stage. */
  function Opening(cid: int, sid: int): seq<Event> {
    [Connecting(cid, sid, ConnectFaults(true, true, true, true, Unfailing()))]
    + [Response(cid, sid, "first", RespondAll(1, 10))]
  }

  /** Two turns of the user, of which the first is scored, and a response with the next stage. */
  function Talking(cid: int, sid: int, text: string): seq<Event> {
    Opening(cid, sid) + [Transcribed(cid, sid, 2)] + [TurnScored(TurnTask(sid, 2), Works(text))]
    + [Transcribed(cid, sid, 3)] + [Response(cid, sid, "second", RespondAll(4, 11))]
  }

  /** The user ends the session, a worker carries that out, and another one scores the second turn. */
  function Interview(cid: int, sid: int, text: string): seq<Event> {
    Talking(cid, sid, text) + [UserEnds(cid, sid, true, Unfailing())]
    + [TaskRuns(Task(sid, Cancelled), true, NoFaults(), false)] + [TurnScored(TurnTask(sid, 3), Works(text))]
  }

  function Opened(): Session {
    AddStage(AddTurn(Row(OnGoing, None, [], [], []), 1, "first"), 10, "first")
  }

  lemma OpeningLeads(cid: int, sid: int)
    ensures OrderlyRun(StartOf(sid), Opening(cid, sid))
    ensures After(StartOf(sid), Opening(cid, sid)) ==
      WorldOf(sid, Opened(), multiset{}, {}, map[], map[cid := Open(cid, sid, "first", Some(10), None)])
  {
    var w0, e := StartOf(sid), Opening(cid, sid);
    var connected := WorldOf(sid, Row(OnGoing, None, [], [], []), multiset{}, {}, map[],
                             map[cid := Open(cid, sid, "", None, None)]);
    assert e == [] + [e[0]] + [e[1]];
    ConnectIs(cid, sid, ConnectFaults(true, true, true, true, Unfailing()));
    FirstStageIs(connected, cid, sid, Row(OnGoing, None, [], [], []), "first", 1, 10);
    hide Step;
    Extend(w0, [], w0, e[0]);
    Extend(w0, [] + [e[0]], connected, e[1]);
  }

  function Spoken(sid: int, text: string): Session {
    AddTurn(AddEvaluation(AddTurn(Opened(), 2, "first"), TurnTask(sid, 2), Works(text)), 3, "first")
  }

  function MovedToSecond(sid: int, text: string): Session {
    NextStage(AddTurn(Spoken(sid, text), 4, "second"), 10, 3, 11, "second")
  }

  lemma TalkingLeads(cid: int, sid: int, text: string)
    ensures OrderlyRun(StartOf(sid), Talking(cid, sid, text))
    ensures After(StartOf(sid), Talking(cid, sid, text)) ==
      WorldOf(sid, MovedToSecond(sid, text), multiset{}, {TurnTask(sid, 2), TurnTask(sid, 3)}, map[(sid, "first") := 3],
              map[cid := Open(cid, sid, "second", Some(11), Some(3))])
  {
    var w0, start := StartOf(sid), Opening(cid, sid);
    var row2 := AddTurn(Opened(), 2, "first");
    var row3 := AddEvaluation(row2, TurnTask(sid, 2), Works(text));
    var c1 := Open(cid, sid, "first", Some(10), None);
    var c2, c3 := c1.(lastTurn := Some(2)), c1.(lastTurn := Some(3));
    var w2 := WorldOf(sid, Opened(), multiset{}, {}, map[], map[cid := c1]);
    var w3 := WorldOf(sid, row2, multiset{}, {TurnTask(sid, 2)}, map[], map[cid := c2]);
    var w4 := WorldOf(sid, row3, multiset{}, {TurnTask(sid, 2)}, map[], map[cid := c2]);
    var w5 := WorldOf(sid, Spoken(sid, text), multiset{}, {TurnTask(sid, 2), TurnTask(sid, 3)}, map[], map[cid := c3]);
    OpeningLeads(cid, sid);
    TranscriptIs(w2, cid, sid, Opened(), c1, 2, "first");
    assert {} + {TurnTask(sid, 2)} == {TurnTask(sid, 2)};
    ScoreIs(w3, sid, row2, TurnTask(sid, 2), text);
    TranscriptIs(w4, cid, sid, row3, c2, 3, "first");
    assert {TurnTask(sid, 2)} + {TurnTask(sid, 3)} == {TurnTask(sid, 2), TurnTask(sid, 3)};
    SpokenKnows(sid, text);
    NextStageIs(w5, cid, sid, Spoken(sid, text), c3, 10, "second", 4, 11, 3);
    assert map[][(sid, "first") := 3] == map[(sid, "first") := 3];
    hide Step, After, OrderlyRun, Spoken, MovedToSecond, Opened, AddTurn, AddEvaluation, Opening;
    Extend(w0, start, w2, Transcribed(cid, sid, 2));
    Extend(w0, start + [Transcribed(cid, sid, 2)], w3, TurnScored(TurnTask(sid, 2), Works(text)));
    var e4 := start + [Transcribed(cid, sid, 2)] + [TurnScored(TurnTask(sid, 2), Works(text))];
    Extend(w0, e4, w4, Transcribed(cid, sid, 3));
    Extend(w0, e4 + [Transcribed(cid, sid, 3)], w5, Response(cid, sid, "second", RespondAll(4, 11)));
  }

  lemma SpokenKnows(sid: int, text: string)
    ensures var s := Spoken(sid, text);
      HasTurn(s.turns, 3) && !HasTurn(s.turns, 4) && HasStage(s.stages, 10) && !HasStage(s.stages, 11)
    ensures !IsScored(Spoken(sid, text), 3)
  {
    var s := Spoken(sid, text);
    assert s.turns == [Turn(1, "first"), Turn(2, "first"), Turn(3, "first")];
    assert s.stages == [Stage(10, "first", false, None, false)];
    assert s.turns[2] in s.turns && s.stages[0] in s.stages;
  }

  /** The world in which the user has ended the session and the second turn is not scored yet. */
  function EndedByUser(cid: int, sid: int, text: string): World {
    WorldOf(sid, MovedToSecond(sid, text), multiset{Task(sid, Cancelled)}, {TurnTask(sid, 2), TurnTask(sid, 3)},
            map[(sid, "first") := 3], map[cid := Open(cid, sid, "second", Some(11), Some(3)).(finalized := true)])
  }

  lemma UserEndIs(cid: int, sid: int, text: string)
    ensures var w := WorldOf(sid, MovedToSecond(sid, text), multiset{}, {TurnTask(sid, 2), TurnTask(sid, 3)},
                             map[(sid, "first") := 3], map[cid := Open(cid, sid, "second", Some(11), Some(3))]);
      Step(w, UserEnds(cid, sid, true, Unfailing())) == EndedByUser(cid, sid, text)
  {
    hide Disconnect, MovedToSecond;
    var c := Open(cid, sid, "second", Some(11), Some(3));
    assert map[cid := c][cid := c.(finalized := true)] == map[cid := c.(finalized := true)];
    assert multiset{} + multiset{Task(sid, Cancelled)} == multiset{Task(sid, Cancelled)};
  }

  lemma EndedByUserWaits(cid: int, sid: int, text: string)
    ensures var w := EndedByUser(cid, sid, text);
      && LastTurnWaits(w, sid, 0, TurnTask(sid, 3)) && Task(sid, Cancelled) in w.shared.queue
      && w.shared.sessions[sid].phraseEvaluations == []
      && Scores.Overall(ScoreTexts(w.shared.sessions[sid].turnEvaluations)) == Scores.Overall([text])
  {
    var s := MovedToSecond(sid, text);
    assert s.stages == [Stage(10, "first", true, Some(3), false), Stage(11, "second", false, None, false)];
    assert s.turnEvaluations == [TurnEvaluation(2, "first", 1, text)];
    assert s.turnEvaluations[0] in s.turnEvaluations;
    assert ScoreTexts(s.turnEvaluations) == [text];
    assert !IsScored(s, 3);
  }

  /**
   A run reaches the bound: an interview ended by the user before its second turn is scored evaluates the first stage
   once when it is finalized and once more when that turn, its last, is scored.
   */
  lemma SecondEvaluationHappens(cid: int, sid: int, hundredths: nat)
    ensures var w, run := StartOf(sid), Interview(cid, sid, Scores.Fixed2(hundredths));
      && StageLedger.Inv(w) && TurnInv(w) && OrderlyRun(w, run)
      && sid in After(w, run).shared.sessions
      && Finalization.Count(After(w, run).shared.sessions[sid].phraseEvaluations, 10) == 2
  {
    var text := Scores.Fixed2(hundredths);
    ScoreIsNumber(hundredths);
    var w0, w7 := StartOf(sid), EndedByUser(cid, sid, text);
    InvAtStart(w0.shared.sessions);
    TurnInvAtStart(w0.shared.sessions);
    TalkingLeads(cid, sid, text);
    UserEndIs(cid, sid, text);
    EndedByUserWaits(cid, sid, text);
    var runs := TaskRuns(Task(sid, Cancelled), true, NoFaults(), false);
    var scored := TurnScored(TurnTask(sid, 3), Works(text));
    assert Finalization.SessionWritten(w7.shared.sessions[sid].(finalize := Finalizing), NoFaults());
    NoFaultsPass(w7.shared.sessions[sid].(finalize := Finalizing));
    LateScoring(w7, sid, 0, TurnTask(sid, 3), Cancelled, NoFaults(), text);
    assert Finalization.Count([], 10) == 0;
    hide Step, After, OrderlyRun, Talking, Finalization.Count, EndedByUser, Inv, TurnInv, StartOf;
    var talking := Talking(cid, sid, text);
    var ends := UserEnds(cid, sid, true, Unfailing());
    Extend(w0, talking, After(w0, talking), ends);
    Extend(w0, talking + [ends], w7, runs);
    Extend(w0, talking + [ends] + [runs], Step(w7, runs), scored);
  }

  lemma ScoreIsNumber(hundredths: nat)
    ensures Scores.Overall([Scores.Fixed2(hundredths)]).Some?
  {
    Scores.ParseFixed2(hundredths);
    Scores.Fixed2IsPlain(hundredths);
    assert Scores.ParseFloat(Scores.Fixed2(hundredths)).Some?;
    hide Scores.Fixed2, Scores.ParseUnsigned;
    var texts := [Scores.Fixed2(hundredths)];
    assert texts[..|texts| - 1] == [] && Scores.SumTexts([]) == Some(0.0);
    assert Scores.SumTexts(texts) == Scores.PlusText(Some(0.0), texts[0]);
  }

  lemma NoFaultsPass(s: Session)
    ensures Finalization.Faultless(s, NoFaults().faults)
  {
  }
}
