/** What becomes of stages and phrase evaluations over whole runs: handlers, workers and turn scoring in any order. */
module EvaluationRuns {
  import opened Prelude
  import opened SessionStatus
  import opened SessionRecords
  import opened Evaluation
  import opened LiveSession
  import opened SessionRuns
  import opened Finalization
  import StageLedger

  // ---------------------------------------------------------------- growth

  /** The same row later: ended and evaluated are never taken back. */
  predicate SameStage(a: Stage, b: Stage) {
    b.id == a.id && b.phrase == a.phrase && (a.ended ==> b.ended) && (a.evaluated ==> b.evaluated)
  }

  /** Stages keep their positions and only grow in number, and evaluations are only appended. */
  ghost predicate Grows(a: Session, b: Session) {
    && |a.stages| <= |b.stages|
    && (forall i :: 0 <= i < |a.stages| ==> SameStage(a.stages[i], b.stages[i]))
    && a.phraseEvaluations <= b.phraseEvaluations && a.turnEvaluations <= b.turnEvaluations
  }

  /** An ended stage gets one evaluation with its flag, and `extra` ones besides. */
  predicate Law(a: Session, b: Session, i: nat, extra: nat)
    requires i < |a.stages| && i < |b.stages|
  {
    Count(b.phraseEvaluations, a.stages[i].id) == Count(a.phraseEvaluations, a.stages[i].id)
      + (if b.stages[i].evaluated && !a.stages[i].evaluated then 1 else 0) + extra
  }

  /** Growth that stores no evaluation of an ended stage twice. */
  ghost predicate Lawful(a: Session, b: Session) {
    && Grows(a, b)
    && (DistinctStages(a.stages) ==> DistinctStages(b.stages))
    && (DistinctStages(a.stages) ==> forall i :: 0 <= i < |a.stages| && a.stages[i].ended ==> Law(a, b, i, 0))
  }

  ghost predicate AllLawful(a: map<int, Session>, b: map<int, Session>) {
    a.Keys == b.Keys && forall sid :: sid in a ==> Lawful(a[sid], b[sid])
  }

  lemma LawfulChain(a: Session, b: Session, c: Session)
    requires Lawful(a, b) && Lawful(b, c)
    ensures Lawful(a, c)
  {
    hide Count, DistinctStages;
    forall i | 0 <= i < |a.stages| ensures SameStage(a.stages[i], c.stages[i]) {
      assert SameStage(a.stages[i], b.stages[i]) && SameStage(b.stages[i], c.stages[i]);
    }
    if DistinctStages(a.stages) {
      forall i | 0 <= i < |a.stages| && a.stages[i].ended ensures Law(a, c, i, 0) {
        assert SameStage(a.stages[i], b.stages[i]);
        assert Law(a, b, i, 0) && Law(b, c, i, 0);
      }
    }
  }

  lemma AllChain(a: map<int, Session>, b: map<int, Session>, c: map<int, Session>)
    requires AllLawful(a, b) && AllLawful(b, c)
    ensures AllLawful(a, c)
  {
    hide Lawful;
    forall sid | sid in a ensures Lawful(a[sid], c[sid]) {
      LawfulChain(a[sid], b[sid], c[sid]);
    }
  }

  /** A change of other columns only. */
  lemma SameRows(a: Session, b: Session)
    requires b.stages == a.stages && b.phraseEvaluations == a.phraseEvaluations
    requires a.turnEvaluations <= b.turnEvaluations
    ensures Lawful(a, b)
  {
    hide Count;
  }

  lemma AllSame(sessions: map<int, Session>)
    ensures AllLawful(sessions, sessions)
  {
    forall sid | sid in sessions ensures Lawful(sessions[sid], sessions[sid]) {
      SameRows(sessions[sid], sessions[sid]);
    }
  }

  lemma ReplaceOne(sessions: map<int, Session>, sid: int, s: Session)
    requires sid in sessions && Lawful(sessions[sid], s)
    ensures AllLawful(sessions, sessions[sid := s])
  {
    AllSame(sessions);
    hide Lawful;
  }

  // ---------------------------------------------------------------- the changes handlers and workers make

  lemma EndLawful(s: Session, status: Status, e: EndFaults)
    ensures Lawful(s, End(s, status, e).0)
  {
    var r := End(s, status, e).0;
    EndKeeps(s, status, e);
    if DistinctStages(s.stages) {
      forall i, j | 0 <= i < j < |r.stages| ensures r.stages[i].id != r.stages[j].id {
        assert r.stages[i].id == s.stages[i].id && r.stages[j].id == s.stages[j].id;
      }
      forall i | 0 <= i < |s.stages| && s.stages[i].ended ensures Law(s, r, i, 0) {
        EndedOnceStep(s, status, e, i);
      }
    }
    hide End, Count, AddedByEnd;
  }

  lemma EndInLawful(sessions: map<int, Session>, sid: int, status: Status, e: EndFaults)
    ensures AllLawful(sessions, EndIn(sessions, sid, status, e))
  {
    AllSame(sessions);
    if sid in sessions {
      EndLawful(sessions[sid], status, e);
      hide End, Lawful;
      ReplaceOne(sessions, sid, End(sessions[sid], status, e).0);
    }
  }

  lemma WriteStatusLawful(sessions: map<int, Session>, sid: int, status: Status)
    ensures AllLawful(sessions, WriteStatus(sessions, sid, status))
  {
    AllSame(sessions);
    if sid in sessions {
      SameRows(sessions[sid], sessions[sid].(status := status));
      hide Lawful;
      ReplaceOne(sessions, sid, sessions[sid].(status := status));
    }
  }

  lemma AddStageLawful(s: Session, id: int, phrase: string)
    requires !HasStage(s.stages, id)
    ensures Lawful(s, AddStage(s, id, phrase))
  {
    hide Count;
    var r := AddStage(s, id, phrase);
    if DistinctStages(s.stages) {
      forall i, j | 0 <= i < j < |r.stages| ensures r.stages[i].id != r.stages[j].id {
        assert s.stages[i] in s.stages;
      }
    }
  }

  lemma EndStagesLawful(s: Session, id: int, lastTurn: int)
    ensures Lawful(s, s.(stages := EndStages(s.stages, id, lastTurn)))
  {
    hide Count;
    var r := s.(stages := EndStages(s.stages, id, lastTurn));
    assert forall i :: 0 <= i < |s.stages| ==> r.stages[i].id == s.stages[i].id;
  }

  lemma FirstStageLawful(w: Shared, sid: int, id: int, phrase: string, ok: bool)
    ensures AllLawful(w.sessions, FirstStageTx(w, sid, id, phrase, ok).0.sessions)
  {
    AllSame(w.sessions);
    if FirstStageTx(w, sid, id, phrase, ok).1 {
      AddStageLawful(w.sessions[sid], id, phrase);
      hide Lawful, AddStage;
      ReplaceOne(w.sessions, sid, AddStage(w.sessions[sid], id, phrase));
    }
  }

  lemma NextStageLawful(w: Shared, sid: int, oldId: int, lastTurn: int, id: int, phrase: string, ok: bool)
    ensures AllLawful(w.sessions, NextStageTx(w, sid, oldId, lastTurn, id, phrase, ok).0.sessions)
  {
    AllSame(w.sessions);
    if NextStageTx(w, sid, oldId, lastTurn, id, phrase, ok).1 {
      var ended := EndStageRow(w.sessions, oldId, lastTurn);
      forall t | t in w.sessions ensures Lawful(w.sessions[t], ended[t]) {
        EndStagesLawful(w.sessions[t], oldId, lastTurn);
      }
      StageLedger.EndedIds(w.sessions[sid].stages, oldId, lastTurn);
      assert !HasStage(w.sessions[sid].stages, id);
      AddStageLawful(ended[sid], id, phrase);
      hide Lawful, AddStage, HasStage, EndStages;
      ReplaceOne(ended, sid, AddStage(ended[sid], id, phrase));
      AllChain(w.sessions, ended, ended[sid := AddStage(ended[sid], id, phrase)]);
    }
  }

  lemma DisconnectLawful(before: map<int, Session>, w: Shared, c: Conn, status: Option<Status>, h: Hangup)
    requires AllLawful(before, w.sessions)
    ensures AllLawful(before, Disconnect(w, c, status, h).0.sessions)
  {
    var st := if status.Some? then status.value else Cancelled;
    EndInLawful(w.sessions, c.sessionId, st, h.fallback);
    hide EndIn, Lawful;
    AllChain(before, w.sessions, EndIn(w.sessions, c.sessionId, st, h.fallback));
  }

  lemma ResponseLawful(w: Shared, c: Conn, sid: int, state: string, o: ResponseFaults)
    ensures AllLawful(w.sessions, Respond(w, c, sid, state, o).0.sessions)
  {
    hide Disconnect, StoreTurn, ChangeStage, AllLawful;
    AllSame(w.sessions);
    DisconnectLawful(w.sessions, w, c, None, o.hangup);
    StoreTurnLawful(w, sid, o.turnId, state, o.stored);
    var told := StoreTurn(w, sid, o.turnId, state, o.stored).0;
    DisconnectLawful(w.sessions, told, c, None, o.hangup);
    ChangeLawful(told, c, state, o);
    AllChain(w.sessions, told.sessions, ChangeStage(told, c, state, o).0.sessions);
  }

  lemma StoreTurnLawful(w: Shared, sid: int, id: int, phrase: string, ok: bool)
    ensures AllLawful(w.sessions, StoreTurn(w, sid, id, phrase, ok).0.sessions)
  {
    AllSame(w.sessions);
    hide Lawful, TurnKnown;
    if sid in w.sessions {
      SameRows(w.sessions[sid], AddTurn(w.sessions[sid], id, phrase));
      ReplaceOne(w.sessions, sid, AddTurn(w.sessions[sid], id, phrase));
    }
  }

  lemma TranscriptLawful(w: Shared, c: Conn, sid: int, turn: Option<int>, o: TranscriptFaults)
    ensures AllLawful(w.sessions, RecordTranscript(w, c, sid, turn, o).0.sessions)
  {
    hide Disconnect, StoreTurn, AllLawful;
    AllSame(w.sessions);
    DisconnectLawful(w.sessions, w, c, None, o.hangup);
    DisconnectLawful(w.sessions, w, c.(lastTurn := turn), None, o.hangup);
    if turn.Some? && o.message.Some? {
      StoreTurnLawful(w, sid, turn.value, o.message.value, o.stored);
      var told := StoreTurn(w, sid, turn.value, o.message.value, o.stored).0;
      DisconnectLawful(w.sessions, told, c.(lastTurn := turn), None, o.hangup);
    }
  }

  lemma ChangeLawful(w: Shared, c: Conn, state: string, o: ResponseFaults)
    ensures AllLawful(w.sessions, ChangeStage(w, c, state, o).0.sessions)
  {
    hide Disconnect, FirstStageTx, NextStageTx, AllLawful;
    AllSame(w.sessions);
    DisconnectLawful(w.sessions, w, c, None, o.hangup);
    if c.stateId == None && c.state == "" {
      FirstStageLawful(w, c.sessionId, o.newId, state, o.statementsSucceed);
      var next := FirstStageTx(w, c.sessionId, o.newId, state, o.statementsSucceed).0;
      DisconnectLawful(w.sessions, next, c, None, o.hangup);
    } else {
      var lastTurn := LastTurn(w, c, state, o.looked);
      if lastTurn.Some? && c.stateId.Some? {
        var prior, last := c.stateId.value, lastTurn.value;
        NextStageLawful(w, c.sessionId, prior, last, o.newId, state, o.statementsSucceed);
        var next := NextStageTx(w, c.sessionId, prior, last, o.newId, state, o.statementsSucceed).0;
        DisconnectLawful(w.sessions, next, c, None, o.hangup);
      }
    }
  }

  lemma HandlerLawful(w: Shared, c: Conn, e: Event)
    requires OnConnection(e)
    ensures AllLawful(w.sessions, Handle(w, c, e).0.sessions)
  {
    hide Disconnect, WriteStatus, AllLawful;
    AllSame(w.sessions);
    if e.Response? {
      ResponseLawful(w, c, e.sid, e.state, e.responseFaults);
      hide Respond;
    } else if e.Transcript? {
      TranscriptLawful(w, c, e.sid, e.turn, e.transcriptFaults);
      hide RecordTranscript;
    } else if e.MonitorFires? {
      WriteStatusLawful(w.sessions, c.sessionId, TimedOut);
      var marked := w.(sessions := if e.written then WriteStatus(w.sessions, c.sessionId, TimedOut) else w.sessions);
      DisconnectLawful(w.sessions, marked, c, Some(TimedOut), e.hangup);
    } else if e.Drops? {
      DisconnectLawful(w.sessions, w, c, if e.timedOut then Some(TimedOut) else None, e.hangup);
    } else {
      DisconnectLawful(w.sessions, w, c, None, e.hangup);
      WriteStatusLawful(w.sessions, c.sessionId, Completed);
    }
  }

  lemma ConnectLawful(w: Shared, cid: int, sid: int, o: ConnectFaults)
    ensures AllLawful(w.sessions, Connect(w, cid, sid, o).0.sessions)
  {
    hide Disconnect, AllLawful, Lawful;
    var c := FreshConn(cid, sid);
    AllSame(w.sessions);
    DisconnectLawful(w.sessions, w, c, None, o.hangup);
    if sid in w.sessions {
      var s := w.sessions[sid];
      var ongoing, live := s.(finalize := Ongoing), s.(finalize := Ongoing, status := OnGoing);
      var marked := w.(sessions := w.sessions[sid := ongoing]);
      SameRows(s, ongoing);
      SameRows(s, live);
      ReplaceOne(w.sessions, sid, ongoing);
      ReplaceOne(w.sessions, sid, live);
      assert marked.sessions[sid := live] == w.sessions[sid := live];
      DisconnectLawful(w.sessions, w, c, Some(s.status), o.hangup);
      DisconnectLawful(w.sessions, w, Loaded(c, s), None, o.hangup);
      DisconnectLawful(w.sessions, marked, Loaded(c, s), None, o.hangup);
    }
  }

  lemma TaskLawful(w: Shared, t: Task, finalizingWrite: bool, e: EndFaults, again: bool)
    ensures AllLawful(w.sessions, RunTask(w, t, finalizingWrite, e, again).sessions)
  {
    hide EndIn, AllLawful, Lawful;
    AllSame(w.sessions);
    if t.sessionId in w.sessions {
      var marked := w.sessions[t.sessionId].(finalize := Finalizing);
      SameRows(w.sessions[t.sessionId], marked);
      ReplaceOne(w.sessions, t.sessionId, marked);
      EndInLawful(w.sessions[t.sessionId := marked], t.sessionId, t.status, e);
      AllChain(w.sessions, w.sessions[t.sessionId := marked],
               EndIn(w.sessions[t.sessionId := marked], t.sessionId, t.status, e));
    }
  }

  // ---------------------------------------------------------------- turn scoring

  /** A step scores a turn that the cache names as the last of its phrase, and thereby evaluates the stage. */
  ghost predicate Triggers(w: World, e: Event, sid: int, id: int) {
    && e.TurnScored? && e.scoreTask.sessionId == sid && sid in w.shared.sessions
    && var t, o, s := e.scoreTask, e.scoreFaults, w.shared.sessions[sid];
       && t in w.shared.scoring && !IsScored(s, t.turn) && t.stageId == Some(id) && HasStage(s.stages, id)
       && o.scored && o.flagged && o.keyRead && CachedTurn(w.shared, t, o) == Some(t.turn)
       && o.calculation == Completes && HasScores(AddEvaluation(s, t, o).turnEvaluations, t.phrase)
  }

  /** It evaluates a stage anew that is ended and evaluated already; no call tests for that. */
  ghost predicate ReEvaluates(w: World, e: Event, sid: int, id: int) {
    && Triggers(w, e, sid, id)
    && exists st :: st in w.shared.sessions[sid].stages && st.id == id && st.ended && st.evaluated
  }

  lemma CountAdded(evaluations: seq<PhraseEvaluation>, e: PhraseEvaluation, id: int)
    ensures Count(evaluations + [e], id) == Count(evaluations, id) + if e.stateId == id then 1 else 0
  {
    CountAppend(evaluations, [e], id);
    assert [e][1..] == [];
    assert Count([e], id) == (if e.stateId == id then 1 else 0) + Count([], id);
  }

  lemma StoreGrows(s: Session, id: int, phrase: string)
    ensures Grows(s, StorePhraseEvaluation(s, id, phrase))
    ensures DistinctStages(s.stages) ==> DistinctStages(StorePhraseEvaluation(s, id, phrase).stages)
  {
    var r := StorePhraseEvaluation(s, id, phrase);
    assert forall i :: 0 <= i < |s.stages| ==> r.stages[i].id == s.stages[i].id;
  }

  lemma CalculateLaw(s: Session, id: int, phrase: string, c: Calculation, i: nat)
    requires DistinctStages(s.stages) && i < |s.stages|
    ensures var r := Calculate(s, id, phrase, c).0;
      && |r.stages| == |s.stages|
      && Law(s, r, i, if s.stages[i].id == id && s.stages[i].evaluated && c == Completes
                         && HasScores(s.turnEvaluations, phrase) then 1 else 0)
  {
    var st := s.stages[i];
    assert st in s.stages;
    CountAdded(s.phraseEvaluations, PhraseEvaluation(id, phrase), st.id);
    hide Count, HasScores;
  }

  lemma ScoreGrows(w: World, e: Event, sid: int)
    requires e.TurnScored? && sid in w.shared.sessions
    ensures sid in Step(w, e).shared.sessions
    ensures Grows(w.shared.sessions[sid], Step(w, e).shared.sessions[sid])
    ensures DistinctStages(w.shared.sessions[sid].stages) ==> DistinctStages(Step(w, e).shared.sessions[sid].stages)
  {
    var t := e.scoreTask;
    if t.stageId.Some? {
      StoreGrows(AddEvaluation(w.shared.sessions[sid], t, e.scoreFaults), t.stageId.value, t.phrase);
    }
    hide StorePhraseEvaluation, HasScores, HasStage, DistinctStages, IsScored, CachedTurn;
  }

  /** What scoring a turn does to the count of a stage's evaluations and its flag. */
  lemma ScoreLaw(w: World, e: Event, sid: int, i: nat)
    requires e.TurnScored? && sid in w.shared.sessions
    requires DistinctStages(w.shared.sessions[sid].stages)
    requires i < |w.shared.sessions[sid].stages|
    ensures var s := w.shared.sessions[sid];
      && sid in Step(w, e).shared.sessions && i < |Step(w, e).shared.sessions[sid].stages|
      && Law(s, Step(w, e).shared.sessions[sid], i,
             if Triggers(w, e, sid, s.stages[i].id) && s.stages[i].evaluated then 1 else 0)
  {
    var s, t, o := w.shared.sessions[sid], e.scoreTask, e.scoreFaults;
    assert s.stages[i] in s.stages;
    if t.stageId.Some? {
      CalculateLaw(AddEvaluation(s, t, o), t.stageId.value, t.phrase, o.calculation, i);
    }
    hide Calculate, Count, HasScores, DistinctStages, IsScored, CachedTurn;
  }

  lemma ReEvaluatesAt(w: World, e: Event, sid: int, i: nat)
    requires sid in w.shared.sessions && DistinctStages(w.shared.sessions[sid].stages)
    requires i < |w.shared.sessions[sid].stages| && w.shared.sessions[sid].stages[i].ended
    ensures var st := w.shared.sessions[sid].stages[i];
      ReEvaluates(w, e, sid, st.id) <==> Triggers(w, e, sid, st.id) && st.evaluated
  {
    hide Triggers;
    var stages := w.shared.sessions[sid].stages;
    assert stages[i] in stages;
    if ReEvaluates(w, e, sid, stages[i].id) {
      var st :| st in stages && st.id == stages[i].id && st.ended && st.evaluated;
      var k :| 0 <= k < |stages| && stages[k] == st;
      assert k == i;
    }
  }

  // ---------------------------------------------------------------- runs

  lemma StepLawful(w: World, e: Event)
    requires !e.TurnScored?
    ensures AllLawful(w.shared.sessions, Step(w, e).shared.sessions)
  {
    AllSame(w.shared.sessions);
    if e.TaskRuns? {
      TaskLawful(w.shared, e.task, e.finalizingWrite, e.endFaults, e.again);
    } else if e.Connecting? {
      ConnectLawful(w.shared, e.cid, e.sid, e.connectFaults);
    } else if e.cid in w.clients {
      HandlerLawful(w.shared, w.clients[e.cid], e);
    }
    hide RunTask, Connect, Handle, AllLawful;
  }

  lemma StepGrows(w: World, e: Event, sid: int)
    requires sid in w.shared.sessions
    ensures sid in Step(w, e).shared.sessions
    ensures Grows(w.shared.sessions[sid], Step(w, e).shared.sessions[sid])
    ensures DistinctStages(w.shared.sessions[sid].stages) ==> DistinctStages(Step(w, e).shared.sessions[sid].stages)
  {
    if e.TurnScored? {
      ScoreGrows(w, e, sid);
    } else {
      StepLawful(w, e);
    }
    hide Step, Grows, DistinctStages;
  }

  lemma StepLaw(w: World, e: Event, sid: int, i: nat)
    requires sid in w.shared.sessions && DistinctStages(w.shared.sessions[sid].stages)
    requires i < |w.shared.sessions[sid].stages| && w.shared.sessions[sid].stages[i].ended
    ensures var s := w.shared.sessions[sid];
      && sid in Step(w, e).shared.sessions && i < |Step(w, e).shared.sessions[sid].stages|
      && Law(s, Step(w, e).shared.sessions[sid], i, if ReEvaluates(w, e, sid, s.stages[i].id) then 1 else 0)
  {
    ReEvaluatesAt(w, e, sid, i);
    if e.TurnScored? {
      ScoreLaw(w, e, sid, i);
    } else {
      StepLawful(w, e);
    }
    hide Step, Law, DistinctStages, HasScores, ReEvaluates;
  }

  lemma GrowsChain(a: Session, b: Session, c: Session)
    requires Grows(a, b) && Grows(b, c)
    ensures Grows(a, c)
  {
    forall i | 0 <= i < |a.stages| ensures SameStage(a.stages[i], c.stages[i]) {
      assert SameStage(a.stages[i], b.stages[i]) && SameStage(b.stages[i], c.stages[i]);
    }
  }

  /**
   Over every run of handlers, workers and turn scoring, whatever fails: stages keep position, id and phrase, ended and
   evaluated flags are never taken back, and evaluations are only appended.
   */
  lemma {:induction false} StagesOnlyGrow(w: World, events: seq<Event>, sid: int)
    requires sid in w.shared.sessions
    ensures sid in After(w, events).shared.sessions
    ensures Grows(w.shared.sessions[sid], After(w, events).shared.sessions[sid])
    ensures DistinctStages(w.shared.sessions[sid].stages) ==>
      DistinctStages(After(w, events).shared.sessions[sid].stages)
  {
    hide Step, DistinctStages;
    if events != [] {
      var n := |events| - 1;
      var before := After(w, events[..n]);
      StagesOnlyGrow(w, events[..n], sid);
      StepGrows(before, events[n], sid);
      hide Grows;
      GrowsChain(w.shared.sessions[sid], before.shared.sessions[sid], After(w, events).shared.sessions[sid]);
    }
  }

  /** How many steps of a run evaluate a stage anew. */
  ghost function ReEvaluations(w: World, events: seq<Event>, sid: int, id: int): nat {
    if events == [] then 0
    else
      var n := |events| - 1;
      ReEvaluations(w, events[..n], sid, id) + (if ReEvaluates(After(w, events[..n]), events[n], sid, id) then 1 else 0)
  }

  /**
   Over every run an ended stage gets exactly one phrase evaluation when its flag is set, and one more for every turn
   scored that triggers its evaluation anew.
   */
  lemma {:induction false} EndedStageCount(w: World, events: seq<Event>, sid: int, i: nat)
    requires sid in w.shared.sessions && DistinctStages(w.shared.sessions[sid].stages)
    requires i < |w.shared.sessions[sid].stages| && w.shared.sessions[sid].stages[i].ended
    ensures var s := w.shared.sessions[sid];
      && sid in After(w, events).shared.sessions && i < |After(w, events).shared.sessions[sid].stages|
      && Law(s, After(w, events).shared.sessions[sid], i, ReEvaluations(w, events, sid, s.stages[i].id))
  {
    hide Step, DistinctStages, Count, ReEvaluates;
    if events != [] {
      var n := |events| - 1;
      var before := After(w, events[..n]);
      EndedStageCount(w, events[..n], sid, i);
      StagesOnlyGrow(w, events[..n], sid);
      var a, b := w.shared.sessions[sid], before.shared.sessions[sid];
      assert SameStage(a.stages[i], b.stages[i]);
      StepLaw(before, events[n], sid, i);
      StepGrows(before, events[n], sid);
      assert SameStage(b.stages[i], Step(before, events[n]).shared.sessions[sid].stages[i]);
    }
  }

  lemma {:induction false} AnewMeansEvaluated(w: World, events: seq<Event>, sid: int, i: nat)
    requires sid in w.shared.sessions && DistinctStages(w.shared.sessions[sid].stages)
    requires i < |w.shared.sessions[sid].stages|
    requires ReEvaluations(w, events, sid, w.shared.sessions[sid].stages[i].id) > 0
    ensures sid in After(w, events).shared.sessions && i < |After(w, events).shared.sessions[sid].stages|
    ensures After(w, events).shared.sessions[sid].stages[i].evaluated
  {
    hide Step, Triggers;
    var n := |events| - 1;
    var id := w.shared.sessions[sid].stages[i].id;
    var before := After(w, events[..n]);
    StagesOnlyGrow(w, events[..n], sid);
    StepGrows(before, events[n], sid);
    var a, b := w.shared.sessions[sid], before.shared.sessions[sid];
    assert SameStage(a.stages[i], b.stages[i]);
    assert SameStage(b.stages[i], Step(before, events[n]).shared.sessions[sid].stages[i]);
    if ReEvaluates(before, events[n], sid, id) {
      var st :| st in b.stages && st.id == id && st.ended && st.evaluated;
      var k :| 0 <= k < |b.stages| && b.stages[k] == st;
      assert k == i;
    } else {
      AnewMeansEvaluated(w, events[..n], sid, i);
    }
  }

  /** An ended stage is evaluated at most once over a run if and only if no turn scored in it evaluates it anew. */
  lemma EvaluatedOnceIff(w: World, events: seq<Event>, sid: int, i: nat)
    requires sid in w.shared.sessions && DistinctStages(w.shared.sessions[sid].stages)
    requires i < |w.shared.sessions[sid].stages| && w.shared.sessions[sid].stages[i].ended
    requires var s := w.shared.sessions[sid];
      Count(s.phraseEvaluations, s.stages[i].id) == if s.stages[i].evaluated then 1 else 0
    ensures sid in After(w, events).shared.sessions
    ensures var id, after := w.shared.sessions[sid].stages[i].id, After(w, events).shared.sessions[sid];
      Count(after.phraseEvaluations, id) <= 1 <==> ReEvaluations(w, events, sid, id) == 0
  {
    EndedStageCount(w, events, sid, i);
    StagesOnlyGrow(w, events, sid);
    assert SameStage(w.shared.sessions[sid].stages[i], After(w, events).shared.sessions[sid].stages[i]);
    if ReEvaluations(w, events, sid, w.shared.sessions[sid].stages[i].id) > 0 {
      AnewMeansEvaluated(w, events, sid, i);
    }
    hide After, Count, ReEvaluations, DistinctStages;
  }

  /**
   Connecting to a session that is over queues its end once more, finalized or not, and the worker that takes it up
   finalizes the session again. When the current stage has scored turns this stores one more evaluation of it.
   */
  lemma ReconnectEndsAgain(w: World, cid: int, sid: int, o: ConnectFaults, e: EndFaults)
    requires cid !in w.clients && sid in w.shared.sessions && o.stateRead && o.hangup.published
    requires var s := w.shared.sessions[sid];
      && (s.status == TimedOut || s.status == Completed) && StageLedger.Ledger(s)
      && SessionWritten(s.(finalize := Finalizing), e) && Faultless(s.(finalize := Finalizing), e.faults)
    ensures var s := w.shared.sessions[sid];
      var connected := Step(w, Connecting(cid, sid, o));
      var run := Step(connected, TaskRuns(Task(sid, s.status), true, e, false));
      && connected.shared.queue == w.shared.queue + multiset{Task(sid, s.status)}
      && connected.shared.sessions == w.shared.sessions && connected.clients[cid].disconnecting
      && connected.shared.handOffs == w.shared.handOffs + multiset{cid}
      && run.shared.queue == w.shared.queue
      && sid in run.shared.sessions
      && run.shared.sessions[sid].finalize == Finalized && run.shared.sessions[sid].status == s.status
      && (s.stages != [] && HasScores(s.turnEvaluations, StageLedger.LastOf(s.stages).phrase) ==>
           Count(run.shared.sessions[sid].phraseEvaluations, StageLedger.LastOf(s.stages).id)
             == Count(s.phraseEvaluations, StageLedger.LastOf(s.stages).id) + 1)
  {
    var s := w.shared.sessions[sid];
    var marked := s.(finalize := Finalizing);
    var task := Task(sid, s.status);
    EndAllOrFailed(marked, s.status, e);
    EndIs(marked, s.status, e);
    StoreFields(marked, AddedByEnd(marked, e));
    if s.stages != [] && HasScores(s.turnEvaluations, StageLedger.LastOf(s.stages).phrase) {
      OpenStageAdded(marked, e.faults, |s.stages| - 1);
      CountAppend(s.phraseEvaluations, AddedByEnd(marked, e), StageLedger.LastOf(s.stages).id);
    }
    hide End, SessionWritten, Faultless, HasScores, Count, AddedBy, Store, Settled, Processed;
    assert Step(w, Connecting(cid, sid, o)).shared.sessions == w.shared.sessions;
    assert w.shared.queue + multiset{task} - multiset{task} == w.shared.queue;
  }
}
