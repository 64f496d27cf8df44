/** A session counts as completed only because the agent said so for that session. */
module Provenance {
  import opened Prelude
  import opened SessionStatus
  import opened SessionRecords
  import opened Evaluation
  import opened LiveSession
  import opened SessionRuns
  import Finalization

  ghost predicate SharedCompleted(w: Shared, sid: int) {
    || (sid in w.sessions && w.sessions[sid].status == Completed)
    || Task(sid, Completed) in w.queue
  }

  /** Something in the system says that a session is completed: its row, a queued task or a connection's flag. */
  ghost predicate Says(w: World, sid: int) {
    || SharedCompleted(w.shared, sid)
    || exists cid :: cid in w.clients && w.clients[cid].sessionId == sid && w.clients[cid].completed
  }

  /** The agent's interview_completed message, handled successfully by a connection of the session. */
  ghost predicate AgentSaysOn(c: Conn, e: Event, sid: int) {
    e.AgentCompleted? && e.written && e.sid == sid && c.sessionId == sid
  }

  ghost predicate AgentSays(w: World, e: Event, sid: int) {
    e.AgentCompleted? && e.cid in w.clients && AgentSaysOn(w.clients[e.cid], e, sid)
  }

  lemma EndInStatus(sessions: map<int, Session>, sid: int, status: Status, e: EndFaults, t: int)
    ensures EndIn(sessions, sid, status, e).Keys == sessions.Keys
    ensures t in sessions ==>
      var s := EndIn(sessions, sid, status, e)[t];
      s.status == sessions[t].status || (t == sid && s.status == status)
  {
    if sid in sessions {
      Finalization.EndAllOrFailed(sessions[sid], status, e);
    }
    hide End;
  }

  lemma DisconnectCompletes(w: Shared, c: Conn, status: Option<Status>, h: Hangup, t: int)
    ensures var (w1, c1) := Disconnect(w, c, status, h);
      && c1.sessionId == c.sessionId && c1.completed == c.completed
      && (SharedCompleted(w1, t) ==> SharedCompleted(w, t) || (t == c.sessionId && status == Some(Completed)))
  {
    EndInStatus(w.sessions, c.sessionId, if status.Some? then status.value else Cancelled, h.fallback, t);
    hide EndIn;
  }

  lemma FirstStageCompletes(w: Shared, sid: int, id: int, phrase: string, ok: bool, t: int)
    ensures SharedCompleted(FirstStageTx(w, sid, id, phrase, ok).0, t) ==> SharedCompleted(w, t)
  {
  }

  lemma NextStageCompletes(
    w: Shared, sid: int, oldId: int, lastTurn: int, id: int, phrase: string, ok: bool, t: int)
    ensures SharedCompleted(NextStageTx(w, sid, oldId, lastTurn, id, phrase, ok).0, t) ==> SharedCompleted(w, t)
  {
  }

  lemma ResponseCompletes(w: Shared, c: Conn, sid: int, state: string, o: ResponseFaults, t: int)
    ensures var (w1, c1) := Respond(w, c, sid, state, o);
      && c1.sessionId == c.sessionId && c1.completed == c.completed
      && (SharedCompleted(w1, t) ==> SharedCompleted(w, t))
  {
    hide Disconnect, SharedCompleted, StoreTurn, ChangeStage;
    DisconnectCompletes(w, c, None, o.hangup, t);
    StoreTurnCompletes(w, sid, o.turnId, state, o.stored, t);
    var told := StoreTurn(w, sid, o.turnId, state, o.stored).0;
    DisconnectCompletes(told, c, None, o.hangup, t);
    ChangeCompletes(told, c, state, o, t);
  }

  lemma StoreTurnCompletes(w: Shared, sid: int, id: int, phrase: string, ok: bool, t: int)
    ensures SharedCompleted(StoreTurn(w, sid, id, phrase, ok).0, t) ==> SharedCompleted(w, t)
  {
  }

  lemma TranscriptCompletes(w: Shared, c: Conn, sid: int, turn: Option<int>, o: TranscriptFaults, t: int)
    ensures var (w1, c1) := RecordTranscript(w, c, sid, turn, o);
      && c1.sessionId == c.sessionId && c1.completed == c.completed
      && (SharedCompleted(w1, t) ==> SharedCompleted(w, t))
  {
    hide Disconnect, StoreTurn;
    DisconnectCompletes(w, c, None, o.hangup, t);
    DisconnectCompletes(w, c.(lastTurn := turn), None, o.hangup, t);
    if turn.Some? && o.message.Some? {
      StoreTurnCompletes(w, sid, turn.value, o.message.value, o.stored, t);
      var told := StoreTurn(w, sid, turn.value, o.message.value, o.stored).0;
      DisconnectCompletes(told, c.(lastTurn := turn), None, o.hangup, t);
    }
  }

  lemma ChangeCompletes(w: Shared, c: Conn, state: string, o: ResponseFaults, t: int)
    ensures var (w1, c1) := ChangeStage(w, c, state, o);
      && c1.sessionId == c.sessionId && c1.completed == c.completed
      && (SharedCompleted(w1, t) ==> SharedCompleted(w, t))
  {
    hide Disconnect, FirstStageTx, NextStageTx;
    DisconnectCompletes(w, c, None, o.hangup, t);
    if c.stateId == None && c.state == "" {
      FirstStageCompletes(w, c.sessionId, o.newId, state, o.statementsSucceed, t);
      var next := FirstStageTx(w, c.sessionId, o.newId, state, o.statementsSucceed).0;
      DisconnectCompletes(next, c, None, o.hangup, t);
    } else {
      var lastTurn := LastTurn(w, c, state, o.looked);
      if lastTurn.Some? && c.stateId.Some? {
        var prior, last := c.stateId.value, lastTurn.value;
        NextStageCompletes(w, c.sessionId, prior, last, o.newId, state, o.statementsSucceed, t);
        var next := NextStageTx(w, c.sessionId, prior, last, o.newId, state, o.statementsSucceed).0;
        DisconnectCompletes(next, c, None, o.hangup, t);
      }
    }
  }

  /** A handler brings "completed" up only for its own session, and only on the agent's word, now or before. */
  lemma HandlerCompletes(w: Shared, c: Conn, e: Event, t: int)
    requires OnConnection(e)
    ensures var (w1, c1) := Handle(w, c, e);
      && c1.sessionId == c.sessionId
      && (c1.completed ==> c.completed || AgentSaysOn(c, e, c.sessionId))
      && (SharedCompleted(w1, t) ==>
           SharedCompleted(w, t) || (t == c.sessionId && c.completed) || AgentSaysOn(c, e, t))
  {
    if e.Response? {
      ResponseCompletes(w, c, e.sid, e.state, e.responseFaults, t);
      hide Respond;
    } else if e.Transcript? {
      TranscriptCompletes(w, c, e.sid, e.turn, e.transcriptFaults, t);
      hide RecordTranscript;
    } else if e.MonitorFires? {
      var marked := w.(sessions := if e.written then WriteStatus(w.sessions, c.sessionId, TimedOut) else w.sessions);
      DisconnectCompletes(marked, c, Some(TimedOut), e.hangup, t);
      hide Disconnect;
    } else if e.Drops? {
      DisconnectCompletes(w, c, if e.timedOut then Some(TimedOut) else None, e.hangup, t);
      hide Disconnect;
    } else {
      DisconnectCompletes(w, c, None, e.hangup, t);
      hide Disconnect;
    }
  }

  lemma ConnectCompletes(w: Shared, cid: int, sid: int, o: ConnectFaults, t: int)
    ensures var (w1, c1) := Connect(w, cid, sid, o);
      c1.sessionId == sid && !c1.completed && (SharedCompleted(w1, t) ==> SharedCompleted(w, t))
  {
    hide Disconnect;
    var c := FreshConn(cid, sid);
    DisconnectCompletes(w, c, None, o.hangup, t);
    if sid in w.sessions {
      var s := w.sessions[sid];
      var marked := w.(sessions := w.sessions[sid := s.(finalize := Ongoing)]);
      DisconnectCompletes(w, c, Some(s.status), o.hangup, t);
      DisconnectCompletes(w, Loaded(c, s), None, o.hangup, t);
      DisconnectCompletes(marked, Loaded(c, s), None, o.hangup, t);
    }
  }

  lemma CalculateStatus(s: Session, id: int, phrase: string, c: Calculation)
    ensures Calculate(s, id, phrase, c).0.status == s.status
  {
  }

  lemma WorkerCompletes(w: Shared, e: Event, t: int)
    requires e.TaskRuns? || e.TurnScored?
    requires SharedCompleted(Step(World(w, map[]), e).shared, t)
    ensures SharedCompleted(w, t)
  {
    if e.TaskRuns? {
      if e.task.sessionId in w.sessions {
        var marked := w.sessions[e.task.sessionId].(finalize := Finalizing);
        EndInStatus(w.sessions[e.task.sessionId := marked], e.task.sessionId, e.task.status, e.endFaults, t);
        hide EndIn;
      }
    } else if e.scoreTask.sessionId in w.sessions && e.scoreTask.stageId.Some? {
      var task, o := e.scoreTask, e.scoreFaults;
      CalculateStatus(
        AddEvaluation(w.sessions[task.sessionId], task, o), task.stageId.value, task.phrase, o.calculation);
      hide Calculate;
    }
  }

  lemma StepCompletes(w: World, e: Event, t: int)
    requires Says(Step(w, e), t)
    ensures Says(w, t) || AgentSays(w, e, t)
  {
    var after := Step(w, e);
    if e.TaskRuns? || e.TurnScored? {
      if SharedCompleted(after.shared, t) {
        WorkerCompletes(w.shared, e, t);
      }
    } else if e.Connecting? {
      ConnectCompletes(w.shared, e.cid, e.sid, e.connectFaults, t);
    } else if e.cid in w.clients {
      HandlerCompletes(w.shared, w.clients[e.cid], e, t);
    }
    hide Connect, Handle, RunTask, ScoreTurn, SharedCompleted, AgentSaysOn;
  }

  /**
   Over all runs, with queued tasks run in any order: a session is completed, by its row, a queued task or a
   connection, only if some connection of that session handled the agent's interview_completed message before.
   */
  lemma {:induction false} CompletedOnlyByAgent(w: World, events: seq<Event>, sid: int)
    requires !Says(w, sid) && Says(After(w, events), sid)
    ensures exists k :: 0 <= k < |events| && AgentSays(After(w, events[..k]), events[k], sid)
  {
    hide Says, AgentSays, Step;
    if events != [] {
      var n := |events| - 1;
      StepCompletes(After(w, events[..n]), events[n], sid);
      if !AgentSays(After(w, events[..n]), events[n], sid) {
        CompletedOnlyByAgent(w, events[..n], sid);
        var k :| 0 <= k < n && AgentSays(After(w, events[..n][..k]), events[..n][k], sid);
        assert events[..n][..k] == events[..k];
        assert events[..n][k] == events[k];
      }
    }
  }
}
