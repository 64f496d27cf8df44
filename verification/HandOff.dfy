/** Every connection hands the end of its session off at most once, and exactly when nobody ended the session before. */
module HandOff {
  import opened Prelude
  import opened SessionStatus
  import opened SessionRecords
  import opened Evaluation
  import opened LiveSession
  import opened SessionRuns
  import Finalization

  /** How the log of hand-offs grows when a connection in one condition gets into another. */
  function Logged(log: multiset<int>, before: Conn, after: Conn): multiset<int> {
    if !before.disconnecting && after.disconnecting && !before.finalized then log + multiset{before.id} else log
  }

  ghost predicate Moves(log: multiset<int>, before: Conn, log1: multiset<int>, after: Conn) {
    && after.id == before.id && after.sessionId == before.sessionId
    && log1 == Logged(log, before, after)
    && (before.disconnecting ==> after.disconnecting)
    && (before.finalized ==> after.finalized)
    && (!before.disconnecting && after.disconnecting ==> after.finalized == before.finalized)
  }

  lemma DisconnectMoves(w: Shared, c: Conn, status: Option<Status>, h: Hangup)
    ensures var (w1, c1) := Disconnect(w, c, status, h);
      && Moves(w.handOffs, c, w1.handOffs, c1) && c1.disconnecting && c1.finalized == c.finalized
  {
  }

  /** The log tells the truth: an entry means the end was queued or carried out, and without one nothing happened. */
  lemma LogMeansHandOff(w: Shared, c: Conn, status: Option<Status>, h: Hangup)
    ensures var w1 := Disconnect(w, c, status, h).0;
      && (w1.handOffs == w.handOffs ==> w1 == w)
      && (w1.handOffs != w.handOffs && h.published ==>
           |w1.queue| == |w.queue| + 1 && w1.sessions == w.sessions
           && exists st :: w1.queue == w.queue + multiset{Task(c.sessionId, st)})
      && (w1.handOffs != w.handOffs && !h.published ==>
           w1.queue == w.queue && exists st :: w1.sessions == EndIn(w.sessions, c.sessionId, st, h.fallback))
  {
    hide EndIn;
    var st := if status.Some? then status.value else Cancelled;
    if !c.disconnecting && !c.finalized {
      var w1 := Disconnect(w, c, status, h).0;
      assert w1.handOffs[c.id] == w.handOffs[c.id] + 1;
      assert h.published ==> w1.queue == w.queue + multiset{Task(c.sessionId, st)};
      assert !h.published ==> w1.sessions == EndIn(w.sessions, c.sessionId, st, h.fallback);
    }
  }

  lemma Staying(log: multiset<int>, c: Conn, state: string, stateId: Option<int>)
    ensures Moves(log, c, log, c.(state := state, stateId := stateId))
  {
  }

  lemma TransactionsDoNotHandOff(w: Shared, sid: int, id: int, phrase: string, ok: bool)
    ensures FirstStageTx(w, sid, id, phrase, ok).0.handOffs == w.handOffs
    ensures forall oldId, lastTurn :: NextStageTx(w, sid, oldId, lastTurn, id, phrase, ok).0.handOffs == w.handOffs
  {
  }

  lemma ResponseMoves(w: Shared, c: Conn, sid: int, state: string, o: ResponseFaults)
    ensures var (w1, c1) := Respond(w, c, sid, state, o); Moves(w.handOffs, c, w1.handOffs, c1)
  {
    Staying(w.handOffs, c, c.state, c.stateId);
    Staying(w.handOffs, c, state, Some(o.newId));
    hide Disconnect, ChangeStage, Moves, TurnKnown;
    DisconnectMoves(w, c, None, o.hangup);
    var told := StoreTurn(w, sid, o.turnId, state, o.stored).0;
    DisconnectMoves(told, c, None, o.hangup);
    ChangeMoves(told, c, state, o);
  }

  lemma ChangeMoves(w: Shared, c: Conn, state: string, o: ResponseFaults)
    ensures var (w1, c1) := ChangeStage(w, c, state, o); Moves(w.handOffs, c, w1.handOffs, c1)
  {
    Staying(w.handOffs, c, state, Some(o.newId));
    hide Disconnect, FirstStageTx, NextStageTx, Moves;
    DisconnectMoves(w, c, None, o.hangup);
    TransactionsDoNotHandOff(w, c.sessionId, o.newId, state, o.statementsSucceed);
    if c.stateId == None && c.state == "" {
      var next := FirstStageTx(w, c.sessionId, o.newId, state, o.statementsSucceed).0;
      DisconnectMoves(next, c, None, o.hangup);
    } else {
      var lastTurn := LastTurn(w, c, state, o.looked);
      if lastTurn.Some? && c.stateId.Some? {
        var next := NextStageTx(
          w, c.sessionId, c.stateId.value, lastTurn.value, o.newId, state, o.statementsSucceed).0;
        DisconnectMoves(next, c, None, o.hangup);
      }
    }
  }

  lemma TranscriptMoves(w: Shared, c: Conn, sid: int, turn: Option<int>, o: TranscriptFaults)
    ensures var (w1, c1) := RecordTranscript(w, c, sid, turn, o); Moves(w.handOffs, c, w1.handOffs, c1)
  {
    hide Disconnect, TurnKnown;
    DisconnectMoves(w, c, None, o.hangup);
    DisconnectMoves(w, c.(lastTurn := turn), None, o.hangup);
    if turn.Some? && o.message.Some? {
      var told := StoreTurn(w, sid, turn.value, o.message.value, o.stored).0;
      DisconnectMoves(told, c.(lastTurn := turn), None, o.hangup);
    }
  }

  lemma HandlerMoves(w: Shared, c: Conn, e: Event)
    requires OnConnection(e)
    ensures var (w1, c1) := Handle(w, c, e); Moves(w.handOffs, c, w1.handOffs, c1)
  {
    hide Disconnect, WriteStatus;
    if e.Response? {
      ResponseMoves(w, c, e.sid, e.state, e.responseFaults);
      hide Respond;
    } else if e.Transcript? {
      TranscriptMoves(w, c, e.sid, e.turn, e.transcriptFaults);
      hide RecordTranscript;
    } else if e.MonitorFires? {
      var marked := w.(sessions := if e.written then WriteStatus(w.sessions, c.sessionId, TimedOut) else w.sessions);
      DisconnectMoves(marked, c, Some(TimedOut), e.hangup);
    } else if e.Drops? {
      DisconnectMoves(w, c, if e.timedOut then Some(TimedOut) else None, e.hangup);
    } else {
      DisconnectMoves(w, c, None, e.hangup);
    }
  }

  /** A connection that fails while it is being set up has handed off unless it had loaded a finalized session. */
  lemma ConnectMoves(w: Shared, cid: int, sid: int, o: ConnectFaults)
    ensures var (w1, c1) := Connect(w, cid, sid, o);
      && c1.id == cid
      && w1.handOffs == if c1.disconnecting && !c1.finalized then w.handOffs + multiset{cid} else w.handOffs
  {
    hide Disconnect;
    var c := FreshConn(cid, sid);
    DisconnectMoves(w, c, None, o.hangup);
    if sid in w.sessions {
      var s := w.sessions[sid];
      var marked := w.(sessions := w.sessions[sid := s.(finalize := Ongoing)]);
      DisconnectMoves(w, c, Some(s.status), o.hangup);
      DisconnectMoves(w, Loaded(c, s), None, o.hangup);
      DisconnectMoves(marked, Loaded(c, s), None, o.hangup);
    }
  }

  lemma WorkersDoNotHandOff(w: World, e: Event)
    requires e.TaskRuns? || e.TurnScored?
    ensures Step(w, e).clients == w.clients && Step(w, e).shared.handOffs == w.shared.handOffs
  {
    hide EndIn, Calculate;
  }

  /** Open connections have not handed off; closed ones have unless somebody ended the session on them. */
  ghost predicate Fair(n: nat, c: Conn) {
    n <= 1 && (!c.disconnecting ==> n == 0) && (c.disconnecting && !c.finalized ==> n == 1)
  }

  ghost predicate Inv(w: World) {
    && (forall cid :: cid in w.clients ==> w.clients[cid].id == cid && Fair(w.shared.handOffs[cid], w.clients[cid]))
    && (forall cid :: cid !in w.clients ==> w.shared.handOffs[cid] == 0)
  }

  lemma StepKeepsInv(w: World, e: Event)
    requires Inv(w)
    ensures Inv(Step(w, e))
  {
    if e.TaskRuns? || e.TurnScored? {
      WorkersDoNotHandOff(w, e);
    } else if e.Connecting? {
      ConnectMoves(w.shared, e.cid, e.sid, e.connectFaults);
    } else if e.cid in w.clients {
      HandlerMoves(w.shared, w.clients[e.cid], e);
    }
    hide Connect, Handle, RunTask, ScoreTurn;
  }

  lemma {:induction false} InvHolds(w: World, events: seq<Event>)
    requires Inv(w)
    ensures Inv(After(w, events))
  {
    hide Inv, Step;
    if events != [] {
      InvHolds(w, events[..|events| - 1]);
      StepKeepsInv(After(w, events[..|events| - 1]), events[|events| - 1]);
    }
  }

  /** What one step does to a given connection and its count of hand-offs. */
  lemma StepMoves(w: World, e: Event, cid: int)
    requires Inv(w) && cid in w.clients
    ensures var w1 := Step(w, e);
      && cid in w1.clients
      && w1.shared.handOffs[cid] == Logged(w.shared.handOffs, w.clients[cid], w1.clients[cid])[cid]
      && (w.clients[cid].disconnecting ==> w1.clients[cid].disconnecting)
      && (w.clients[cid].finalized ==> w1.clients[cid].finalized)
  {
    if e.TaskRuns? || e.TurnScored? {
      WorkersDoNotHandOff(w, e);
    } else if e.Connecting? {
      ConnectMoves(w.shared, e.cid, e.sid, e.connectFaults);
    } else if e.cid in w.clients {
      HandlerMoves(w.shared, w.clients[e.cid], e);
    }
    hide Connect, Handle, RunTask, ScoreTurn;
  }

  /** A step closes the connection while its session is not finalized. */
  ghost predicate ClosesUnfinished(w: World, e: Event, cid: int) {
    && cid in w.clients && !w.clients[cid].disconnecting && !w.clients[cid].finalized
    && cid in Step(w, e).clients && Step(w, e).clients[cid].disconnecting
  }

  ghost predicate ClosesWithin(w: World, events: seq<Event>, cid: int) {
    exists k :: 0 <= k < |events| && ClosesUnfinished(After(w, events[..k]), events[k], cid)
  }

  lemma ClosesWithinSplit(w: World, events: seq<Event>, cid: int)
    requires events != []
    ensures var n := |events| - 1;
      ClosesWithin(w, events, cid) <==>
        ClosesWithin(w, events[..n], cid) || ClosesUnfinished(After(w, events[..n]), events[n], cid)
  {
    hide ClosesUnfinished, After;
    var n := |events| - 1;
    assert forall k :: 0 <= k < n ==> events[..n][..k] == events[..k] && events[..n][k] == events[k];
    if ClosesWithin(w, events[..n], cid) {
      var k :| 0 <= k < n && ClosesUnfinished(After(w, events[..n][..k]), events[..n][k], cid);
      assert ClosesUnfinished(After(w, events[..k]), events[k], cid);
    }
    if ClosesWithin(w, events, cid) && !ClosesUnfinished(After(w, events[..n]), events[n], cid) {
      var k :| 0 <= k < |events| && ClosesUnfinished(After(w, events[..k]), events[k], cid);
      assert ClosesUnfinished(After(w, events[..n][..k]), events[..n][k], cid);
    }
  }

  /**
   Over any run, however often and from wherever a connection is disconnected: it hands off exactly once if it is
   closed while not finalized, and otherwise not at all.
   */
  lemma {:induction false} HandOffOnce(w: World, events: seq<Event>, cid: int)
    requires Inv(w) && cid in w.clients && !w.clients[cid].disconnecting
    ensures var after := After(w, events);
      && cid in after.clients
      && after.shared.handOffs[cid] == (if ClosesWithin(w, events, cid) then 1 else 0)
      && (ClosesWithin(w, events, cid) ==> after.clients[cid].disconnecting)
  {
    if events == [] {
      assert !ClosesWithin(w, events, cid);
    } else {
      var n := |events| - 1;
      var before := After(w, events[..n]);
      HandOffOnce(w, events[..n], cid);
      InvHolds(w, events[..n]);
      StepMoves(before, events[n], cid);
      ClosesWithinSplit(w, events, cid);
      assert Fair(before.shared.handOffs[cid], before.clients[cid]);
      hide Step, ClosesWithin, Inv;
    }
  }

  lemma {:induction false} StaysFinalized(w: World, events: seq<Event>, cid: int)
    requires Inv(w) && cid in w.clients && w.clients[cid].finalized
    ensures cid in After(w, events).clients && After(w, events).clients[cid].finalized
  {
    hide Inv, Step;
    if events != [] {
      var n := |events| - 1;
      StaysFinalized(w, events[..n], cid);
      InvHolds(w, events[..n]);
      StepMoves(After(w, events[..n]), events[n], cid);
    }
  }

  /** Once the user has ended the session on an open connection, that connection never hands off. */
  lemma {:induction false} UserEndedNoHandOff(w: World, events: seq<Event>, cid: int)
    requires Inv(w) && cid in w.clients && !w.clients[cid].disconnecting && w.clients[cid].finalized
    ensures After(w, events).shared.handOffs[cid] == 0
  {
    HandOffOnce(w, events, cid);
    if ClosesWithin(w, events, cid) {
      var k :| 0 <= k < |events| && ClosesUnfinished(After(w, events[..k]), events[k], cid);
      StaysFinalized(w, events[..k], cid);
    }
  }

  /** The user's successful end on an open connection. */
  ghost predicate EndedByUser(w: World, e: Event) {
    && (e.UserEnds? || (e.UserCompletes? && e.cid in w.clients && w.clients[e.cid].completed)) && e.published
    && e.cid in w.clients && w.clients[e.cid].sessionId == e.sid && !w.clients[e.cid].disconnecting
  }

  /** It queues one end with the user's status, and whatever follows, the connection itself never hands off another. */
  lemma UserEndThenNoHandOff(w: World, e: Event, events: seq<Event>)
    requires Inv(w) && EndedByUser(w, e)
    ensures var status := if e.UserEnds? then Cancelled else Completed;
      Step(w, e).shared == w.shared.(queue := w.shared.queue + multiset{Task(e.sid, status)})
    ensures After(Step(w, e), events).shared.handOffs[e.cid] == 0
  {
    StepKeepsInv(w, e);
    UserEndedNoHandOff(Step(w, e), events, e.cid);
    hide Inv, After;
  }

  /**
   A user who comes back to a finalized session and leaves again undoes the finalization: the session is back to
   "ongoing", and no task is queued that would finalize it again.
   */
  lemma ReconnectUnfinalizes(w: World, cid: int, sid: int, o: ConnectFaults, timedOut: bool, h: Hangup)
    requires cid !in w.clients && sid in w.shared.sessions
    requires o.stateRead && o.ongoingWrite && o.agentStarted && o.statusWrite
    requires w.shared.sessions[sid].status != TimedOut && w.shared.sessions[sid].status != Completed
    ensures var s := w.shared.sessions[sid];
      var w2 := Step(Step(w, Connecting(cid, sid, o)), Drops(cid, timedOut, h));
      && (s.finalize == Finalized ==>
           w2.shared == w.shared.(sessions := w.shared.sessions[sid := s.(finalize := Ongoing, status := OnGoing)]))
      && (s.finalize != Finalized ==> w2.shared.handOffs == w.shared.handOffs + multiset{cid})
  {
    hide EndIn;
  }

  /** A queued task that meets no failure gives its session the task's status and finalizes it. */
  lemma TaskFinalizes(w: Shared, t: Task, e: EndFaults, again: bool)
    requires t in w.queue && t.sessionId in w.sessions
    requires var s := w.sessions[t.sessionId].(finalize := Finalizing);
      Finalization.SessionWritten(s, e) && Finalization.Faultless(s, e.faults)
    ensures var w1 := RunTask(w, t, true, e, again);
      && t.sessionId in w1.sessions
      && w1.sessions[t.sessionId].status == t.status && w1.sessions[t.sessionId].finalize == Finalized
      && Finalization.AllSettled(w.sessions[t.sessionId], w1.sessions[t.sessionId])
  {
    var s := w.sessions[t.sessionId].(finalize := Finalizing);
    Finalization.EndAllOrFailed(s, t.status, e);
    assert Finalization.AllSettled(s, End(s, t.status, e).0);
    hide End, Finalization.SessionWritten, Finalization.Faultless, Finalization.Settled, Finalization.Processed;
    assert Finalization.AllSettled(w.sessions[t.sessionId], End(s, t.status, e).0);
  }

  /**
   A completed interview does not stay completed: when the connection drops before the user confirms the end, the task
   it hands off, run without a failure, makes the session cancelled.
   */
  lemma CompletedThenDropped(w: World, completes: Event, drops: Event, runs: Event)
    requires completes.AgentCompleted? && completes.cid in w.clients && completes.written
    requires var c := w.clients[completes.cid];
      completes.sid == c.sessionId && c.sessionId in w.shared.sessions && !c.disconnecting && !c.finalized
    requires drops.Drops? && drops.cid == completes.cid && !drops.timedOut && drops.hangup.published
    requires runs.TaskRuns? && runs.task == Task(completes.sid, Cancelled) && runs.finalizingWrite
    requires Finalization.SessionWritten(
      w.shared.sessions[completes.sid].(status := Completed, finalize := Finalizing), runs.endFaults)
    ensures Step(w, completes).shared.sessions[completes.sid].status == Completed
    ensures Step(Step(Step(w, completes), drops), runs).shared.sessions[completes.sid].status == Cancelled
  {
    var w2 := Step(Step(w, completes), drops);
    assert runs.task in w2.shared.queue;
    var s := w2.shared.sessions[completes.sid].(finalize := Finalizing);
    assert s == w.shared.sessions[completes.sid].(status := Completed, finalize := Finalizing);
    Finalization.EndAllOrFailed(s, Cancelled, runs.endFaults);
    hide End, Finalization.SessionWritten, Finalization.Faultless;
  }
}
