/**
 What becomes of a session over whole runs: when a completed one stays completed, when a finalized one stays finalized,
 and when an ongoing one has nobody left who would end it.
 */
module SessionFates {
  import opened Prelude
  import opened SessionStatus
  import opened SessionRecords
  import opened Evaluation
  import opened LiveSession
  import opened SessionRuns
  import opened Finalization
  import opened Outcomes
  import HandOff

  // ---------------------------------------------------------------- completed

  predicate IsCompleted(w: World, sid: int) {
    sid in w.shared.sessions && w.shared.sessions[sid].status == Completed
  }

  /** The monitor writes its status, or an end with another status is carried out up to its status write. */
  predicate Overwrites(w: World, e: Event, sid: int)
    requires sid in w.shared.sessions
  {
    || MonitorWrites(w, e, sid)
    || (&& Ends(w, e, sid).Some? && Ends(w, e, sid).value.0 != Completed
        && SessionWritten(w.shared.sessions[sid], Ends(w, e, sid).value.1))
  }

  /** A completed session stays completed in a step exactly when the step does not overwrite its status. */
  lemma CompletedStep(w: World, e: Event, sid: int)
    requires IsCompleted(w, sid)
    ensures IsCompleted(Step(w, e), sid) <==> !Overwrites(w, e, sid)
  {
    StepStatuses(w, e, sid);
    CompletedThen(w, e, sid);
    if MonitorWrites(w, e, sid) && Ends(w, e, sid).Some? {
      MonitorEnds(w, e, sid);
    }
    hide Step, Ends, SessionWritten, EndFinalizes, FailureWritten, FinalizeThen, MonitorWrites, StatusThen;
  }

  lemma CompletedThen(w: World, e: Event, sid: int)
    requires IsCompleted(w, sid)
    ensures StatusThen(w, e, sid) == if MonitorWrites(w, e, sid) then TimedOut else Completed
  {
  }

  lemma MonitorEnds(w: World, e: Event, sid: int)
    requires sid in w.shared.sessions && MonitorWrites(w, e, sid) && Ends(w, e, sid).Some?
    ensures Ends(w, e, sid).value.0 == TimedOut
  {
  }

  /** No step of the run overwrites the status. */
  ghost predicate NeverOverwritten(w: World, events: seq<Event>, sid: int) {
    events == [] ||
    (var n := |events| - 1;
     var before := After(w, events[..n]);
     NeverOverwritten(w, events[..n], sid) && sid in before.shared.sessions && !Overwrites(before, events[n], sid))
  }

  ghost predicate CompletedThroughout(w: World, events: seq<Event>, sid: int) {
    && IsCompleted(After(w, events), sid)
    && (events != [] ==> CompletedThroughout(w, events[..|events| - 1], sid))
  }

  /** Over every run a completed session stays completed throughout exactly when no step overwrites its status. */
  lemma {:induction false} CompletedRun(w: World, events: seq<Event>, sid: int)
    requires IsCompleted(w, sid)
    ensures CompletedThroughout(w, events, sid) <==> NeverOverwritten(w, events, sid)
  {
    hide Step, Overwrites;
    if events != [] {
      var n := |events| - 1;
      CompletedRun(w, events[..n], sid);
      if IsCompleted(After(w, events[..n]), sid) {
        CompletedStep(After(w, events[..n]), events[n], sid);
      }
    }
  }

  // ---------------------------------------------------------------- finalized

  predicate IsFinalized(w: World, sid: int) {
    sid in w.shared.sessions && w.shared.sessions[sid].finalize == Finalized
  }

  /**
   The session is reopened by a connection; or an end is carried out in which some call fails, by a worker, which has
   marked it finalizing, or as the fallback of a hand-off, when its failure can be written.
   */
  ghost predicate Unfinalizes(w: World, e: Event, sid: int)
    requires sid in w.shared.sessions
  {
    if Ends(w, e, sid).None? then Reopens(w, e, sid)
    else !EndFinalizes(w, e, sid)
         && (e.TaskRuns? || FailureWritten(w.shared.sessions[sid], Ends(w, e, sid).value.1))
  }

  lemma ReopenedHasNoEnd(w: World, e: Event, sid: int)
    requires IsFinalized(w, sid) && Reopens(w, e, sid)
    ensures Ends(w, e, sid).None?
  {
  }

  /** A finalized session stays finalized in a step exactly when the step does not unfinalize it. */
  lemma FinalizedStep(w: World, e: Event, sid: int)
    requires IsFinalized(w, sid)
    ensures IsFinalized(Step(w, e), sid) <==> !Unfinalizes(w, e, sid)
  {
    StepStatuses(w, e, sid);
    if Reopens(w, e, sid) {
      ReopenedHasNoEnd(w, e, sid);
    }
    hide Step, Ends, SessionWritten, EndFinalizes, FailureWritten, StatusThen, Reopens;
  }

  /** No step of the run unfinalizes the session. */
  ghost predicate NeverUnfinalized(w: World, events: seq<Event>, sid: int) {
    events == [] ||
    (var n := |events| - 1;
     var before := After(w, events[..n]);
     NeverUnfinalized(w, events[..n], sid) && sid in before.shared.sessions && !Unfinalizes(before, events[n], sid))
  }

  ghost predicate FinalizedThroughout(w: World, events: seq<Event>, sid: int) {
    && IsFinalized(After(w, events), sid)
    && (events != [] ==> FinalizedThroughout(w, events[..|events| - 1], sid))
  }

  /** Over every run a finalized session stays finalized throughout exactly when no step unfinalizes it. */
  lemma {:induction false} FinalizedRun(w: World, events: seq<Event>, sid: int)
    requires IsFinalized(w, sid)
    ensures FinalizedThroughout(w, events, sid) <==> NeverUnfinalized(w, events, sid)
  {
    hide Step, Unfinalizes;
    if events != [] {
      var n := |events| - 1;
      FinalizedRun(w, events[..n], sid);
      if IsFinalized(After(w, events[..n]), sid) {
        FinalizedStep(After(w, events[..n]), events[n], sid);
      }
    }
  }

  // ---------------------------------------------------------------- ongoing

  /** A connection of the session is open. */
  predicate OpenFor(w: World, cid: int, sid: int) {
    cid in w.clients && w.clients[cid].sessionId == sid && !w.clients[cid].disconnecting
  }

  ghost predicate HasOpen(w: World, sid: int) {
    exists cid :: OpenFor(w, cid, sid)
  }

  ghost predicate HasTask(w: World, sid: int) {
    exists t :: t in w.shared.queue && t.sessionId == sid
  }

  /** An ongoing session has an open connection or a queued task that will end it. */
  ghost predicate Tended(w: World, sid: int) {
    && sid in w.shared.sessions
    && (w.shared.sessions[sid].finalize == Ongoing ==> HasOpen(w, sid) || HasTask(w, sid))
  }

  /** The user's end, or confirmed completion, is queued. */
  predicate UserQueues(w: World, e: Event, sid: int) {
    && (e.UserEnds? || e.UserCompletes?) && e.published && e.sid == sid
    && e.cid in w.clients && w.clients[e.cid].sessionId == sid && (e.UserCompletes? ==> w.clients[e.cid].completed)
  }

  /** The step queues an end of the session. */
  predicate Queues(w: World, e: Event, sid: int)
    requires sid in w.shared.sessions
  {
    UserQueues(w, e, sid) || (HandsOff(w, e, sid).Some? && HangupOf(e).published)
  }

  /** The step takes the last queued task of the session. */
  ghost predicate TakesLast(w: World, e: Event, sid: int) {
    && e.TaskRuns? && e.task.sessionId == sid && !e.again && w.shared.queue[e.task] == 1
    && forall t :: t in w.shared.queue && t.sessionId == sid ==> t == e.task
  }

  /** Every open connection of the session is the one the step closes. */
  ghost predicate ClosesLast(w: World, e: Event, sid: int) {
    forall cid :: OpenFor(w, cid, sid) ==> ClosesOpen(w, e, sid) && e.cid == cid
  }

  /** The session is ongoing after the step: it was, or is reopened, and no end carried out says otherwise. */
  ghost predicate LeavesOngoing(w: World, e: Event, sid: int)
    requires sid in w.shared.sessions
  {
    && FinalizeThen(w, e, sid) == Ongoing
    && (Ends(w, e, sid).Some? ==>
         !EndFinalizes(w, e, sid) && !FailureWritten(w.shared.sessions[sid], Ends(w, e, sid).value.1))
  }

  /** The step leaves an ongoing session without a connection and without a task. */
  ghost predicate Strands(w: World, e: Event, sid: int)
    requires sid in w.shared.sessions
  {
    && LeavesOngoing(w, e, sid)
    && !SetUp(w, e, sid) && ClosesLast(w, e, sid)
    && !Queues(w, e, sid) && (HasTask(w, sid) ==> TakesLast(w, e, sid))
  }

  lemma WrittenQueue(w: World, e: Event, t: Task)
    requires OnConnection(e) && e.cid in w.clients
    ensures t in Written(w.shared, w.clients[e.cid], e).queue <==>
      t in w.shared.queue ||
      (UserQueues(w, e, t.sessionId) && t.status == if e.UserEnds? then Cancelled else Completed)
  {
    hide TurnKnown, StageKnown, WriteStatus, LastTurn, AddStage;
  }

  lemma HandlerQueue(w: World, e: Event, t: Task)
    requires OnConnection(e) && e.cid in w.clients && t.sessionId in w.shared.sessions
    ensures t in Step(w, e).shared.queue <==>
      || t in w.shared.queue
      || (UserQueues(w, e, t.sessionId) && t.status == if e.UserEnds? then Cancelled else Completed)
      || (HandsOff(w, e, t.sessionId) == Some(t.status) && HangupOf(e).published)
  {
    var c := w.clients[e.cid];
    HandlerOutcome(w.shared, c, e);
    WrittenQueue(w, e, t);
    ClosedQueue(Written(w.shared, c, e), c, ClosingStatus(e), HangupOf(e), t);
    hide Handle, Written, Fails, Close, UserQueues, ClosingStatus, HangupOf;
  }

  lemma ClosedQueue(w: Shared, c: Conn, status: Status, h: Hangup, t: Task)
    ensures t in Close(w, c, status, h).queue <==>
      || t in w.queue
      || (!c.disconnecting && !c.finalized && h.published && t == Task(c.sessionId, status))
  {
    hide EndIn;
  }

  lemma ConnectQueue(w: World, e: Event, t: Task)
    requires e.Connecting? && e.cid !in w.clients && t.sessionId in w.shared.sessions
    ensures t in Step(w, e).shared.queue <==>
      t in w.shared.queue || (HandsOff(w, e, t.sessionId) == Some(t.status) && HangupOf(e).published)
  {
    var o, c := e.connectFaults, FreshConn(e.cid, e.sid);
    if e.sid in w.shared.sessions {
      var s := w.shared.sessions[e.sid];
      ConnectOutcome(w.shared, e.cid, e.sid, o);
      ClosedQueue(w.shared, c, Cancelled, o.hangup, t);
      ClosedQueue(w.shared, c, s.status, o.hangup, t);
      ClosedQueue(w.shared, Loaded(c, s), Cancelled, o.hangup, t);
      ClosedQueue(Reopened(w.shared, e.sid), Loaded(c, s), Cancelled, o.hangup, t);
      hide Connect, Close;
    } else {
      CloseIs(w.shared, c, None, o.hangup);
      ClosedQueue(w.shared, c, Cancelled, o.hangup, t);
      hide Close, Disconnect;
    }
  }

  /** After a step a session has a task exactly when the step queues one, or it had one and its last is not taken. */
  lemma TaskLeft(w: World, e: Event, sid: int)
    requires sid in w.shared.sessions
    ensures HasTask(Step(w, e), sid) <==> Queues(w, e, sid) || (HasTask(w, sid) && !TakesLast(w, e, sid))
  {
    var after := Step(w, e);
    if e.TaskRuns? || e.TurnScored? || (e.Connecting? && e.cid in w.clients)
       || (OnConnection(e) && e.cid !in w.clients) {
      hide EndIn;
      WorkerTaskLeft(w, e, sid);
    } else {
      forall status ensures Task(sid, status) in after.shared.queue <==>
        || Task(sid, status) in w.shared.queue
        || (UserQueues(w, e, sid) && status == if e.UserEnds? then Cancelled else Completed)
        || (HandsOff(w, e, sid) == Some(status) && HangupOf(e).published)
      {
        if e.Connecting? {
          ConnectQueue(w, e, Task(sid, status));
        } else {
          HandlerQueue(w, e, Task(sid, status));
        }
      }
      hide Step, UserQueues, HandsOff, HangupOf;
      TasksBy(w, after, sid, e);
    }
  }

  lemma TasksBy(w: World, after: World, sid: int, e: Event)
    requires sid in w.shared.sessions && !e.TaskRuns?
    requires forall status :: Task(sid, status) in after.shared.queue <==>
      || Task(sid, status) in w.shared.queue
      || (UserQueues(w, e, sid) && status == if e.UserEnds? then Cancelled else Completed)
      || (HandsOff(w, e, sid).Some? && HandsOff(w, e, sid).value == status && HangupOf(e).published)
    ensures HasTask(after, sid) <==> Queues(w, e, sid) || HasTask(w, sid)
  {
    if HasTask(w, sid) {
      var t :| t in w.shared.queue && t.sessionId == sid;
      assert t == Task(sid, t.status);
      assert t in after.shared.queue;
    }
    if HasTask(after, sid) {
      var t :| t in after.shared.queue && t.sessionId == sid;
      assert t == Task(sid, t.status);
    }
    if UserQueues(w, e, sid) {
      assert Task(sid, if e.UserEnds? then Cancelled else Completed) in after.shared.queue;
    }
    if HandsOff(w, e, sid).Some? && HangupOf(e).published {
      assert Task(sid, HandsOff(w, e, sid).value) in after.shared.queue;
    }
    hide UserQueues, HandsOff, HangupOf;
  }

  lemma WorkerTaskLeft(w: World, e: Event, sid: int)
    requires sid in w.shared.sessions
    requires e.TaskRuns? || Step(w, e).shared.queue == w.shared.queue
    requires e.TaskRuns? || e.TurnScored? || (e.Connecting? && e.cid in w.clients)
      || (OnConnection(e) && e.cid !in w.clients)
    ensures HasTask(Step(w, e), sid) <==> Queues(w, e, sid) || (HasTask(w, sid) && !TakesLast(w, e, sid))
  {
    hide EndIn;
    assert !Queues(w, e, sid);
  }

  lemma ConnectCloses(w: Shared, cid: int, sid: int, o: ConnectFaults)
    ensures var c1 := Connect(w, cid, sid, o).1;
      && c1.sessionId == sid
      && (!c1.disconnecting <==>
           && sid in w.sessions && o.stateRead && !Over(w.sessions[sid])
           && o.ongoingWrite && o.agentStarted && o.statusWrite)
  {
    hide EndIn;
  }

  /** After a step a session has an open connection exactly when one is set up or not all of them are closed. */
  lemma OpenLeft(w: World, e: Event, sid: int)
    requires sid in w.shared.sessions
    ensures HasOpen(Step(w, e), sid) <==> SetUp(w, e, sid) || !ClosesLast(w, e, sid)
  {
    var after := Step(w, e);
    if e.Connecting? && e.cid !in w.clients {
      ConnectCloses(w.shared, e.cid, e.sid, e.connectFaults);
      var (shared, c) := Connect(w.shared, e.cid, e.sid, e.connectFaults);
      assert after.clients == w.clients[e.cid := c];
      hide Connect, Step;
      ConnectOpen(w, after, e, c, sid);
    } else if OnConnection(e) && e.cid in w.clients {
      var (shared, c) := Handle(w.shared, w.clients[e.cid], e);
      assert after.clients == w.clients[e.cid := c];
      HandlerOutcome(w.shared, w.clients[e.cid], e);
      HandOff.HandlerMoves(w.shared, w.clients[e.cid], e);
      hide Handle, Written, Fails, Step;
      HandlerOpen(w, after, e, c, sid);
    } else {
      assert after.clients == w.clients by { ClientsStay(w, e); }
      hide Step;
      assert forall cid :: OpenFor(after, cid, sid) <==> OpenFor(w, cid, sid);
    }
  }

  lemma ClientsStay(w: World, e: Event)
    requires OnConnection(e) ==> e.cid !in w.clients
    requires e.Connecting? ==> e.cid in w.clients
    ensures Step(w, e).clients == w.clients
  {
  }

  lemma ConnectOpen(w: World, after: World, e: Event, c: Conn, sid: int)
    requires e.Connecting? && e.cid !in w.clients && sid in w.shared.sessions
    requires after.clients == w.clients[e.cid := c] && c.sessionId == e.sid
    requires e.sid == sid ==> (!c.disconnecting <==> SetUp(w, e, sid))
    ensures HasOpen(after, sid) <==> SetUp(w, e, sid) || !ClosesLast(w, e, sid)
  {
    assert forall cid :: cid != e.cid ==> (OpenFor(after, cid, sid) <==> OpenFor(w, cid, sid));
    if SetUp(w, e, sid) {
      assert OpenFor(after, e.cid, sid);
    }
    if HasOpen(w, sid) {
      var cid :| OpenFor(w, cid, sid);
      assert OpenFor(after, cid, sid);
    }
  }

  lemma HandlerOpen(w: World, after: World, e: Event, c: Conn, sid: int)
    requires OnConnection(e) && e.cid in w.clients && sid in w.shared.sessions
    requires after.clients == w.clients[e.cid := c] && c.sessionId == w.clients[e.cid].sessionId
    requires c.disconnecting <==> w.clients[e.cid].disconnecting || Fails(w.shared, w.clients[e.cid], e)
    ensures HasOpen(after, sid) <==> SetUp(w, e, sid) || !ClosesLast(w, e, sid)
  {
    hide Fails;
    assert forall cid :: OpenFor(after, cid, sid) <==> OpenFor(w, cid, sid) && !(ClosesOpen(w, e, sid) && e.cid == cid);
    if !ClosesLast(w, e, sid) {
      var cid :| OpenFor(w, cid, sid) && !(ClosesOpen(w, e, sid) && e.cid == cid);
      assert OpenFor(after, cid, sid);
    }
  }

  /** A step leaves a session tended exactly when it does not strand it. */
  lemma TendedStep(w: World, e: Event, sid: int)
    requires sid in w.shared.sessions
    ensures Tended(Step(w, e), sid) <==> !Strands(w, e, sid)
  {
    StepStatuses(w, e, sid);
    TaskLeft(w, e, sid);
    OpenLeft(w, e, sid);
    hide Step, Ends, EndFinalizes, FailureWritten, SessionWritten, FinalizeThen, StatusThen, HasTask, HasOpen, Queues,
      TakesLast, ClosesLast, SetUp;
  }

  /**
   How a tended session gets stranded: its last connection closes finalized, because it had loaded a finalized session
   or its user's end was worked off already; a finalized session is reopened by a setup that fails; an end carried out
   on the spot fails without its failure being written; or a worker drops the last task before marking the session.
   */
  lemma StrandingCauses(w: World, e: Event, sid: int)
    requires Tended(w, sid) && Strands(w, e, sid)
    ensures
      || (ClosesOpen(w, e, sid) && w.clients[e.cid].finalized)
      || (Reopens(w, e, sid) && !SetUp(w, e, sid) && w.shared.sessions[sid].finalize == Finalized)
      || (&& Ends(w, e, sid).Some? && !e.TaskRuns?
          && !EndFinalizes(w, e, sid) && !FailureWritten(w.shared.sessions[sid], Ends(w, e, sid).value.1))
      || (TakesLast(w, e, sid) && !e.finalizingWrite)
  {
    hide Fails, EndFinalizes, FailureWritten, UserQueues;
    if HasOpen(w, sid) {
      var cid :| OpenFor(w, cid, sid);
      assert ClosesOpen(w, e, sid) && e.cid == cid;
    }
  }

  /** No step of the run strands the session. */
  ghost predicate NeverStranded(w: World, events: seq<Event>, sid: int) {
    events == [] ||
    (var n := |events| - 1;
     var before := After(w, events[..n]);
     NeverStranded(w, events[..n], sid) && sid in before.shared.sessions && !Strands(before, events[n], sid))
  }

  ghost predicate TendedThroughout(w: World, events: seq<Event>, sid: int) {
    && Tended(After(w, events), sid)
    && (events != [] ==> TendedThroughout(w, events[..|events| - 1], sid))
  }

  /** Over every run an ongoing session always has somebody who will end it exactly when no step strands it. */
  lemma {:induction false} TendedRun(w: World, events: seq<Event>, sid: int)
    requires Tended(w, sid)
    ensures TendedThroughout(w, events, sid) <==> NeverStranded(w, events, sid)
  {
    hide Step, Strands, HasOpen, HasTask;
    if events != [] {
      var n := |events| - 1;
      TendedRun(w, events[..n], sid);
      if Tended(After(w, events[..n]), sid) {
        TendedStep(After(w, events[..n]), events[n], sid);
      }
    }
  }
}
