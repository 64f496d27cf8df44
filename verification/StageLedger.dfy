/**
 The stage ledger: the rows of a session's stages, the pair of current stage and phrase in the session row, and the
 copy of that pair a live connection keeps always tell the same story.
 */
module StageLedger {
  import opened Prelude
  import opened SessionStatus
  import opened SessionRecords
  import opened Evaluation
  import opened LiveSession
  import opened SessionRuns
  import Finalization

  // ---------------------------------------------------------------- the invariant

  function LastOf(stages: seq<Stage>): Stage
    requires stages != []
  {
    stages[|stages| - 1]
  }

  /** No stage and no current pair, or the last stage alone is open and is the current pair; neighbours differ. */
  ghost predicate Ledger(s: Session) {
    && DistinctStages(s.stages)
    && (forall i :: 0 <= i < |s.stages| - 1 ==> s.stages[i].ended && s.stages[i].phrase != s.stages[i + 1].phrase)
    && if s.stages == [] then s.current == None
       else !LastOf(s.stages).ended && s.current == Some((LastOf(s.stages).id, LastOf(s.stages).phrase))
  }

  /** A connection's copy agrees with the session row. */
  ghost predicate Agrees(c: Conn, s: Session) {
    match s.current
    case None => c.state == "" && c.stateId == None
    case Some(pair) => c.state == pair.1 && c.stateId == Some(pair.0)
  }

  /** Stage ids are the primary key of one table for all sessions. */
  ghost predicate KeyedStages(sessions: map<int, Session>) {
    forall a, b, id ::
      a in sessions && b in sessions && HasStage(sessions[a].stages, id) && HasStage(sessions[b].stages, id) ==> a == b
  }

  ghost predicate Sound(sessions: map<int, Session>) {
    KeyedStages(sessions) && forall sid :: sid in sessions ==> Ledger(sessions[sid])
  }

  predicate Live(w: World, cid: int) {
    cid in w.clients && !w.clients[cid].disconnecting
  }

  ghost predicate LiveAgree(w: World) {
    && (forall cid :: Live(w, cid) ==>
         var c := w.clients[cid];
         c.sessionId in w.shared.sessions && Agrees(c, w.shared.sessions[c.sessionId]))
    && (forall a, b :: Live(w, a) && Live(w, b) && w.clients[a].sessionId == w.clients[b].sessionId ==> a == b)
  }

  ghost predicate Inv(w: World) {
    Sound(w.shared.sessions) && LiveAgree(w)
  }

  /** One live connection per session, and nothing is handled for a connection that is being closed. */
  ghost predicate Orderly(w: World, e: Event) {
    if e.Connecting? then
      e.cid !in w.clients && forall cid :: Live(w, cid) ==> w.clients[cid].sessionId != e.sid
    else OnConnection(e) ==> Live(w, e.cid)
  }

  // ---------------------------------------------------------------- changes inside one session

  /** Only the session named may differ. */
  ghost predicate OnlyIn(a: map<int, Session>, b: map<int, Session>, sid: int) {
    a.Keys == b.Keys && forall t :: t in a && t != sid ==> a[t] == b[t]
  }

  /** The same stages, possibly more of them evaluated, and the same current pair. */
  ghost predicate SameLedger(a: Session, b: Session) {
    OnlyEvaluated(a.stages, b.stages) && a.current == b.current
  }

  lemma SameLedgerKeeps(a: Session, b: Session)
    requires SameLedger(a, b)
    ensures Ledger(a) ==> Ledger(b)
    ensures forall id :: HasStage(b.stages, id) <==> HasStage(a.stages, id)
    ensures forall c :: Agrees(c, a) <==> Agrees(c, b)
  {
  }

  /** Replacing one session by one that keeps its ledger and brings no foreign stage id keeps everything sound. */
  lemma ReplaceSession(sessions: map<int, Session>, sid: int, s: Session)
    requires Sound(sessions) && sid in sessions && Ledger(s)
    requires forall id :: HasStage(s.stages, id) ==> HasStage(sessions[sid].stages, id) || !StageKnown(sessions, id)
    ensures Sound(sessions[sid := s])
  {
  }

  lemma ReplaceSameLedger(sessions: map<int, Session>, sid: int, s: Session)
    requires Sound(sessions) && sid in sessions && SameLedger(sessions[sid], s)
    ensures Sound(sessions[sid := s])
    ensures forall c :: Agrees(c, sessions[sid]) <==> Agrees(c, s)
  {
  }

  lemma EndInKeeps(sessions: map<int, Session>, sid: int, status: Status, e: EndFaults)
    requires Sound(sessions) && sid in sessions
    ensures var after := EndIn(sessions, sid, status, e);
      && Sound(after) && OnlyIn(sessions, after, sid)
      && forall c :: Agrees(c, sessions[sid]) <==> Agrees(c, after[sid])
  {
    Finalization.EndKeeps(sessions[sid], status, e);
    hide End, Sound, Agrees;
    ReplaceSameLedger(sessions, sid, End(sessions[sid], status, e).0);
  }

  lemma DisconnectKeeps(w: Shared, c: Conn, status: Option<Status>, h: Hangup)
    requires Sound(w.sessions) && c.sessionId in w.sessions
    ensures var (w1, c1) := Disconnect(w, c, status, h);
      && Sound(w1.sessions) && OnlyIn(w.sessions, w1.sessions, c.sessionId)
      && c1.sessionId == c.sessionId && c1.disconnecting
  {
    EndInKeeps(w.sessions, c.sessionId, if status.Some? then status.value else Cancelled, h.fallback);
    hide EndIn, Sound;
  }

  // ---------------------------------------------------------------- the stage transactions

  lemma EndOthers(stages: seq<Stage>, id: int, lastTurn: int)
    requires !HasStage(stages, id)
    ensures EndStages(stages, id, lastTurn) == stages
  {
  }

  /** Ending a stage by its id touches only the session that has it. */
  lemma EndRowTouches(sessions: map<int, Session>, sid: int, id: int, lastTurn: int)
    requires KeyedStages(sessions) && sid in sessions && HasStage(sessions[sid].stages, id)
    ensures EndStageRow(sessions, id, lastTurn)
            == sessions[sid := sessions[sid].(stages := EndStages(sessions[sid].stages, id, lastTurn))]
  {
    forall t | t in sessions && t != sid ensures EndStageRow(sessions, id, lastTurn)[t] == sessions[t] {
      EndOthers(sessions[t].stages, id, lastTurn);
    }
  }

  /** Adding a first stage keeps the ledger exactly when the session had none. */
  lemma FirstStageLedger(s: Session, id: int, phrase: string)
    requires Ledger(s) && !HasStage(s.stages, id)
    ensures Ledger(AddStage(s, id, phrase)) <==> s.stages == []
  {
    if s.stages != [] {
      var n := |s.stages|;
      assert AddStage(s, id, phrase).stages[n - 1] == LastOf(s.stages);
    }
  }

  lemma AddedIds(s: Session, id: int, phrase: string)
    ensures forall k :: HasStage(AddStage(s, id, phrase).stages, k) <==> k == id || HasStage(s.stages, k)
  {
  }

  lemma EndedIds(stages: seq<Stage>, id: int, lastTurn: int)
    ensures forall k :: HasStage(EndStages(stages, id, lastTurn), k) <==> HasStage(stages, k)
  {
    var ended := EndStages(stages, id, lastTurn);
    forall k ensures HasStage(ended, k) <==> HasStage(stages, k) {
      if HasStage(stages, k) {
        var i :| 0 <= i < |stages| && stages[i].id == k;
        assert ended[i] in ended;
      }
      if HasStage(ended, k) {
        var i :| 0 <= i < |ended| && ended[i].id == k;
        assert stages[i] in stages;
      }
    }
  }

  /** What ending a stage and adding the next makes of a session. */
  function NextStage(s: Session, oldId: int, lastTurn: int, id: int, phrase: string): Session {
    AddStage(s.(stages := EndStages(s.stages, oldId, lastTurn)), id, phrase)
  }

  /** Moving on keeps the ledger exactly when the stage ended was the current one and the new phrase is another. */
  lemma NextStageLedger(s: Session, oldId: int, lastTurn: int, id: int, phrase: string)
    requires Ledger(s) && HasStage(s.stages, oldId) && !HasStage(s.stages, id)
    ensures Ledger(NextStage(s, oldId, lastTurn, id, phrase)) <==>
      s.current.Some? && s.current.value.0 == oldId && s.current.value.1 != phrase
  {
    var next := NextStage(s, oldId, lastTurn, id, phrase);
    var n := |s.stages|;
    assert n > 0;
    var last := LastOf(s.stages);
    assert next.stages[n - 1] == EndedIn(last, oldId, lastTurn);
    assert next.stages[n] == Stage(id, phrase, false, None, false);
    assert forall i :: 0 <= i < n ==> next.stages[i] == EndedIn(s.stages[i], oldId, lastTurn);
    if last.id == oldId && last.phrase != phrase {
      forall i, j | 0 <= i < j < |next.stages| ensures next.stages[i].id != next.stages[j].id {
        assert s.stages[i] in s.stages;
      }
    }
  }

  /** A committed first stage becomes the current pair; otherwise nothing changes. */
  lemma FirstStageKeeps(w: Shared, sid: int, id: int, phrase: string, ok: bool)
    requires Sound(w.sessions) && sid in w.sessions && w.sessions[sid].current == None
    ensures var (w1, committed) := FirstStageTx(w, sid, id, phrase, ok);
      && Sound(w1.sessions) && OnlyIn(w.sessions, w1.sessions, sid)
      && w1.sessions[sid].current == if committed then Some((id, phrase)) else None
  {
    var s := w.sessions[sid];
    if FirstStageTx(w, sid, id, phrase, ok).1 {
      assert !HasStage(s.stages, id);
      FirstStageLedger(s, id, phrase);
      AddedIds(s, id, phrase);
      assert s.stages == [];
      hide Ledger, HasStage, Sound;
      ReplaceSession(w.sessions, sid, AddStage(s, id, phrase));
    }
  }

  /** A committed stage change makes the new stage the current pair; otherwise nothing changes. */
  lemma NextStageKeeps(w: Shared, sid: int, oldId: int, lastTurn: int, id: int, phrase: string, ok: bool)
    requires Sound(w.sessions) && sid in w.sessions
    requires w.sessions[sid].current.Some? && w.sessions[sid].current.value.0 == oldId
    requires w.sessions[sid].current.value.1 != phrase
    ensures var (w1, committed) := NextStageTx(w, sid, oldId, lastTurn, id, phrase, ok);
      && Sound(w1.sessions) && OnlyIn(w.sessions, w1.sessions, sid)
      && w1.sessions[sid].current == if committed then Some((id, phrase)) else w.sessions[sid].current
  {
    var s := w.sessions[sid];
    assert HasStage(s.stages, oldId) by {
      assert LastOf(s.stages) in s.stages;
    }
    if NextStageTx(w, sid, oldId, lastTurn, id, phrase, ok).1 {
      assert !HasStage(s.stages, id);
      EndRowTouches(w.sessions, sid, oldId, lastTurn);
      NextStageLedger(s, oldId, lastTurn, id, phrase);
      NextIds(s, oldId, lastTurn, id, phrase);
      var next := NextStage(s, oldId, lastTurn, id, phrase);
      hide Ledger, HasStage, Sound, EndStageRow, EndStages;
      ReplaceSession(w.sessions, sid, next);
      assert NextStageTx(w, sid, oldId, lastTurn, id, phrase, ok).0.sessions == w.sessions[sid := next];
    }
  }

  lemma NextIds(s: Session, oldId: int, lastTurn: int, id: int, phrase: string)
    ensures forall k ::
      HasStage(NextStage(s, oldId, lastTurn, id, phrase).stages, k) <==> k == id || HasStage(s.stages, k)
  {
    EndedIds(s.stages, oldId, lastTurn);
    AddedIds(s.(stages := EndStages(s.stages, oldId, lastTurn)), id, phrase);
    hide HasStage;
  }

  // ---------------------------------------------------------------- handlers

  /** What a step of a live connection keeps. */
  ghost predicate Keeps(w: Shared, c: Conn, w1: Shared, c1: Conn) {
    && Sound(w1.sessions) && OnlyIn(w.sessions, w1.sessions, c.sessionId) && c1.sessionId == c.sessionId
    && (!c1.disconnecting ==> c.sessionId in w1.sessions && Agrees(c1, w1.sessions[c.sessionId]))
  }

  lemma ChangeKeeps(w: Shared, c: Conn, state: string, o: ResponseFaults)
    requires Sound(w.sessions) && c.sessionId in w.sessions && Agrees(c, w.sessions[c.sessionId])
    requires c.state != state && !c.disconnecting
    ensures var (w1, c1) := ChangeStage(w, c, state, o); Keeps(w, c, w1, c1)
  {
    var sid := c.sessionId;
    hide Disconnect, Sound, FirstStageTx, NextStageTx;
    if c.stateId == None && c.state == "" {
      FirstStageKeeps(w, sid, o.newId, state, o.statementsSucceed);
      DisconnectKeeps(FirstStageTx(w, sid, o.newId, state, o.statementsSucceed).0, c, None, o.hangup);
    } else {
      DisconnectKeeps(w, c, None, o.hangup);
      var lastTurn := LastTurn(w, c, state, o.looked);
      if lastTurn.Some? && c.stateId.Some? {
        var prior, last := c.stateId.value, lastTurn.value;
        NextStageKeeps(w, sid, prior, last, o.newId, state, o.statementsSucceed);
        DisconnectKeeps(NextStageTx(w, sid, prior, last, o.newId, state, o.statementsSucceed).0, c, None, o.hangup);
      }
    }
  }

  /** Storing a turn changes no stage. */
  lemma StoreTurnKeeps(w: Shared, c: Conn, id: int, phrase: string, ok: bool)
    requires Sound(w.sessions) && c.sessionId in w.sessions
    ensures var w1 := StoreTurn(w, c.sessionId, id, phrase, ok).0;
      && Sound(w1.sessions) && OnlyIn(w.sessions, w1.sessions, c.sessionId)
      && forall d :: Agrees(d, w.sessions[c.sessionId]) <==> Agrees(d, w1.sessions[c.sessionId])
  {
    var s := w.sessions[c.sessionId];
    hide Sound, Agrees, TurnKnown;
    ReplaceSameLedger(w.sessions, c.sessionId, AddTurn(s, id, phrase));
  }

  lemma ResponseKeeps(w: Shared, c: Conn, sid: int, state: string, o: ResponseFaults)
    requires Sound(w.sessions) && c.sessionId in w.sessions && Agrees(c, w.sessions[c.sessionId])
    requires !c.disconnecting
    ensures var (w1, c1) := Respond(w, c, sid, state, o); Keeps(w, c, w1, c1)
  {
    hide Disconnect, Sound, Agrees, ChangeStage, StoreTurn;
    DisconnectKeeps(w, c, None, o.hangup);
    StoreTurnKeeps(w, c, o.turnId, state, o.stored);
    var told := StoreTurn(w, c.sessionId, o.turnId, state, o.stored).0;
    DisconnectKeeps(told, c, None, o.hangup);
    if c.state != state {
      ChangeKeeps(told, c, state, o);
    }
  }

  lemma TranscriptKeeps(w: Shared, c: Conn, sid: int, turn: Option<int>, o: TranscriptFaults)
    requires Sound(w.sessions) && c.sessionId in w.sessions && Agrees(c, w.sessions[c.sessionId])
    ensures var (w1, c1) := RecordTranscript(w, c, sid, turn, o); Keeps(w, c, w1, c1)
  {
    hide Disconnect, Sound, StoreTurn;
    DisconnectKeeps(w, c, None, o.hangup);
    DisconnectKeeps(w, c.(lastTurn := turn), None, o.hangup);
    if turn.Some? && o.message.Some? {
      StoreTurnKeeps(w, c, turn.value, o.message.value, o.stored);
      var told := StoreTurn(w, c.sessionId, turn.value, o.message.value, o.stored).0;
      DisconnectKeeps(told, c.(lastTurn := turn), None, o.hangup);
    }
  }

  lemma StatusKeeps(sessions: map<int, Session>, sid: int, status: Status)
    requires Sound(sessions) && sid in sessions
    ensures var after := WriteStatus(sessions, sid, status);
      && Sound(after) && OnlyIn(sessions, after, sid)
      && forall c :: Agrees(c, sessions[sid]) <==> Agrees(c, after[sid])
  {
  }

  lemma HandlerKeeps(w: Shared, c: Conn, e: Event)
    requires Sound(w.sessions) && c.sessionId in w.sessions && Agrees(c, w.sessions[c.sessionId])
    requires OnConnection(e) && !c.disconnecting
    ensures var (w1, c1) := Handle(w, c, e); Keeps(w, c, w1, c1)
  {
    hide Disconnect, Sound, ChangeStage, WriteStatus;
    if e.Response? {
      ResponseKeeps(w, c, e.sid, e.state, e.responseFaults);
      hide Respond;
    } else if e.Transcript? {
      TranscriptKeeps(w, c, e.sid, e.turn, e.transcriptFaults);
      hide RecordTranscript;
    } else if e.MonitorFires? {
      StatusKeeps(w.sessions, c.sessionId, TimedOut);
      var marked := w.(sessions := if e.written then WriteStatus(w.sessions, c.sessionId, TimedOut) else w.sessions);
      DisconnectKeeps(marked, c, Some(TimedOut), e.hangup);
    } else if e.Drops? {
      DisconnectKeeps(w, c, if e.timedOut then Some(TimedOut) else None, e.hangup);
    } else {
      DisconnectKeeps(w, c, None, e.hangup);
      StatusKeeps(w.sessions, c.sessionId, Completed);
    }
  }

  lemma LoadedAgrees(c: Conn, s: Session)
    ensures Agrees(Loaded(c, s), s)
  {
  }

  lemma ConnectKeeps(w: Shared, cid: int, sid: int, o: ConnectFaults)
    requires Sound(w.sessions)
    ensures var (w1, c1) := Connect(w, cid, sid, o); Keeps(w, FreshConn(cid, sid), w1, c1)
  {
    hide Disconnect, Sound, Agrees;
    var c := FreshConn(cid, sid);
    if sid !in w.sessions {
      MissingSession(w, c, o.hangup);
    } else {
      var s := w.sessions[sid];
      DisconnectKeeps(w, c, None, o.hangup);
      DisconnectKeeps(w, c, Some(s.status), o.hangup);
      DisconnectKeeps(w, Loaded(c, s), None, o.hangup);
      var ongoing := s.(finalize := Ongoing);
      ReplaceSameLedger(w.sessions, sid, ongoing);
      var marked := w.(sessions := w.sessions[sid := ongoing]);
      DisconnectKeeps(marked, Loaded(c, s), None, o.hangup);
      ReplaceSameLedger(w.sessions, sid, ongoing.(status := OnGoing));
      LoadedAgrees(c, s);
      assert marked.sessions[sid := ongoing.(status := OnGoing)] == w.sessions[sid := ongoing.(status := OnGoing)];
    }
  }

  lemma MissingSession(w: Shared, c: Conn, h: Hangup)
    requires c.sessionId !in w.sessions && !c.disconnecting
    ensures Disconnect(w, c, None, h).0.sessions == w.sessions && Disconnect(w, c, None, h).1.disconnecting
    ensures Disconnect(w, c, None, h).1.sessionId == c.sessionId
  {
  }

  lemma CalculateKeeps(s: Session, id: int, phrase: string, c: Calculation)
    ensures SameLedger(s, Calculate(s, id, phrase, c).0)
  {
  }

  lemma ScoreKeeps(w: Shared, t: ScoreTask, o: ScoreFaults)
    requires Sound(w.sessions)
    ensures var after := ScoreTurn(w, t, o).sessions;
      && Sound(after) && after.Keys == w.sessions.Keys
      && forall c, sid :: sid in after ==> (Agrees(c, w.sessions[sid]) <==> Agrees(c, after[sid]))
  {
    var sessions := w.sessions;
    hide Sound, Agrees, Calculate, IsScored, CachedTurn;
    if t.sessionId in sessions {
      var s := AddEvaluation(sessions[t.sessionId], t, o);
      ReplaceSameLedger(sessions, t.sessionId, s);
      if t.stageId.Some? {
        CalculateKeeps(s, t.stageId.value, t.phrase, o.calculation);
        ReplaceSameLedger(sessions, t.sessionId, Calculate(s, t.stageId.value, t.phrase, o.calculation).0);
      }
    }
  }

  lemma TaskKeeps(w: Shared, t: Task, finalizingWrite: bool, e: EndFaults, again: bool)
    requires Sound(w.sessions)
    ensures var after := RunTask(w, t, finalizingWrite, e, again).sessions;
      && Sound(after) && after.Keys == w.sessions.Keys
      && forall c, sid :: sid in after ==> (Agrees(c, w.sessions[sid]) <==> Agrees(c, after[sid]))
  {
    hide Sound, Agrees, EndIn;
    if t.sessionId in w.sessions {
      var marked := w.sessions[t.sessionId].(finalize := Finalizing);
      ReplaceSameLedger(w.sessions, t.sessionId, marked);
      EndInKeeps(w.sessions[t.sessionId := marked], t.sessionId, t.status, e);
    }
  }

  /** Workers change neither stages nor current pairs. */
  lemma WorkerKeeps(w: World, e: Event)
    requires Sound(w.shared.sessions) && (e.TaskRuns? || e.TurnScored?)
    ensures var after := Step(w, e).shared.sessions;
      && Sound(after) && after.Keys == w.shared.sessions.Keys
      && forall c, sid :: sid in after ==> (Agrees(c, w.shared.sessions[sid]) <==> Agrees(c, after[sid]))
  {
    if e.TaskRuns? {
      TaskKeeps(w.shared, e.task, e.finalizingWrite, e.endFaults, e.again);
    } else {
      ScoreKeeps(w.shared, e.scoreTask, e.scoreFaults);
    }
    hide Sound, Agrees, RunTask, ScoreTurn;
  }

  // ---------------------------------------------------------------- runs

  lemma ConnStepKeeps(w: World, cid: int, before: Conn, shared: Shared, c: Conn)
    requires Inv(w) && Keeps(w.shared, before, shared, c)
    requires forall other :: Live(w, other) && other != cid ==> w.clients[other].sessionId != before.sessionId
    ensures Inv(World(shared, w.clients[cid := c]))
  {
    hide Sound, Agrees;
    var after := World(shared, w.clients[cid := c]);
    forall other | Live(after, other)
      ensures after.clients[other].sessionId in shared.sessions
      ensures Agrees(after.clients[other], shared.sessions[after.clients[other].sessionId])
    {
      if other != cid {
        assert Live(w, other);
      }
    }
    forall a, b | Live(after, a) && Live(after, b) && after.clients[a].sessionId == after.clients[b].sessionId
      ensures a == b
    {
      if a != cid {
        assert Live(w, a);
      }
      if b != cid {
        assert Live(w, b);
      }
    }
  }

  lemma StepKeeps(w: World, e: Event)
    requires Inv(w) && Orderly(w, e)
    ensures Inv(Step(w, e))
  {
    hide Sound, Agrees;
    if e.TaskRuns? || e.TurnScored? {
      WorkerKeeps(w, e);
      WorkersKeepClients(w, e);
      hide Step;
      forall cid | Live(Step(w, e), cid) ensures Live(w, cid) {
      }
    } else if e.Connecting? {
      ConnectKeeps(w.shared, e.cid, e.sid, e.connectFaults);
      var (shared, c) := Connect(w.shared, e.cid, e.sid, e.connectFaults);
      hide Connect;
      ConnStepKeeps(w, e.cid, FreshConn(e.cid, e.sid), shared, c);
    } else {
      assert Live(w, e.cid);
      HandlerKeeps(w.shared, w.clients[e.cid], e);
      var (shared, c) := Handle(w.shared, w.clients[e.cid], e);
      hide Handle;
      ConnStepKeeps(w, e.cid, w.clients[e.cid], shared, c);
    }
  }

  lemma WorkersKeepClients(w: World, e: Event)
    requires e.TaskRuns? || e.TurnScored?
    ensures Step(w, e).clients == w.clients
  {
  }

  ghost predicate OrderlyRun(w: World, events: seq<Event>) {
    forall k :: 0 <= k < |events| ==> Orderly(After(w, events[..k]), events[k])
  }

  /**
   Over every orderly run, whatever transactions and cache writes fail: all ledgers hold, live connections agree with
   their session, and each session has one live connection at most.
   */
  lemma {:induction false} LedgerHolds(w: World, events: seq<Event>)
    requires Inv(w) && OrderlyRun(w, events)
    ensures Inv(After(w, events))
  {
    hide Inv, Orderly, Step;
    if events != [] {
      var n := |events| - 1;
      forall k | 0 <= k < n ensures Orderly(After(w, events[..n][..k]), events[..n][k]) {
        assert events[..n][..k] == events[..k];
      }
      LedgerHolds(w, events[..n]);
      assert Orderly(After(w, events[..n]), events[n]);
      StepKeeps(After(w, events[..n]), events[n]);
    }
  }

  /** The start: sessions without stages and no connections. */
  lemma InvAtStart(sessions: map<int, Session>)
    requires forall sid :: sid in sessions ==> sessions[sid].stages == [] && sessions[sid].current == None
    ensures Inv(World(Shared(sessions, multiset{}, multiset{}, {}, map[]), map[]))
  {
  }

  /** A response that commits the first stage of a session. */
  ghost predicate FirstResponse(w: World, e: Event, sid: int) {
    && e.Response? && e.sid == sid && e.state != "" && Live(w, e.cid) && w.clients[e.cid].sessionId == sid
    && w.clients[e.cid].state == "" && w.clients[e.cid].stateId == None
    && e.responseFaults.stored && e.responseFaults.recorded && e.responseFaults.statementsSucceed
    && sid in w.shared.sessions && !TurnKnown(w.shared.sessions, e.responseFaults.turnId)
    && !StageKnown(w.shared.sessions, e.responseFaults.newId)
  }

  /** The session with the turn and the stage of a response. */
  function Responded(s: Session, e: Event): Session
    requires e.Response?
  {
    AddStage(AddTurn(s, e.responseFaults.turnId, e.state), e.responseFaults.newId, e.state)
  }

  lemma FirstResponseAdds(w: World, e: Event, sid: int)
    requires FirstResponse(w, e, sid)
    ensures Step(w, e).shared.sessions == w.shared.sessions[sid := Responded(w.shared.sessions[sid], e)]
    ensures forall cid :: cid in w.clients && cid != e.cid ==>
      cid in Step(w, e).clients && Step(w, e).clients[cid] == w.clients[cid]
  {
    var told := StoreTurn(w.shared, sid, e.responseFaults.turnId, e.state, true).0;
    assert !StageKnown(told.sessions, e.responseFaults.newId);
    hide StageKnown, TurnKnown, AddStage, Disconnect;
  }

  lemma RespondedKnows(sessions: map<int, Session>, sid: int, e: Event, turn: int, stage: int)
    requires sid in sessions && e.Response?
    requires !TurnKnown(sessions, turn) && !StageKnown(sessions, stage)
    requires turn != e.responseFaults.turnId && stage != e.responseFaults.newId
    ensures var after := sessions[sid := Responded(sessions[sid], e)];
      !TurnKnown(after, turn) && !StageKnown(after, stage)
  {
    var after := sessions[sid := Responded(sessions[sid], e)];
    AddedIds(AddTurn(sessions[sid], e.responseFaults.turnId, e.state), e.responseFaults.newId, e.state);
    forall t | t in after ensures !HasTurn(after[t].turns, turn) && !HasStage(after[t].stages, stage) {
      assert !HasTurn(sessions[t].turns, turn) && !HasStage(sessions[t].stages, stage);
    }
  }

  /** Orderliness is needed: two live connections of one session that both see the first stage leave two open rows. */
  lemma TwoConnectionsBreak(w: World, first: Event, second: Event, sid: int)
    requires Sound(w.shared.sessions)
    requires FirstResponse(w, first, sid) && FirstResponse(w, second, sid) && first.cid != second.cid
    requires first.responseFaults.newId != second.responseFaults.newId
    requires first.responseFaults.turnId != second.responseFaults.turnId
    ensures var s := Step(Step(w, first), second).shared.sessions[sid];
      var n := |s.stages|;
      && n >= 2 && !s.stages[n - 2].ended && !s.stages[n - 1].ended
      && s.stages[n - 2].id == first.responseFaults.newId && s.stages[n - 1].id == second.responseFaults.newId
      && !Ledger(s)
  {
    var s, id, id2 := w.shared.sessions[sid], first.responseFaults.newId, second.responseFaults.newId;
    var mid := Step(w, first);
    FirstResponseAdds(w, first, sid);
    RespondedKnows(w.shared.sessions, sid, first, second.responseFaults.turnId, id2);
    var once := Responded(s, first);
    hide Step, Ledger, HasStage, TurnKnown, StageKnown;
    FirstResponseAdds(mid, second, sid);
    var twice := Responded(once, second);
    assert twice.stages[|s.stages|] == Stage(id, first.state, false, None, false);
    assert twice.stages[|s.stages| + 1] == Stage(id2, second.state, false, None, false);
    OpenBeforeLast(twice, |s.stages|);
  }

  lemma OpenBeforeLast(s: Session, i: nat)
    requires i + 1 < |s.stages| && !s.stages[i].ended
    ensures !Ledger(s)
  {
  }

  /**
   The ledger never ends the current stage, so a session that is finalized twice stores two evaluations of that stage
   whenever it has scored turns.
   */
  lemma FinalizingTwiceDuplicates(s: Session, f: Faults, again: Faults)
    requires Ledger(s) && s.stages != [] && HasScores(s.turnEvaluations, LastOf(s.stages).phrase)
    requires Finalize(s, f).1 && Finalize(Finalize(s, f).0, again).1
    ensures Finalization.Count(Finalize(Finalize(s, f).0, again).0.phraseEvaluations, LastOf(s.stages).id)
         == Finalization.Count(s.phraseEvaluations, LastOf(s.stages).id) + 2
  {
    var r := Finalize(s, f).0;
    FinalizingAdds(s, f);
    assert LastOf(r.stages).id == LastOf(s.stages).id;
    FinalizingAdds(r, again);
    hide Finalize, HasScores, Finalization.Count;
  }

  lemma FinalizingAdds(s: Session, f: Faults)
    requires Ledger(s) && s.stages != [] && HasScores(s.turnEvaluations, LastOf(s.stages).phrase)
    requires Finalize(s, f).1
    ensures var r := Finalize(s, f).0;
      && Ledger(r) && r.stages != [] && r.turnEvaluations == s.turnEvaluations
      && LastOf(r.stages).id == LastOf(s.stages).id && LastOf(r.stages).phrase == LastOf(s.stages).phrase
      && Finalization.Count(r.phraseEvaluations, LastOf(s.stages).id)
           == Finalization.Count(s.phraseEvaluations, LastOf(s.stages).id) + 1
  {
    var added := Finalization.AddedBy(s, f);
    Finalization.FinalizeIs(s, f);
    Finalization.StoreFields(s, added);
    Finalization.StoreKeepsOrder(s, added);
    Finalization.OpenStageAdded(s, f, |s.stages| - 1);
    Finalization.CountAppend(s.phraseEvaluations, added, LastOf(s.stages).id);
    hide Finalize, HasScores, Finalization.Count, Finalization.AddedBy, Finalization.Faultless, Finalization.Store;
    SameLedgerKeeps(s, Finalize(s, f).0);
  }
}
