/** Exactly which steps break the stage ledger: a second live connection, or a closing one that changes the stage. */
module LedgerSteps {
  import opened Prelude
  import opened SessionStatus
  import opened SessionRecords
  import opened Evaluation
  import opened LiveSession
  import opened SessionRuns
  import opened StageLedger
  import EvaluationRuns
  import Finalization
  import Outcomes
  import SessionFates

  // ---------------------------------------------------------------- the invariant with copies

  /** What any connection, open or closing, has copied: nothing, or a stage of its session. */
  ghost predicate Copied(w: Shared, c: Conn) {
    match c.stateId
    case None => c.state == ""
    case Some(id) => c.sessionId in w.sessions && HasStage(w.sessions[c.sessionId].stages, id)
  }

  ghost predicate Copies(w: World) {
    forall cid :: cid in w.clients ==> Copied(w.shared, w.clients[cid])
  }

  ghost predicate Whole(w: World) {
    Inv(w) && Copies(w)
  }

  ghost predicate HasLive(w: World, sid: int) {
    exists cid :: Live(w, cid) && w.clients[cid].sessionId == sid
  }

  // ---------------------------------------------------------------- the breaking steps

  /** A response commits a stage change of its session. */
  predicate Moves(w: Shared, c: Conn, e: Event) {
    && e.Response? && !Outcomes.Unrecorded(w, c, e.sid, e.responseFaults) && c.state != e.state
    && if c.stateId == None && c.state == ""
       then e.responseFaults.statementsSucceed && !StageKnown(w.sessions, e.responseFaults.newId)
       else Outcomes.Commits(w, c, e.responseFaults)
  }

  /** The stage the connection moves on from is the current one, and the phrase another; or there is none so far. */
  predicate MovesOn(s: Session, c: Conn, state: string) {
    if c.stateId == None && c.state == "" then s.stages == []
    else s.current.Some? && c.stateId == Some(s.current.value.0) && s.current.value.1 != state
  }

  /**
   A second connection of a session with a live one is set up; or a closing connection commits a stage change while its
   session has a live connection or is in another stage.
   */
  ghost predicate Breaks(w: World, e: Event) {
    if e.Connecting? then
      e.cid !in w.clients && e.sid in w.shared.sessions && Outcomes.SetUp(w, e, e.sid) && HasLive(w, e.sid)
    else
      && OnConnection(e) && e.cid in w.clients && w.clients[e.cid].disconnecting
      && var c := w.clients[e.cid];
         && Moves(w.shared, c, e)
         && (HasLive(w, c.sessionId) || !MovesOn(w.shared.sessions[c.sessionId], c, e.state))
  }

  // ---------------------------------------------------------------- rows that stay

  /** Stages and current pairs of all sessions are the same. */
  ghost predicate SameStages(a: map<int, Session>, b: map<int, Session>) {
    && a.Keys == b.Keys
    && forall sid :: sid in a ==> b[sid].stages == a[sid].stages && b[sid].current == a[sid].current
  }

  lemma SameStagesKeep(a: map<int, Session>, b: map<int, Session>)
    requires SameStages(a, b)
    ensures Sound(a) <==> Sound(b)
    ensures forall c, sid :: sid in a ==> (Agrees(c, a[sid]) <==> Agrees(c, b[sid]))
  {
    forall sid | sid in a ensures Ledger(a[sid]) <==> Ledger(b[sid]) {
    }
    hide Ledger;
  }

  /** What a handler on a closing connection leaves when it does not move on. */
  lemma StaysPut(w: Shared, c: Conn, e: Event)
    requires OnConnection(e) && c.disconnecting && !Moves(w, c, e)
    ensures SameStages(w.sessions, Handle(w, c, e).0.sessions)
  {
    Outcomes.HandlerOutcome(w, c, e);
    WrittenPut(w, c, e);
    hide Handle, Outcomes.Written, Outcomes.Fails;
  }

  lemma WrittenPut(w: Shared, c: Conn, e: Event)
    requires OnConnection(e) && !Moves(w, c, e)
    ensures SameStages(w.sessions, Outcomes.Written(w, c, e).sessions)
  {
    if e.Response? {
      ResponsePut(w, c, e);
      hide Outcomes.ResponseWritten;
    } else {
      hide TurnKnown;
    }
  }

  lemma ResponsePut(w: Shared, c: Conn, e: Event)
    requires e.Response? && !Moves(w, c, e)
    ensures SameStages(w.sessions, Outcomes.ResponseWritten(w, c, e.sid, e.state, e.responseFaults).sessions)
  {
    var o := e.responseFaults;
    var (told, stored) := StoreTurn(w, c.sessionId, o.turnId, e.state, o.stored);
    assert Outcomes.Unrecorded(w, c, e.sid, o) <==> c.sessionId != e.sid || !stored || !o.recorded;
    assert SameStages(w.sessions, told.sessions);
    if c.sessionId == e.sid && stored && o.recorded && c.state != e.state {
      Outcomes.FirstFails(w, told, c, e.state, o);
      Outcomes.NewestIsOwn(w, told, c, e.state, o);
      var last := LastTurn(told, c, e.state, o.looked);
      if c.stateId.Some? && last.Some? {
        NotCommitted(w, told, c, e.state, o);
      }
      hide Outcomes.Commits, UpdateStage, LastTurn, StageKnown, TurnKnown, AddStage, StoreTurn, SameStages,
        Outcomes.Unrecorded;
    }
  }

  lemma NotCommitted(w: Shared, told: Shared, c: Conn, state: string, o: ResponseFaults)
    requires StoreTurn(w, c.sessionId, o.turnId, state, o.stored) == (told, true)
    requires c.stateId.Some? && LastTurn(told, c, state, o.looked).Some?
    ensures var turn := LastTurn(told, c, state, o.looked).value;
      var tx := NextStageTx(told, c.sessionId, c.stateId.value, turn, o.newId, state, o.statementsSucceed);
      && (tx.1 <==> Outcomes.Commits(w, c, o))
      && (!tx.1 ==> UpdateStage(told, c, turn, state, o) == (told, false))
  {
    Outcomes.NewestIsOwn(w, told, c, state, o);
    Outcomes.TurnIsNew(w, c.sessionId, o.turnId, state, LastTurn(told, c, state, o.looked).value);
    hide LastTurn, TurnKnown, StageKnown, EndStageRow, AddStage, AddTurn;
  }

  // ---------------------------------------------------------------- a closing connection moves on

  /** What a committed stage change makes of the session. */
  function MovedRow(s: Session, c: Conn, state: string, o: ResponseFaults): Session {
    var told := AddTurn(s, o.turnId, state);
    if c.stateId.None? then AddStage(told, o.newId, state)
    else
      NextStage(told, c.stateId.value, if c.lastTurn.Some? then c.lastTurn.value else o.turnId, o.newId, state)
  }

  lemma MoveFirst(w: Shared, c: Conn, e: Event)
    requires Moves(w, c, e) && c.stateId == None && c.state == "" && c.disconnecting
    ensures c.sessionId in w.sessions
    ensures Handle(w, c, e).0.sessions
         == w.sessions[c.sessionId := MovedRow(w.sessions[c.sessionId], c, e.state, e.responseFaults)]
  {
    var o := e.responseFaults;
    var (told, stored) := StoreTurn(w, c.sessionId, o.turnId, e.state, o.stored);
    assert stored;
    Outcomes.FirstFails(w, told, c, e.state, o);
    assert told.sessions[c.sessionId := AddStage(AddTurn(w.sessions[c.sessionId], o.turnId, e.state), o.newId, e.state)]
        == w.sessions[c.sessionId := AddStage(AddTurn(w.sessions[c.sessionId], o.turnId, e.state), o.newId, e.state)];
    hide StageKnown, TurnKnown, AddStage, AddTurn;
  }

  lemma MoveNext(w: Shared, c: Conn, e: Event)
    requires Moves(w, c, e) && c.stateId.Some? && c.disconnecting && Copied(w, c) && Sound(w.sessions)
    ensures Handle(w, c, e).0.sessions
         == w.sessions[c.sessionId := MovedRow(w.sessions[c.sessionId], c, e.state, e.responseFaults)]
  {
    var o, sid := e.responseFaults, c.sessionId;
    var (told, stored) := StoreTurn(w, sid, o.turnId, e.state, o.stored);
    assert stored;
    Outcomes.NewestIsOwn(w, told, c, e.state, o);
    var turn := LastTurn(told, c, e.state, o.looked).value;
    NotCommitted(w, told, c, e.state, o);
    StoreTurnKeeps(w, c, o.turnId, e.state, o.stored);
    EndRowTouches(told.sessions, sid, c.stateId.value, turn);
    var row := MovedRow(w.sessions[sid], c, e.state, o);
    hide Sound, Agrees, Moves, StageKnown, TurnKnown, EndStages, EndStageRow, StoreTurn, LastTurn, Outcomes.Commits;
    assert NextStageTx(told, sid, c.stateId.value, turn, o.newId, e.state, o.statementsSucceed).0.sessions
        == told.sessions[sid := row];
    assert told.sessions[sid := row] == w.sessions[sid := row];
    MovedByUpdate(w, told, c, e, turn);
  }

  /** A closing connection leaves what its stage change has committed, with the cache write done or not. */
  lemma MovedByUpdate(w: Shared, told: Shared, c: Conn, e: Event, turn: int)
    requires e.Response? && c.stateId.Some? && c.disconnecting && c.sessionId == e.sid && c.state != e.state
    requires StoreTurn(w, c.sessionId, e.responseFaults.turnId, e.state, e.responseFaults.stored) == (told, true)
    requires e.responseFaults.recorded && LastTurn(told, c, e.state, e.responseFaults.looked) == Some(turn)
    ensures var o := e.responseFaults;
      Handle(w, c, e).0.sessions
        == NextStageTx(told, c.sessionId, c.stateId.value, turn, o.newId, e.state, o.statementsSucceed).0.sessions
  {
    hide StoreTurn, LastTurn, NextStageTx, StageKnown;
  }

  lemma MovedRowIs(w: Shared, c: Conn, e: Event)
    requires Moves(w, c, e) && Copied(w, c) && Sound(w.sessions)
    ensures c.sessionId in w.sessions
    ensures var s, id := w.sessions[c.sessionId], e.responseFaults.newId;
      var r := MovedRow(s, c, e.state, e.responseFaults);
      && r.current == Some((id, e.state)) && !StageKnown(w.sessions, id)
      && (Ledger(r) <==> MovesOn(s, c, e.state))
      && forall k :: HasStage(r.stages, k) <==> k == id || HasStage(s.stages, k)
  {
    var s, o := w.sessions[c.sessionId], e.responseFaults;
    var told := AddTurn(s, o.turnId, e.state);
    assert Ledger(s) && Ledger(told);
    assert !HasStage(told.stages, o.newId);
    if c.stateId.None? {
      FirstStageLedger(told, o.newId, e.state);
      AddedIds(told, o.newId, e.state);
    } else {
      var turn := if c.lastTurn.Some? then c.lastTurn.value else o.turnId;
      NextStageLedger(told, c.stateId.value, turn, o.newId, e.state);
      NextIds(told, c.stateId.value, turn, o.newId, e.state);
    }
    hide Ledger, HasStage, StageKnown, TurnKnown;
  }

  /** With a live connection the change breaks its agreement; without one the ledgers stay exactly when it moves on. */
  lemma MoveSound(w: Shared, c: Conn, e: Event)
    requires Moves(w, c, e) && Copied(w, c) && Sound(w.sessions) && c.disconnecting
    ensures c.sessionId in w.sessions
    ensures var after, sid := Handle(w, c, e).0.sessions, c.sessionId;
      && OnlyIn(w.sessions, after, sid)
      && (Sound(after) <==> MovesOn(w.sessions[sid], c, e.state))
      && (forall d :: Agrees(d, w.sessions[sid]) ==> !Agrees(d, after[sid]))
      && forall k ::
        HasStage(w.sessions[sid].stages, k) || k == e.responseFaults.newId ==> HasStage(after[sid].stages, k)
  {
    var s, sid := w.sessions[c.sessionId], c.sessionId;
    var r := MovedRow(s, c, e.state, e.responseFaults);
    MovedRowIs(w, c, e);
    if c.stateId.None? {
      MoveFirst(w, c, e);
    } else {
      MoveNext(w, c, e);
    }
    SoundIff(w.sessions, sid, r);
    Disagrees(w.sessions, sid, r);
    hide Handle, Moves, MovedRow, Ledger, HasStage, Sound, Agrees, MovesOn, Copied;
  }

  lemma SoundIff(sessions: map<int, Session>, sid: int, r: Session)
    requires Sound(sessions) && sid in sessions
    requires forall id :: HasStage(r.stages, id) ==> HasStage(sessions[sid].stages, id) || !StageKnown(sessions, id)
    ensures Sound(sessions[sid := r]) <==> Ledger(r)
  {
    if Ledger(r) {
      ReplaceSession(sessions, sid, r);
    } else {
      assert sid in sessions[sid := r];
    }
    hide Ledger, HasStage;
  }

  lemma Disagrees(sessions: map<int, Session>, sid: int, r: Session)
    requires Sound(sessions) && sid in sessions && r.current.Some? && !StageKnown(sessions, r.current.value.0)
    ensures forall d :: Agrees(d, sessions[sid]) ==> !Agrees(d, r)
  {
    var s := sessions[sid];
    assert Ledger(s);
    if s.current.Some? {
      assert LastOf(s.stages) in s.stages;
      assert HasStage(s.stages, s.current.value.0);
    }
  }

  // ---------------------------------------------------------------- the step theorem

  lemma CopyStays(w: World, e: Event, c: Conn)
    requires Copied(w.shared, c)
    ensures Copied(Step(w, e).shared, c)
  {
    if c.stateId.Some? {
      var sid := c.sessionId;
      EvaluationRuns.StepGrows(w, e, sid);
      var a, b := w.shared.sessions[sid], Step(w, e).shared.sessions[sid];
      hide Step;
      var i :| 0 <= i < |a.stages| && a.stages[i].id == c.stateId.value;
      assert EvaluationRuns.SameStage(a.stages[i], b.stages[i]);
      assert b.stages[i] in b.stages;
    }
  }

  lemma HandledCopy(w: World, e: Event)
    requires OnConnection(e) && e.cid in w.clients && Copied(w.shared, w.clients[e.cid])
    ensures var (w1, c1) := Handle(w.shared, w.clients[e.cid], e); Copied(w1, c1)
  {
    var c := w.clients[e.cid];
    var (w1, c1) := Handle(w.shared, c, e);
    CopyStays(w, e, c);
    assert Step(w, e).shared == w1;
    NewCopy(w.shared, c, e);
    hide Step, Handle, HasStage;
  }

  /** The copy a connection has after a change: the one before, or one of a stage that is there. */
  ghost predicate CopyFrom(c: Conn, w1: Shared, c1: Conn) {
    && c1.sessionId == c.sessionId
    && ((c1.stateId == c.stateId && c1.state == c.state)
        || (c1.stateId.Some? && c.sessionId in w1.sessions
            && HasStage(w1.sessions[c.sessionId].stages, c1.stateId.value)))
  }

  lemma DisconnectCopy(w: Shared, c: Conn, status: Option<Status>, h: Hangup)
    ensures var (w1, c1) := Disconnect(w, c, status, h);
      c1.sessionId == c.sessionId && c1.stateId == c.stateId && c1.state == c.state
  {
  }

  lemma NewCopy(w: Shared, c: Conn, e: Event)
    requires OnConnection(e)
    ensures var (w1, c1) := Handle(w, c, e); CopyFrom(c, w1, c1)
  {
    hide Disconnect, WriteStatus, HasStage;
    match e
    case Response(_, sid, state, o) => ResponseCopy(w, c, sid, state, o); hide Respond;
    case Transcript(_, sid, turn, o) => TranscriptCopy(w, c, sid, turn, o); hide RecordTranscript;
    case MonitorFires(_, written, h) => TimeoutCopy(w, c, written, h); hide Timeout;
    case AgentCompleted(_, _, _, h) => DisconnectCopy(w, c, None, h);
    case UserEnds(_, _, _, h) => DisconnectCopy(w, c, None, h);
    case UserCompletes(_, _, _, h) => DisconnectCopy(w, c, None, h);
    case Drops(_, timedOut, h) => DisconnectCopy(w, c, if timedOut then Some(TimedOut) else None, h);
  }

  lemma ResponseCopy(w: Shared, c: Conn, sid: int, state: string, o: ResponseFaults)
    ensures var (w1, c1) := Respond(w, c, sid, state, o); CopyFrom(c, w1, c1)
  {
    var told := StoreTurn(w, c.sessionId, o.turnId, state, o.stored).0;
    DisconnectCopy(w, c, None, o.hangup);
    DisconnectCopy(told, c, None, o.hangup);
    ChangedCopy(told, c, state, o);
    hide ChangeStage, StoreTurn, Disconnect, HasStage;
  }

  lemma TranscriptCopy(w: Shared, c: Conn, sid: int, turn: Option<int>, o: TranscriptFaults)
    ensures var (w1, c1) := RecordTranscript(w, c, sid, turn, o); CopyFrom(c, w1, c1)
  {
    DisconnectCopy(w, c, None, o.hangup);
    if o.message.Some? {
      DisconnectCopy(SaveTranscript(w, c, turn, o).0, c.(lastTurn := turn), None, o.hangup);
    }
    hide SaveTranscript, Disconnect, HasStage;
  }

  lemma TimeoutCopy(w: Shared, c: Conn, written: bool, h: Hangup)
    ensures var (w1, c1) := Timeout(w, c, written, h); CopyFrom(c, w1, c1)
  {
    DisconnectCopy(w.(sessions := if written then WriteStatus(w.sessions, c.sessionId, TimedOut) else w.sessions),
                   c, Some(TimedOut), h);
    hide WriteStatus, Disconnect, HasStage;
  }

  lemma NewStageIsThere(w: Shared, sid: int, id: int, phrase: string)
    requires sid in w.sessions
    ensures HasStage(AddStage(w.sessions[sid], id, phrase).stages, id)
  {
    assert Stage(id, phrase, false, None, false) in AddStage(w.sessions[sid], id, phrase).stages;
  }

  lemma ChangedCopy(w: Shared, c: Conn, state: string, o: ResponseFaults)
    ensures var (w1, c1) := ChangeStage(w, c, state, o); CopyFrom(c, w1, c1)
  {
    if c.stateId == None && c.state == "" {
      DisconnectCopy(FirstStageTx(w, c.sessionId, o.newId, state, o.statementsSucceed).0, c, None, o.hangup);
      if c.sessionId in w.sessions {
        NewStageIsThere(w, c.sessionId, o.newId, state);
      }
      hide Disconnect, StageKnown, AddStage, HasStage;
    } else {
      var lastTurn := LastTurn(w, c, state, o.looked);
      DisconnectCopy(w, c, None, o.hangup);
      if lastTurn.Some? && c.stateId.Some? {
        UpdatedCopy(w, c, lastTurn.value, state, o);
        DisconnectCopy(UpdateStage(w, c, lastTurn.value, state, o).0, c, None, o.hangup);
      }
      hide Disconnect, UpdateStage, LastTurn, HasStage;
    }
  }

  lemma UpdatedCopy(w: Shared, c: Conn, turn: int, state: string, o: ResponseFaults)
    requires c.stateId.Some?
    ensures var (next, ok) := UpdateStage(w, c, turn, state, o);
      ok ==> c.sessionId in next.sessions && HasStage(next.sessions[c.sessionId].stages, o.newId)
  {
    if c.sessionId in w.sessions {
      var ended := w.(sessions := EndStageRow(w.sessions, c.stateId.value, turn));
      NewStageIsThere(ended, c.sessionId, o.newId, state);
    }
    hide StageKnown, TurnKnown, AddStage, HasStage, EndStages;
  }

  lemma ConnectCopy(w: Shared, cid: int, sid: int, o: ConnectFaults)
    requires Sound(w.sessions)
    ensures var (w1, c1) := Connect(w, cid, sid, o); Copied(w1, c1)
  {
    var (w1, c1) := Connect(w, cid, sid, o);
    ConnectLoads(w, cid, sid, o);
    assert Copied(w, c1) by {
      if c1.stateId.Some? {
        assert Ledger(w.sessions[sid]);
        assert LastOf(w.sessions[sid].stages) in w.sessions[sid].stages;
      }
    }
    assert Step(World(w, map[]), Connecting(cid, sid, o)).shared == w1;
    hide Step, Connect;
    CopyStays(World(w, map[]), Connecting(cid, sid, o), c1);
  }

  lemma ConnectLoads(w: Shared, cid: int, sid: int, o: ConnectFaults)
    ensures var (w1, c1) := Connect(w, cid, sid, o);
      && c1.sessionId == sid
      && ((c1.stateId == None && c1.state == "")
          || (&& sid in w.sessions && w.sessions[sid].current.Some?
              && c1.stateId == Some(w.sessions[sid].current.value.0)))
  {
    hide EndIn;
  }

  /** Copies stay right in every step, orderly or not. */
  lemma StepCopies(w: World, e: Event)
    requires Inv(w) && Copies(w)
    ensures Copies(Step(w, e))
  {
    forall cid | cid in w.clients ensures Copied(Step(w, e).shared, w.clients[cid]) {
      CopyStays(w, e, w.clients[cid]);
    }
    if e.Connecting? && e.cid !in w.clients {
      ConnectCopy(w.shared, e.cid, e.sid, e.connectFaults);
    } else if OnConnection(e) && e.cid in w.clients {
      HandledCopy(w, e);
    }
    hide Connect, Handle, RunTask, ScoreTurn, Copied, Inv;
  }

  /** A step of a closing connection that does not move on leaves the invariant. */
  lemma ClosingStays(w: World, e: Event)
    requires Inv(w) && OnConnection(e) && e.cid in w.clients && w.clients[e.cid].disconnecting
    requires !Moves(w.shared, w.clients[e.cid], e)
    ensures Inv(Step(w, e))
  {
    var c := w.clients[e.cid];
    var (w1, c1) := Handle(w.shared, c, e);
    StaysPut(w.shared, c, e);
    SameStagesKeep(w.shared.sessions, w1.sessions);
    Outcomes.HandlerOutcome(w.shared, c, e);
    hide Handle, Moves, Sound, Agrees, Outcomes.Fails, Outcomes.Written;
    forall cid | Live(Step(w, e), cid) ensures Live(w, cid) && Step(w, e).clients[cid] == w.clients[cid] {
    }
  }

  /** One that does breaks it exactly when its session has a live connection or is in another stage. */
  lemma ClosingMoves(w: World, e: Event)
    requires Whole(w) && OnConnection(e) && e.cid in w.clients && w.clients[e.cid].disconnecting
    requires Moves(w.shared, w.clients[e.cid], e)
    ensures Inv(Step(w, e)) <==> !Breaks(w, e)
  {
    var c := w.clients[e.cid];
    var (w1, c1) := Handle(w.shared, c, e);
    MoveSound(w.shared, c, e);
    Outcomes.HandlerOutcome(w.shared, c, e);
    hide Handle, Moves, Sound, Agrees, MovesOn, Outcomes.Fails, Outcomes.Written, HasStage;
    var after := Step(w, e);
    forall cid ensures Live(after, cid) <==> Live(w, cid) {
    }
    if HasLive(w, c.sessionId) {
      var cid :| Live(w, cid) && w.clients[cid].sessionId == c.sessionId;
      assert Live(after, cid) && after.clients[cid] == w.clients[cid];
    } else {
      forall cid | Live(after, cid)
        ensures after.clients[cid].sessionId in w1.sessions
        ensures Agrees(after.clients[cid], w1.sessions[after.clients[cid].sessionId])
      {
        assert after.clients[cid] == w.clients[cid] && w.clients[cid].sessionId != c.sessionId;
      }
    }
  }

  lemma ConnectCurrent(w: Shared, cid: int, sid: int, o: ConnectFaults)
    requires Sound(w.sessions)
    ensures var w1 := Connect(w, cid, sid, o).0;
      && Sound(w1.sessions) && w1.sessions.Keys == w.sessions.Keys
      && forall t :: t in w.sessions ==> w1.sessions[t].current == w.sessions[t].current
  {
    ConnectKeeps(w, cid, sid, o);
    if sid in w.sessions {
      var s, f := w.sessions[sid], o.hangup.fallback;
      Finalization.EndKeeps(s, Cancelled, f);
      Finalization.EndKeeps(s, s.status, f);
      Finalization.EndKeeps(s.(finalize := Ongoing), Cancelled, f);
    }
    hide End, Sound, Agrees;
  }

  /** A setup beside a live connection breaks the invariant exactly when it succeeds. */
  lemma SecondConnection(w: World, e: Event)
    requires Inv(w) && e.Connecting? && e.cid !in w.clients && HasLive(w, e.sid)
    ensures Inv(Step(w, e)) <==> !Breaks(w, e)
  {
    var after := Step(w, e);
    var c1 := Connect(w.shared, e.cid, e.sid, e.connectFaults).1;
    ConnectCurrent(w.shared, e.cid, e.sid, e.connectFaults);
    SessionFates.ConnectCloses(w.shared, e.cid, e.sid, e.connectFaults);
    var cid :| Live(w, cid) && w.clients[cid].sessionId == e.sid;
    assert after.clients == w.clients[e.cid := c1];
    assert c1.disconnecting <==> !Breaks(w, e);
    hide Connect, Sound, Breaks, Step;
    if c1.disconnecting {
      forall d ensures Live(after, d) <==> Live(w, d) {
      }
    } else {
      assert Live(after, cid) && Live(after, e.cid);
    }
  }

  /** From a whole world, a step leaves a whole world exactly when it is not one that breaks the ledger. */
  lemma WholeStep(w: World, e: Event)
    requires Whole(w)
    ensures Whole(Step(w, e)) <==> !Breaks(w, e)
  {
    StepCopies(w, e);
    hide Moves, MovesOn, Copied;
    if e.Connecting? && e.cid !in w.clients && HasLive(w, e.sid) {
      SecondConnection(w, e);
    } else if OnConnection(e) && e.cid in w.clients && w.clients[e.cid].disconnecting {
      if Moves(w.shared, w.clients[e.cid], e) {
        ClosingMoves(w, e);
      } else {
        ClosingStays(w, e);
      }
    } else if (OnConnection(e) && e.cid !in w.clients) || (e.Connecting? && e.cid in w.clients) {
      assert Step(w, e) == w;
    } else {
      StepKeeps(w, e);
    }
  }

  /** An orderly step never breaks the ledger. */
  lemma OrderlyDoesNotBreak(w: World, e: Event)
    requires Orderly(w, e)
    ensures !Breaks(w, e)
  {
    hide Moves, MovesOn;
  }

  ghost predicate NeverBroken(w: World, events: seq<Event>) {
    events == [] ||
    (var n := |events| - 1; NeverBroken(w, events[..n]) && !Breaks(After(w, events[..n]), events[n]))
  }

  ghost predicate WholeThroughout(w: World, events: seq<Event>) {
    Whole(After(w, events)) && (events != [] ==> WholeThroughout(w, events[..|events| - 1]))
  }

  /** Over every run, orderly or not, the ledger stays right throughout exactly when no step breaks it. */
  lemma {:induction false} WholeRun(w: World, events: seq<Event>)
    requires Whole(w)
    ensures WholeThroughout(w, events) <==> NeverBroken(w, events)
  {
    hide Step, Breaks, Whole;
    if events != [] {
      var n := |events| - 1;
      WholeRun(w, events[..n]);
      if Whole(After(w, events[..n])) {
        WholeStep(After(w, events[..n]), events[n]);
      }
    }
  }

  lemma WholeAtStart(sessions: map<int, Session>)
    requires forall sid :: sid in sessions ==> sessions[sid].stages == [] && sessions[sid].current == None
    ensures Whole(World(Shared(sessions, multiset{}, multiset{}, {}, map[]), map[]))
  {
    InvAtStart(sessions);
    hide Inv;
  }
}
