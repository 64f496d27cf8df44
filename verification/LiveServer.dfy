/**
 The server's objects and the methods that change them. Every method has the effect of its step of the live session;
 its contract says what that means to a caller: for the connection, the rows, the queue, and the invariants of runs.
 */
module LiveServer {
  import opened Prelude
  import opened SessionStatus
  import opened SessionRecords
  import opened Evaluation
  import opened LiveSession
  import opened SessionRuns
  import Finalization
  import HandOff
  import Provenance
  import StageLedger

  // ---------------------------------------------------------------- what every handler keeps

  /** On a live connection that agrees with its session: the stage ledgers and the agreement stay. */
  ghost predicate KeepsLedger(w: Shared, c: Conn, w1: Shared, c1: Conn) {
    LiveInAgreement(w, c) ==> StageLedger.Keeps(w, c, w1, c1)
  }

  ghost predicate LiveInAgreement(w: Shared, c: Conn) {
    && StageLedger.Sound(w.sessions) && !c.disconnecting
    && c.sessionId in w.sessions && StageLedger.Agrees(c, w.sessions[c.sessionId])
  }

  /** Nothing says that a session is completed that did not say so before. */
  ghost predicate CompletesNothing(w: Shared, w1: Shared) {
    forall sid :: Provenance.SharedCompleted(w1, sid) ==> Provenance.SharedCompleted(w, sid)
  }

  lemma HandlerFacts(w: Shared, c: Conn, e: Event)
    requires OnConnection(e)
    ensures var (w1, c1) := Handle(w, c, e);
      KeepsLedger(w, c, w1, c1) && HandOff.Moves(w.handOffs, c, w1.handOffs, c1)
  {
    HandOff.HandlerMoves(w, c, e);
    if LiveInAgreement(w, c) {
      StageLedger.HandlerKeeps(w, c, e);
    }
    hide Handle, StageLedger.Sound, StageLedger.Agrees, StageLedger.Keeps, HandOff.Moves;
  }

  lemma DisconnectCompletesNothing(w: Shared, c: Conn, h: Hangup)
    ensures CompletesNothing(w, Disconnect(w, c, None, h).0)
    ensures CompletesNothing(w, w)
  {
    forall sid | Provenance.SharedCompleted(Disconnect(w, c, None, h).0, sid)
      ensures Provenance.SharedCompleted(w, sid)
    {
      Provenance.DisconnectCompletes(w, c, None, h, sid);
    }
  }

  lemma TranscriptCompletesNothing(w: Shared, c: Conn, sid: int, turn: Option<int>, o: TranscriptFaults)
    ensures CompletesNothing(w, RecordTranscript(w, c, sid, turn, o).0)
  {
    forall t | Provenance.SharedCompleted(RecordTranscript(w, c, sid, turn, o).0, t)
      ensures Provenance.SharedCompleted(w, t)
    {
      Provenance.TranscriptCompletes(w, c, sid, turn, o, t);
    }
  }

  lemma EndedByUserCompletesNothing(w: Shared, c: Conn, sid: int, published: bool, h: Hangup)
    ensures CompletesNothing(w, UpdateInterviewSession(w, c, sid, Cancelled, published, h).0)
  {
    DisconnectCompletesNothing(w, c, h);
    hide Disconnect;
  }

  /** A new stage of a session comes last, open and current, and was not there before. */
  predicate StartsStage(before: map<int, Session>, after: map<int, Session>, sid: int, id: int, phrase: string) {
    && !StageKnown(before, id) && after.Keys == before.Keys && sid in after
    && after[sid].stages != [] && StageLedger.LastOf(after[sid].stages) == Stage(id, phrase, false, None, false)
    && |after[sid].stages| == |before[sid].stages| + 1 && after[sid].current == Some((id, phrase))
  }

  /** Of the stages there were, the one with the id has ended with this last turn; the others are as they were. */
  predicate EndsStage(before: Session, after: Session, id: int, lastTurn: int) {
    && |before.stages| <= |after.stages|
    && forall i :: 0 <= i < |before.stages| ==>
      after.stages[i] ==
        if before.stages[i].id == id then before.stages[i].(ended := true, lastTurn := Some(lastTurn))
        else before.stages[i]
  }

  /** Row and connection are in the new stage; or the connection is closed and its copy left as it was. */
  predicate MovedOrClosed(c: Conn, w1: Shared, c1: Conn, state: string, id: int) {
    if c1.disconnecting then c1.state == c.state && c1.stateId == c.stateId
    else
      && c1.state == state && c1.stateId == Some(id)
      && c.sessionId in w1.sessions && w1.sessions[c.sessionId].current == Some((id, state))
  }

  lemma ConnectFacts(w: Shared, cid: int, sid: int, o: ConnectFaults)
    ensures var (w1, c1) := Connect(w, cid, sid, o);
      && (StageLedger.Sound(w.sessions) ==> StageLedger.Keeps(w, FreshConn(cid, sid), w1, c1))
      && w1.handOffs == w.handOffs + if c1.disconnecting && !c1.finalized then multiset{cid} else multiset{}
  {
    HandOff.ConnectMoves(w, cid, sid, o);
    if StageLedger.Sound(w.sessions) {
      StageLedger.ConnectKeeps(w, cid, sid, o);
    }
    hide Connect, StageLedger.Sound, StageLedger.Keeps;
  }

  /** An open connection that handled a response is in the stage it names, and the session row says the same. */
  lemma ResponseFacts(w: Shared, c: Conn, sid: int, state: string, o: ResponseFaults)
    requires !c.disconnecting
    ensures var (w1, c1) := Respond(w, c, sid, state, o);
      && (!c1.disconnecting ==> c1.state == state && sid == c.sessionId)
      && (c1.state == c.state || !c1.disconnecting)
      && (!c1.disconnecting && c.state != state ==>
           sid in w1.sessions && c1.stateId.Some? && w1.sessions[sid].current == Some((c1.stateId.value, state)))
  {
    hide ChangeStage, StoreTurn, EndIn;
    var told := StoreTurn(w, sid, o.turnId, state, o.stored).0;
    ChangeFacts(told, c, state, o);
  }

  /** A new turn of the session is stored under the phrase, and it is the last one. */
  predicate TurnTold(before: map<int, Session>, after: map<int, Session>, sid: int, id: int, phrase: string) {
    && !TurnKnown(before, id) && sid in before && sid in after
    && after[sid].turns == before[sid].turns + [Turn(id, phrase)]
  }

  /** An open connection that handled a response has stored its turn. */
  lemma ResponseTells(w: Shared, c: Conn, sid: int, state: string, o: ResponseFaults)
    requires !c.disconnecting
    ensures var (w1, c1) := Respond(w, c, sid, state, o);
      !c1.disconnecting ==> TurnTold(w.sessions, w1.sessions, sid, o.turnId, state)
  {
    var told := StoreTurn(w, c.sessionId, o.turnId, state, o.stored).0;
    ChangeKeepsTurns(told, c, state, o);
    hide ChangeStage, TurnKnown, EndIn;
  }

  lemma ChangeKeepsTurns(w: Shared, c: Conn, state: string, o: ResponseFaults)
    requires !c.disconnecting
    ensures var (w1, c1) := ChangeStage(w, c, state, o);
      !c1.disconnecting ==>
        c.sessionId in w.sessions && c.sessionId in w1.sessions
        && w1.sessions[c.sessionId].turns == w.sessions[c.sessionId].turns
  {
    hide StageKnown, TurnKnown, LastTurn, EndIn, EndStages;
  }

  lemma ChangeFacts(w: Shared, c: Conn, state: string, o: ResponseFaults)
    requires !c.disconnecting
    ensures var (w1, c1) := ChangeStage(w, c, state, o); MovedOrClosed(c, w1, c1, state, o.newId)
  {
    hide StageKnown, EndStageRow, EndIn, TurnKnown, LastTurn;
  }

  lemma TranscriptFacts(w: Shared, c: Conn, sid: int, turn: Option<int>, o: TranscriptFaults)
    ensures var (w1, c1) := RecordTranscript(w, c, sid, turn, o);
      && (!c.disconnecting && !c1.disconnecting ==> c1.lastTurn == turn && TurnPublished(w, c, w1, turn))
      && c1.state == c.state && c1.stateId == c.stateId
  {
    hide EndIn, TurnKnown;
  }

  /** A transcript handled on an open connection: its turn is stored last and published for scoring. */
  predicate TurnPublished(w: Shared, c: Conn, w1: Shared, turn: Option<int>) {
    && turn.Some? && c.sessionId in w1.sessions
    && w1.scoring == w.scoring + {ScoreTask(c.sessionId, turn.value, c.state, c.stateId)}
    && w1.sessions[c.sessionId].turns != [] && !TurnKnown(w.sessions, turn.value)
    && w1.sessions[c.sessionId].turns[|w1.sessions[c.sessionId].turns| - 1].id == turn.value
    && w1.queue == w.queue && w1.handOffs == w.handOffs && w1.lastTurns == w.lastTurns
  }

  /**
   A connection that closes unfinished is logged once more, and its end is queued or, when that fails, carried out at
   once; otherwise rows, queue and log stay.
   */
  predicate HandsOffOnce(w: Shared, c: Conn, w1: Shared, status: Option<Status>, h: Hangup) {
    var end := Task(c.sessionId, if status.Some? then status.value else Cancelled);
    if c.disconnecting || c.finalized then w1 == w
    else
      && w1.handOffs == w.handOffs + multiset{c.id}
      && if h.published then w1.sessions == w.sessions && w1.queue == w.queue + multiset{end}
         else w1.queue == w.queue && w1.sessions == EndIn(w.sessions, c.sessionId, end.status, h.fallback)
  }

  /** A finalized row says nothing about how its session got there; a faultless task does. */
  ghost predicate TaskSucceeds(w: Shared, t: Task, finalizingWrite: bool, e: EndFaults) {
    && t in w.queue && finalizingWrite && t.sessionId in w.sessions
    && Finalization.SessionWritten(w.sessions[t.sessionId].(finalize := Finalizing), e)
    && Finalization.Faultless(w.sessions[t.sessionId].(finalize := Finalizing), e.faults)
  }

  lemma TaskFacts(w: Shared, t: Task, finalizingWrite: bool, e: EndFaults, again: bool)
    ensures var w1 := RunTask(w, t, finalizingWrite, e, again);
      && w1.handOffs == w.handOffs
      && (StageLedger.Sound(w.sessions) ==> StageLedger.Sound(w1.sessions))
      && (TaskSucceeds(w, t, finalizingWrite, e) ==>
           t.sessionId in w1.sessions && w1.sessions[t.sessionId].status == t.status
           && w1.sessions[t.sessionId].finalize == Finalized)
  {
    var world, event := World(w, map[]), TaskRuns(t, finalizingWrite, e, again);
    if StageLedger.Sound(w.sessions) {
      StageLedger.WorkerKeeps(world, event);
    }
    HandOff.WorkersDoNotHandOff(world, event);
    assert Step(world, event).shared == RunTask(w, t, finalizingWrite, e, again);
    if TaskSucceeds(w, t, finalizingWrite, e) {
      HandOff.TaskFinalizes(w, t, e, again);
    }
    hide RunTask, Step, StageLedger.Sound, Finalization.SessionWritten, Finalization.Faultless;
  }

  /** The cache names the turn as the last of its stage, which exists and has scored turns, and evaluating it works. */
  ghost predicate StageDue(w: Shared, t: ScoreTask, o: ScoreFaults)
    requires t.sessionId in w.sessions
  {
    var s, key := w.sessions[t.sessionId], (t.sessionId, t.phrase);
    && o.flagged && o.keyRead && !o.expired && key in w.lastTurns && w.lastTurns[key] == t.turn
    && t.stageId.Some? && (exists i :: 0 <= i < |s.stages| && s.stages[i].id == t.stageId.value)
    && o.calculation == Completes
    && (o.criterionScores > 0
        || exists i :: 0 <= i < |s.turnEvaluations| && s.turnEvaluations[i].phrase == t.phrase
                       && s.turnEvaluations[i].criterionScores > 0)
  }

  /**
   A published turn not evaluated before gets its evaluation, its stage one more if it is due, and the cached turn goes
   once it was looked at; in all other cases nothing changes.
   */
  ghost predicate ScoredRight(w: Shared, w1: Shared, t: ScoreTask, o: ScoreFaults) {
    var key := (t.sessionId, t.phrase);
    if
      && t in w.scoring && o.scored && t.sessionId in w.sessions
      && forall i :: 0 <= i < |w.sessions[t.sessionId].turnEvaluations| ==>
        w.sessions[t.sessionId].turnEvaluations[i].turn != t.turn
    then
      && t.sessionId in w1.sessions
      && var s, r := w.sessions[t.sessionId], w1.sessions[t.sessionId];
         && r.turnEvaluations
              == s.turnEvaluations + [TurnEvaluation(t.turn, t.phrase, o.criterionScores, o.overallScore)]
         && r.phraseEvaluations
              == s.phraseEvaluations + (if StageDue(w, t, o) then [PhraseEvaluation(t.stageId.value, t.phrase)] else [])
         && w1 == w.(sessions := w1.sessions,
                     lastTurns := if o.flagged && o.keyRead && (o.deleted || o.expired) then w.lastTurns - {key}
                                  else w.lastTurns)
    else w1 == w
  }

  lemma ScoreIsRight(w: Shared, t: ScoreTask, o: ScoreFaults)
    ensures ScoredRight(w, ScoreTurn(w, t, o), t, o)
  {
    if t.sessionId in w.sessions {
      var s := w.sessions[t.sessionId];
      var turns := AddEvaluation(s, t, o).turnEvaluations;
      assert IsScored(s, t.turn) <==>
        exists i :: 0 <= i < |s.turnEvaluations| && s.turnEvaluations[i].turn == t.turn;
      assert HasScores(turns, t.phrase) <==>
        || o.criterionScores > 0
        || exists i :: 0 <= i < |s.turnEvaluations| && s.turnEvaluations[i].phrase == t.phrase
                       && s.turnEvaluations[i].criterionScores > 0 by {
        assert turns[|turns| - 1] in turns;
      }
      if t.stageId.Some? {
        assert HasStage(s.stages, t.stageId.value) <==>
          exists i :: 0 <= i < |s.stages| && s.stages[i].id == t.stageId.value;
      }
      hide HasScores, HasStage, IsScored, MarkEvaluated;
    }
  }

  lemma ScoreFacts(w: Shared, t: ScoreTask, o: ScoreFaults)
    ensures var w1 := ScoreTurn(w, t, o);
      && (StageLedger.Sound(w.sessions) ==> StageLedger.Sound(w1.sessions))
      && StageLedger.OnlyIn(w.sessions, w1.sessions, t.sessionId)
      && (forall key :: key in w1.lastTurns ==> key in w.lastTurns && w1.lastTurns[key] == w.lastTurns[key])
  {
    if StageLedger.Sound(w.sessions) {
      StageLedger.ScoreKeeps(w, t, o);
    }
    hide StageLedger.Sound, Calculate, CachedTurn, IsScored;
  }

  // ---------------------------------------------------------------- the objects

  /** A connection object of the server. */
  class Client {
    const id: int
    const sessionId: int
    var state: string
    var stateId: Option<int>
    var lastTurn: Option<int>
    var connected: bool
    var disconnecting: bool
    var completed: bool
    var finalized: bool

    constructor (id: int, sessionId: int)
      ensures View() == FreshConn(id, sessionId)
    {
      this.id := id;
      this.sessionId := sessionId;
      state, stateId, lastTurn := "", None, None;
      connected, disconnecting, completed, finalized := true, false, false, false;
    }

    function View(): Conn
      reads this
    {
      Conn(id, sessionId, state, stateId, lastTurn, connected, disconnecting, completed, finalized)
    }

    /** Takes over the current stage and the finalized flag of the session row; then the two agree. */
    method Load(row: Session)
      requires state == "" && stateId == None
      modifies this
      ensures StageLedger.Agrees(View(), row) && (finalized <==> row.finalize == Finalized)
      ensures View() == Loaded(old(View()), row)
    {
      if row.current.Some? {
        state := row.current.value.1;
        stateId := Some(row.current.value.0);
      }
      finalized := row.finalize == Finalized;
    }
  }

  class Server {
    var sessions: map<int, Session>
    var queue: multiset<Task>
    var handOffs: multiset<int>
    var scoring: set<ScoreTask>
    var lastTurns: map<(int, string), int>

    constructor (sessions: map<int, Session>)
      ensures View() == Shared(sessions, multiset{}, multiset{}, {}, map[])
    {
      this.sessions := sessions;
      queue, handOffs, scoring, lastTurns := multiset{}, multiset{}, {}, map[];
    }

    function View(): Shared
      reads this
    {
      Shared(sessions, queue, handOffs, scoring, lastTurns)
    }

    method DisconnectClient(c: Client, status: Option<Status>, h: Hangup)
      modifies this, c
      ensures c.View() == old(c.View()).(
        disconnecting := true, connected := old(c.connected) && old(c.disconnecting))
      ensures old(c.disconnecting) ==> View() == old(View()) && c.View() == old(c.View())
      ensures HandsOffOnce(old(View()), old(c.View()), View(), status, h)
      ensures (View(), c.View()) == Disconnect(old(View()), old(c.View()), status, h)
    {
      if c.disconnecting {
        return;
      }
      c.disconnecting := true;
      c.connected := false;
      if !c.finalized {
        var sessionStatus := Cancelled;
        if status.Some? {
          sessionStatus := status.value;
        }
        handOffs := handOffs + multiset{c.id};
        if h.published {
          queue := queue + multiset{Task(c.sessionId, sessionStatus)};
        } else {
          EndInterviewSession(c.sessionId, sessionStatus, h.fallback);
        }
      }
    }

    method EndInterviewSession(sid: int, status: Status, e: EndFaults)
      modifies this`sessions
      ensures StageLedger.OnlyIn(old(sessions), sessions, sid)
      ensures sessions == EndIn(old(sessions), sid, status, e)
    {
      if sid in sessions {
        var store := new SessionStore(sessions[sid]);
        var _ := store.EndInterviewSession(status, e);
        sessions := sessions[sid := store.row];
      }
    }

    /** Serves an admitted connection up to the start of its loops. */
    method HandleConnection(cid: int, sid: int, o: ConnectFaults) returns (c: Client)
      modifies this
      ensures fresh(c)
      ensures !c.disconnecting ==>
        sid in sessions && sessions[sid].status == OnGoing && sessions[sid].finalize == Ongoing
      ensures StageLedger.Sound(old(sessions)) ==>
        StageLedger.Keeps(old(View()), FreshConn(cid, sid), View(), c.View())
      ensures handOffs == old(handOffs) + if c.disconnecting && !c.finalized then multiset{cid} else multiset{}
      ensures (View(), c.View()) == Connect(old(View()), cid, sid, o)
    {
      hide Disconnect, KeepsLedger, CompletesNothing, HandOff.Moves, HandsOffOnce, EndIn;
      hide StageLedger.Sound, StageLedger.Keeps;
      ConnectFacts(View(), cid, sid, o);
      c := new Client(cid, sid);
      if !o.stateRead || sid !in sessions {
        DisconnectClient(c, None, o.hangup);
        return;
      }
      var row := sessions[sid];
      if row.status == TimedOut {
        DisconnectClient(c, Some(TimedOut), o.hangup);
        return;
      }
      if row.status == Completed {
        DisconnectClient(c, Some(Completed), o.hangup);
        return;
      }
      c.Load(row);
      if !o.ongoingWrite {
        DisconnectClient(c, None, o.hangup);
        return;
      }
      sessions := sessions[sid := row.(finalize := Ongoing)];
      SecondDisconnect(View(), c.View(), o.hangup);
      var started := InitClient(c, o.agentStarted, o.hangup);
      if !started {
        DisconnectClient(c, None, o.hangup);
        return;
      }
      if !o.statusWrite {
        DisconnectClient(c, None, o.hangup);
        return;
      }
      sessions := sessions[sid := sessions[sid].(status := OnGoing)];
    }

    /** Starts the connection to the agent; a failure closes the connection here and again in the caller. */
    method InitClient(c: Client, agentStarted: bool, h: Hangup) returns (ok: bool)
      modifies this, c
      ensures ok == agentStarted
      ensures (View(), c.View()) ==
        if ok then (old(View()), old(c.View())) else Disconnect(old(View()), old(c.View()), None, h)
    {
      hide Disconnect, KeepsLedger, CompletesNothing, HandOff.Moves, HandsOffOnce, EndIn;
      if !agentStarted {
        DisconnectClient(c, None, h);
        return false;
      }
      return true;
    }

    method SendInterviewerResp(c: Client, sid: int, state: string, o: ResponseFaults)
      modifies this, c
      ensures !c.disconnecting && !old(c.disconnecting) ==> c.state == state && sid == c.sessionId
      ensures !c.disconnecting && !old(c.disconnecting) && old(c.state) != state ==>
        sid in sessions && c.stateId.Some? && sessions[sid].current == Some((c.stateId.value, state))
      ensures c.disconnecting && !old(c.disconnecting) ==> c.state == old(c.state)
      ensures !c.disconnecting && !old(c.disconnecting) ==>
        TurnTold(old(sessions), sessions, sid, o.turnId, state)
      ensures KeepsLedger(old(View()), old(c.View()), View(), c.View())
      ensures HandOff.Moves(old(handOffs), old(c.View()), handOffs, c.View())
      ensures (View(), c.View()) == Respond(old(View()), old(c.View()), sid, state, o)
    {
      hide Disconnect, ChangeStage, KeepsLedger, CompletesNothing, HandOff.Moves, HandsOffOnce, EndIn;
      HandlerFacts(View(), c.View(), Response(c.id, sid, state, o));
      hide TurnTold;
      if !c.disconnecting {
        ResponseFacts(View(), c.View(), sid, state, o);
        ResponseTells(View(), c.View(), sid, state, o);
      }
      if c.sessionId != sid {
        DisconnectClient(c, None, o.hangup);
        return;
      }
      var stored := CreateSessionTurn(sid, o.turnId, state, o.stored);
      if !stored || !o.recorded {
        DisconnectClient(c, None, o.hangup);
        return;
      }
      if c.state != state {
        ChangeClientStage(c, state, o);
      }
    }

    /** A turn stored is the newest of its phrase. */
    method CreateSessionTurn(sid: int, id: int, phrase: string, statementSucceeds: bool) returns (ok: bool)
      modifies this`sessions
      ensures !ok ==> View() == old(View())
      ensures ok ==> sid in sessions && NewestTurn(sessions[sid].turns, phrase) == Some(id)
      ensures (View(), ok) == StoreTurn(old(View()), sid, id, phrase, statementSucceeds)
    {
      if !statementSucceeds || sid !in sessions || TurnKnown(sessions, id) {
        return false;
      }
      sessions := sessions[sid := AddTurn(sessions[sid], id, phrase)];
      return true;
    }

    method ChangeClientStage(c: Client, state: string, o: ResponseFaults)
      modifies this, c
      ensures !old(c.disconnecting) ==> MovedOrClosed(old(c.View()), View(), c.View(), state, o.newId)
      ensures (View(), c.View()) == ChangeStage(old(View()), old(c.View()), state, o)
    {
      hide MovedOrClosed, ChangeStage;
      if !c.disconnecting {
        ChangeFacts(View(), c.View(), state, o);
      }
      if c.stateId == None && c.state == "" {
        StartFirstStage(c, state, o);
      } else {
        StartNextStage(c, state, o);
      }
    }

    method StartFirstStage(c: Client, state: string, o: ResponseFaults)
      requires c.stateId == None && c.state == ""
      modifies this, c
      ensures (View(), c.View()) == ChangeStage(old(View()), old(c.View()), state, o)
    {
      hide Disconnect, FirstStageTx, HandsOffOnce;
      var ok := CreateInterviewStateTx(c.sessionId, o.newId, state, o.statementsSucceed);
      if !ok {
        DisconnectClient(c, None, o.hangup);
        return;
      }
      c.state := state;
      c.stateId := Some(o.newId);
    }

    method StartNextStage(c: Client, state: string, o: ResponseFaults)
      requires c.stateId.Some? || c.state != ""
      modifies this, c
      ensures (View(), c.View()) == ChangeStage(old(View()), old(c.View()), state, o)
    {
      hide Disconnect, UpdateStage, HandsOffOnce, LastTurn, StartsStage;
      var lastTurn := LastTurnOf(c, state, o.looked);
      var ok := false;
      if lastTurn.Some? && c.stateId.Some? {
        ok := UpdateCurrentState(c, lastTurn.value, state, o);
      }
      if !ok {
        DisconnectClient(c, None, o.hangup);
        return;
      }
      c.state := state;
      c.stateId := Some(o.newId);
    }

    /** The last turn of the old stage is the one remembered, or else looked up under the new phrase. */
    method LastTurnOf(c: Client, state: string, looked: bool) returns (lastTurn: Option<int>)
      ensures lastTurn == LastTurn(View(), c.View(), state, looked)
    {
      lastTurn := c.lastTurn;
      if lastTurn.None? && looked && c.sessionId in sessions {
        lastTurn := NewestTurn(sessions[c.sessionId].turns, state);
      }
    }

    method UpdateCurrentState(c: Client, lastTurn: int, state: string, o: ResponseFaults) returns (ok: bool)
      requires c.stateId.Some?
      modifies this`sessions, this`lastTurns
      ensures ok ==> StartsStage(old(sessions), sessions, c.sessionId, o.newId, state)
      ensures lastTurns == if ok then old(lastTurns)[(c.sessionId, c.state) := lastTurn] else old(lastTurns)
      ensures (View(), ok) == UpdateStage(old(View()), c.View(), lastTurn, state, o)
    {
      hide NextStageTx, StageKnown, StartsStage;
      var committed :=
        EndOldCreateNewStateTx(c.sessionId, c.stateId.value, lastTurn, o.newId, state, o.statementsSucceed);
      if !committed || !o.cached {
        return false;
      }
      lastTurns := lastTurns[(c.sessionId, c.state) := lastTurn];
      return true;
    }

    method CreateInterviewStateTx(sid: int, id: int, phrase: string, statementsSucceed: bool) returns (ok: bool)
      modifies this`sessions
      ensures !ok ==> View() == old(View())
      ensures ok ==> StartsStage(old(sessions), sessions, sid, id, phrase)
      ensures (View(), ok) == FirstStageTx(old(View()), sid, id, phrase, statementsSucceed)
    {
      var before := sessions;
      if !statementsSucceed || sid !in sessions || StageKnown(sessions, id) {
        return false;
      }
      var stages := sessions[sid].stages + [Stage(id, phrase, false, None, false)];
      sessions := sessions[sid := sessions[sid].(stages := stages)];
      sessions := sessions[sid := sessions[sid].(current := Some((id, phrase)))];
      assert sessions == before[sid := AddStage(before[sid], id, phrase)];
      return true;
    }

    method EndOldCreateNewStateTx(
      sid: int, oldId: int, lastTurn: int, id: int, phrase: string, statementsSucceed: bool)
      returns (ok: bool)
      modifies this`sessions
      ensures !ok ==> View() == old(View())
      ensures ok ==> StageKnown(old(sessions), oldId) && StartsStage(old(sessions), sessions, sid, id, phrase)
      ensures ok ==> EndsStage(old(sessions)[sid], sessions[sid], oldId, lastTurn)
      ensures (View(), ok) == NextStageTx(old(View()), sid, oldId, lastTurn, id, phrase, statementsSucceed)
    {
      var before := sessions;
      var affected := StageKnown(sessions, oldId);
      sessions := EndStageRow(sessions, oldId, lastTurn);
      if
        !affected || !statementsSucceed || sid !in sessions || StageKnown(before, id) || !TurnKnown(before, lastTurn)
      {
        sessions := before;
        return false;
      }
      var stages := sessions[sid].stages + [Stage(id, phrase, false, None, false)];
      sessions := sessions[sid := sessions[sid].(stages := stages)];
      sessions := sessions[sid := sessions[sid].(current := Some((id, phrase)))];
      var ended := EndStageRow(before, oldId, lastTurn);
      assert sessions == ended[sid := AddStage(ended[sid], id, phrase)];
      return true;
    }

    method SendInterviewCompleted(c: Client, sid: int, written: bool, h: Hangup)
      modifies this, c
      ensures !c.disconnecting && !old(c.disconnecting) ==>
        c.completed && sid == c.sessionId && sid in sessions && sessions[sid].status == Completed
      ensures c.completed && !old(c.completed) ==> queue == old(queue) && handOffs == old(handOffs)
      ensures !c.completed ==> CompletesNothing(old(View()), View())
      ensures KeepsLedger(old(View()), old(c.View()), View(), c.View())
      ensures HandOff.Moves(old(handOffs), old(c.View()), handOffs, c.View())
      ensures (View(), c.View()) == CompleteInterview(old(View()), old(c.View()), sid, written, h)
    {
      hide Disconnect, KeepsLedger, CompletesNothing, HandOff.Moves, HandsOffOnce, EndIn;
      HandlerFacts(View(), c.View(), AgentCompleted(c.id, sid, written, h));
      DisconnectCompletesNothing(View(), c.View(), h);
      if c.sessionId != sid || !written || sid !in sessions {
        DisconnectClient(c, None, h);
        return;
      }
      sessions := sessions[sid := sessions[sid].(status := Completed)];
      c.completed := true;
    }

    method SendUserFullTranscript(c: Client, sid: int, turn: Option<int>, o: TranscriptFaults)
      modifies this, c
      ensures !c.disconnecting && !old(c.disconnecting) ==>
        c.lastTurn == turn && TurnPublished(old(View()), old(c.View()), View(), turn)
      ensures c.state == old(c.state) && c.stateId == old(c.stateId)
      ensures CompletesNothing(old(View()), View())
      ensures KeepsLedger(old(View()), old(c.View()), View(), c.View())
      ensures HandOff.Moves(old(handOffs), old(c.View()), handOffs, c.View())
      ensures (View(), c.View()) == RecordTranscript(old(View()), old(c.View()), sid, turn, o)
    {
      hide Disconnect, KeepsLedger, CompletesNothing, HandOff.Moves, HandsOffOnce, EndIn;
      hide TurnPublished, SaveTranscript;
      HandlerFacts(View(), c.View(), Transcript(c.id, sid, turn, o));
      TranscriptFacts(View(), c.View(), sid, turn, o);
      TranscriptCompletesNothing(View(), c.View(), sid, turn, o);
      if c.sessionId != sid || o.message.None? {
        DisconnectClient(c, None, o.hangup);
        return;
      }
      var saved := CreateUserSessionTurn(c, turn, o);
      c.lastTurn := turn;
      if !saved {
        DisconnectClient(c, None, o.hangup);
      }
    }

    /** Stores the turn of a transcript and publishes the task that scores it. */
    method CreateUserSessionTurn(c: Client, turn: Option<int>, o: TranscriptFaults) returns (ok: bool)
      requires o.message.Some?
      modifies this`sessions, this`scoring
      ensures ok ==> TurnPublished(old(View()), c.View(), View(), turn)
      ensures (View(), ok) == SaveTranscript(old(View()), c.View(), turn, o)
    {
      hide TurnKnown;
      if turn.None? {
        return false;
      }
      var stored := CreateSessionTurn(c.sessionId, turn.value, o.message.value, o.stored);
      if !stored || !o.rest {
        return false;
      }
      scoring := scoring + {ScoreTask(c.sessionId, turn.value, c.state, c.stateId)};
      return true;
    }

    method UpdateSession(c: Client, sid: int, status: Status, published: bool, h: Hangup)
      modifies this, c
      ensures published && sid == c.sessionId ==>
        c.finalized && queue == old(queue) + multiset{Task(sid, status)}
        && sessions == old(sessions) && handOffs == old(handOffs) && c.disconnecting == old(c.disconnecting)
      ensures !(published && sid == c.sessionId) ==> c.disconnecting && c.finalized == old(c.finalized)
      ensures (View(), c.View()) == UpdateInterviewSession(old(View()), old(c.View()), sid, status, published, h)
    {
      hide Disconnect, KeepsLedger, CompletesNothing, HandOff.Moves, HandsOffOnce, EndIn;
      if c.sessionId != sid || !published {
        DisconnectClient(c, None, h);
        return;
      }
      queue := queue + multiset{Task(sid, status)};
      c.finalized := true;
    }

    method EndByUser(c: Client, sid: int, published: bool, h: Hangup)
      modifies this, c
      ensures CompletesNothing(old(View()), View())
      ensures !c.disconnecting && !old(c.disconnecting) ==>
        c.finalized && queue == old(queue) + multiset{Task(c.sessionId, Cancelled)} && sessions == old(sessions)
      ensures KeepsLedger(old(View()), old(c.View()), View(), c.View())
      ensures HandOff.Moves(old(handOffs), old(c.View()), handOffs, c.View())
      ensures (View(), c.View()) == UpdateInterviewSession(old(View()), old(c.View()), sid, Cancelled, published, h)
    {
      hide KeepsLedger, CompletesNothing, HandOff.Moves, HandsOffOnce, EndIn;
      HandlerFacts(View(), c.View(), UserEnds(c.id, sid, published, h));
      EndedByUserCompletesNothing(View(), c.View(), sid, published, h);
      UpdateSession(c, sid, Cancelled, published, h);
    }

    method CompleteByUser(c: Client, sid: int, published: bool, h: Hangup)
      modifies this, c
      ensures !old(c.completed) ==> c.disconnecting && CompletesNothing(old(View()), View())
      ensures !c.disconnecting && !old(c.disconnecting) ==>
        old(c.completed) && c.finalized && queue == old(queue) + multiset{Task(c.sessionId, Completed)}
        && sessions == old(sessions)
      ensures KeepsLedger(old(View()), old(c.View()), View(), c.View())
      ensures HandOff.Moves(old(handOffs), old(c.View()), handOffs, c.View())
      ensures (View(), c.View()) == UserComplete(old(View()), old(c.View()), sid, published, h)
    {
      hide KeepsLedger, CompletesNothing, HandOff.Moves, HandsOffOnce, EndIn;
      HandlerFacts(View(), c.View(), UserCompletes(c.id, sid, published, h));
      DisconnectCompletesNothing(View(), c.View(), h);
      if !c.completed {
        DisconnectClient(c, None, h);
        return;
      }
      UpdateSession(c, sid, Completed, published, h);
    }

    method TimeOutClient(c: Client, written: bool, h: Hangup)
      modifies this, c
      ensures !old(c.connected) || old(c.disconnecting) ==> View() == old(View()) && c.View() == old(c.View())
      ensures old(c.connected) && !old(c.disconnecting) ==> c.disconnecting
      ensures old(c.connected) && !old(c.disconnecting) && !c.finalized && h.published ==>
        queue == old(queue) + multiset{Task(c.sessionId, TimedOut)}
        && (written && c.sessionId in sessions ==> sessions[c.sessionId].status == TimedOut)
      ensures KeepsLedger(old(View()), old(c.View()), View(), c.View())
      ensures HandOff.Moves(old(handOffs), old(c.View()), handOffs, c.View())
      ensures (View(), c.View()) == Timeout(old(View()), old(c.View()), written, h)
    {
      hide Disconnect, KeepsLedger, CompletesNothing, HandOff.Moves, HandsOffOnce, EndIn;
      HandlerFacts(View(), c.View(), MonitorFires(c.id, written, h));
      if !c.connected || c.disconnecting {
        return;
      }
      if written && c.sessionId in sessions {
        sessions := sessions[c.sessionId := sessions[c.sessionId].(status := TimedOut)];
      }
      DisconnectClient(c, Some(TimedOut), h);
    }

    method ConsumeEndInterviewSession(t: Task, finalizingWrite: bool, e: EndFaults, again: bool)
      modifies this
      ensures handOffs == old(handOffs) && (t !in old(queue) ==> View() == old(View()))
      ensures StageLedger.Sound(old(sessions)) ==> StageLedger.Sound(sessions)
      ensures TaskSucceeds(old(View()), t, finalizingWrite, e) ==>
        t.sessionId in sessions && sessions[t.sessionId].status == t.status
        && sessions[t.sessionId].finalize == Finalized
      ensures View() == RunTask(old(View()), t, finalizingWrite, e, again)
    {
      hide KeepsLedger, CompletesNothing, HandOff.Moves, HandsOffOnce, EndIn;
      TaskFacts(View(), t, finalizingWrite, e, again);
      if t !in queue {
        return;
      }
      if !again {
        queue := queue - multiset{t};
      }
      if !finalizingWrite || t.sessionId !in sessions {
        return;
      }
      sessions := sessions[t.sessionId := sessions[t.sessionId].(finalize := Finalizing)];
      EndInterviewSession(t.sessionId, t.status, e);
    }

    /** A turn is evaluated once; rows of other sessions, stages but for their flags and the queue of ends stay. */
    method CalculateTurnScore(t: ScoreTask, o: ScoreFaults)
      modifies this`sessions, this`lastTurns
      ensures ScoredRight(old(View()), View(), t, o)
      ensures StageLedger.OnlyIn(old(sessions), sessions, t.sessionId)
      ensures StageLedger.Sound(old(sessions)) ==> StageLedger.Sound(sessions)
      ensures forall key :: key in lastTurns ==> key in old(lastTurns) && lastTurns[key] == old(lastTurns)[key]
      ensures View() == ScoreTurn(old(View()), t, o)
    {
      ScoreIsRight(View(), t, o);
      hide StageLedger.Sound, IsScored, ScoredRight;
      ScoreFacts(View(), t, o);
      if t !in scoring || !o.scored || t.sessionId !in sessions || IsScored(sessions[t.sessionId], t.turn) {
        return;
      }
      var store := new SessionStore(AddEvaluation(sessions[t.sessionId], t, o));
      if o.flagged && o.keyRead {
        var lastTurn := CachedTurn(View(), t, o);
        if lastTurn == Some(t.turn) && t.stageId.Some? {
          var _ := store.CalculateEvaluationInOldState(t.stageId.value, t.phrase, o.calculation);
        }
        if o.deleted || o.expired {
          lastTurns := lastTurns - {(t.sessionId, t.phrase)};
        }
      }
      sessions := sessions[t.sessionId := store.row];
    }
  }
}
