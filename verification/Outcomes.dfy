/**
 What one step does to the status and the finalize status of a session, for every event and every mix of failures.
 Handlers are described by when they close their connection, steps by the end they carry out, if any.
 */
module Outcomes {
  import opened Prelude
  import opened SessionStatus
  import opened SessionRecords
  import opened Evaluation
  import opened LiveSession
  import opened SessionRuns
  import opened Finalization
  import StageLedger

  // ---------------------------------------------------------------- when a handler closes its connection

  /** The transaction of a stage change commits; the turn looked up is the one just stored. */
  predicate Commits(w: Shared, c: Conn, o: ResponseFaults) {
    && c.stateId.Some? && o.statementsSucceed
    && StageKnown(w.sessions, c.stateId.value) && !StageKnown(w.sessions, o.newId)
    && if c.lastTurn.Some? then c.lastTurn.value == o.turnId || TurnKnown(w.sessions, c.lastTurn.value) else o.looked
  }

  predicate StageFails(w: Shared, c: Conn, o: ResponseFaults) {
    if c.stateId == None && c.state == "" then !o.statementsSucceed || StageKnown(w.sessions, o.newId)
    else !Commits(w, c, o) || !o.cached
  }

  /** The turn of a response is refused, or its message not cached. */
  predicate Unrecorded(w: Shared, c: Conn, sid: int, o: ResponseFaults) {
    || c.sessionId != sid || sid !in w.sessions
    || !o.stored || TurnKnown(w.sessions, o.turnId) || !o.recorded
  }

  predicate ResponseFails(w: Shared, c: Conn, sid: int, state: string, o: ResponseFaults) {
    Unrecorded(w, c, sid, o) || (c.state != state && StageFails(w, c, o))
  }

  predicate TranscriptFails(w: Shared, c: Conn, sid: int, turn: Option<int>, o: TranscriptFaults) {
    || c.sessionId != sid || o.message.None? || turn.None? || !o.stored || !o.rest
    || sid !in w.sessions || TurnKnown(w.sessions, turn.value)
  }

  /** The guards on which a handler closes its connection. */
  predicate Fails(w: Shared, c: Conn, e: Event)
    requires OnConnection(e)
  {
    match e
    case Response(_, sid, state, o) => ResponseFails(w, c, sid, state, o)
    case AgentCompleted(_, sid, written, _) => c.sessionId != sid || !written || sid !in w.sessions
    case Transcript(_, sid, turn, o) => TranscriptFails(w, c, sid, turn, o)
    case UserEnds(_, sid, published, _) => c.sessionId != sid || !published
    case UserCompletes(_, sid, published, _) => !c.completed || c.sessionId != sid || !published
    case MonitorFires(_, _, _) => c.connected
    case Drops(_, _, _) => true
  }

  /** The status a closing connection hands off. */
  function ClosingStatus(e: Event): Status {
    if e.MonitorFires? || (e.Drops? && e.timedOut) then TimedOut else Cancelled
  }

  function HangupOf(e: Event): Hangup
    requires OnConnection(e) || e.Connecting?
  {
    match e
    case Connecting(_, _, o) => o.hangup
    case Response(_, _, _, o) => o.hangup
    case AgentCompleted(_, _, _, h) => h
    case Transcript(_, _, _, o) => o.hangup
    case UserEnds(_, _, _, h) => h
    case UserCompletes(_, _, _, h) => h
    case MonitorFires(_, _, h) => h
    case Drops(_, _, h) => h
  }

  // ---------------------------------------------------------------- what it has written by then

  /** What a stage change has written before it is done or closes the connection. */
  function StageWritten(w: Shared, c: Conn, state: string, o: ResponseFaults): Shared {
    if c.stateId == None && c.state == "" then FirstStageTx(w, c.sessionId, o.newId, state, o.statementsSucceed).0
    else
      var lastTurn := LastTurn(w, c, state, o.looked);
      if lastTurn.None? || c.stateId.None? then w else UpdateStage(w, c, lastTurn.value, state, o).0
  }

  function ResponseWritten(w: Shared, c: Conn, sid: int, state: string, o: ResponseFaults): Shared {
    if c.sessionId != sid then w
    else
      var (told, stored) := StoreTurn(w, sid, o.turnId, state, o.stored);
      if !stored || !o.recorded || c.state == state then told else StageWritten(told, c, state, o)
  }

  /** What a handler has written before it is done or closes the connection. */
  function Written(w: Shared, c: Conn, e: Event): Shared
    requires OnConnection(e)
  {
    match e
    case Response(_, sid, state, o) => ResponseWritten(w, c, sid, state, o)
    case AgentCompleted(_, sid, written, _) =>
      if c.sessionId == sid && written then w.(sessions := WriteStatus(w.sessions, sid, Completed)) else w
    case Transcript(_, sid, turn, o) =>
      if c.sessionId != sid || o.message.None? then w else SaveTranscript(w, c, turn, o).0
    case UserEnds(_, sid, published, _) =>
      if c.sessionId == sid && published then w.(queue := w.queue + multiset{Task(sid, Cancelled)}) else w
    case UserCompletes(_, sid, published, _) =>
      if c.completed && c.sessionId == sid && published
      then w.(queue := w.queue + multiset{Task(sid, Completed)}) else w
    case MonitorFires(_, written, _) =>
      if written && c.connected && !c.disconnecting
      then w.(sessions := WriteStatus(w.sessions, c.sessionId, TimedOut)) else w
    case Drops(_, _, _) => w
  }

  /** Closing a connection, for its session: a hand-off unless it is finalized or closing already. */
  function Close(w: Shared, c: Conn, status: Status, h: Hangup): Shared {
    if c.disconnecting || c.finalized then w else HandOff(w, c, status, h)
  }

  /** What a handler leaves, given what it writes and whether it closes. */
  function Left(written: Shared, c: Conn, fails: bool, status: Status, h: Hangup): Shared {
    if fails then Close(written, c, status, h) else written
  }

  /** A stage change writes what it writes, and closes the connection exactly when it fails. */
  ghost predicate ChangedRight(w: Shared, told: Shared, c: Conn, state: string, o: ResponseFaults) {
    var (w1, c1) := ChangeStage(told, c, state, o);
    && w1 == Left(StageWritten(told, c, state, o), c, StageFails(w, c, o), Cancelled, o.hangup)
    && (c1.disconnecting <==> c.disconnecting || StageFails(w, c, o))
  }

  /** A handler writes what it writes, and closes its connection exactly when it fails. */
  ghost predicate HandledRight(w: Shared, c: Conn, e: Event)
    requires OnConnection(e)
  {
    var (w1, c1) := Handle(w, c, e);
    && w1 == Left(Written(w, c, e), c, Fails(w, c, e), ClosingStatus(e), HangupOf(e))
    && (c1.disconnecting <==> c.disconnecting || Fails(w, c, e))
  }

  lemma TurnIsNew(w: Shared, sid: int, id: int, phrase: string, t: int)
    requires sid in w.sessions
    ensures TurnKnown(w.sessions[sid := AddTurn(w.sessions[sid], id, phrase)], t)
       <==> t == id || TurnKnown(w.sessions, t)
    ensures forall k ::
      StageKnown(w.sessions[sid := AddTurn(w.sessions[sid], id, phrase)], k) <==> StageKnown(w.sessions, k)
  {
    var after := w.sessions[sid := AddTurn(w.sessions[sid], id, phrase)];
    assert HasTurn(after[sid].turns, t) <==> t == id || HasTurn(w.sessions[sid].turns, t) by {
      if HasTurn(w.sessions[sid].turns, t) {
        var u :| u in w.sessions[sid].turns && u.id == t;
        assert u in after[sid].turns;
      }
      assert Turn(id, phrase) in after[sid].turns;
    }
    if TurnKnown(w.sessions, t) {
      var other :| other in w.sessions && HasTurn(w.sessions[other].turns, t);
      assert HasTurn(after[other].turns, t);
    }
    forall k ensures StageKnown(after, k) <==> StageKnown(w.sessions, k) {
      assert forall s :: s in after ==> after[s].stages == w.sessions[s].stages;
      assert after.Keys == w.sessions.Keys;
    }
  }

  lemma NewestIsOwn(w: Shared, told: Shared, c: Conn, state: string, o: ResponseFaults)
    requires StoreTurn(w, c.sessionId, o.turnId, state, o.stored) == (told, true)
    ensures LastTurn(told, c, state, o.looked)
         == if c.lastTurn.Some? then c.lastTurn else if o.looked then Some(o.turnId) else None
  {
  }

  lemma UpdateFails(w: Shared, told: Shared, c: Conn, state: string, o: ResponseFaults)
    requires StoreTurn(w, c.sessionId, o.turnId, state, o.stored) == (told, true)
    requires c.stateId.Some? && LastTurn(told, c, state, o.looked).Some?
    ensures UpdateStage(told, c, LastTurn(told, c, state, o.looked).value, state, o).1 <==> Commits(w, c, o) && o.cached
  {
    NewestIsOwn(w, told, c, state, o);
    var last := LastTurn(told, c, state, o.looked).value;
    TurnIsNew(w, c.sessionId, o.turnId, state, last);
    hide LastTurn, TurnKnown, StageKnown, EndStageRow, AddStage, AddTurn;
  }

  lemma FirstFails(w: Shared, told: Shared, c: Conn, state: string, o: ResponseFaults)
    requires StoreTurn(w, c.sessionId, o.turnId, state, o.stored) == (told, true)
    ensures FirstStageTx(told, c.sessionId, o.newId, state, o.statementsSucceed).1
       <==> o.statementsSucceed && !StageKnown(w.sessions, o.newId)
  {
    TurnIsNew(w, c.sessionId, o.turnId, state, o.turnId);
    hide TurnKnown, StageKnown, AddStage, AddTurn;
  }

  lemma CloseIs(w: Shared, c: Conn, status: Option<Status>, h: Hangup)
    ensures var (w1, c1) := Disconnect(w, c, status, h);
      w1 == Close(w, c, if status.Some? then status.value else Cancelled, h) && c1.disconnecting
  {
    hide HandOff;
  }

  lemma FirstOutcome(w: Shared, told: Shared, c: Conn, state: string, o: ResponseFaults)
    requires StoreTurn(w, c.sessionId, o.turnId, state, o.stored) == (told, true)
    requires c.stateId == None && c.state == ""
    ensures ChangedRight(w, told, c, state, o)
  {
    FirstFails(w, told, c, state, o);
    CloseIs(StageWritten(told, c, state, o), c, None, o.hangup);
    hide Disconnect, Close, StageKnown, FirstStageTx, StoreTurn;
  }

  lemma NextOutcome(w: Shared, told: Shared, c: Conn, state: string, o: ResponseFaults)
    requires StoreTurn(w, c.sessionId, o.turnId, state, o.stored) == (told, true)
    requires c.stateId.Some? || c.state != ""
    ensures ChangedRight(w, told, c, state, o)
  {
    NewestIsOwn(w, told, c, state, o);
    var lastTurn := LastTurn(told, c, state, o.looked);
    if c.stateId.Some? && lastTurn.Some? {
      UpdateFails(w, told, c, state, o);
    }
    assert Commits(w, c, o) ==> c.stateId.Some? && lastTurn.Some?;
    CloseIs(StageWritten(told, c, state, o), c, None, o.hangup);
    hide Disconnect, Close, Commits, UpdateStage, LastTurn, StoreTurn;
  }

  lemma StageOutcome(w: Shared, told: Shared, c: Conn, state: string, o: ResponseFaults)
    requires StoreTurn(w, c.sessionId, o.turnId, state, o.stored) == (told, true)
    ensures ChangedRight(w, told, c, state, o)
  {
    if c.stateId == None && c.state == "" {
      FirstOutcome(w, told, c, state, o);
    } else {
      NextOutcome(w, told, c, state, o);
    }
    hide ChangeStage, Close, StageWritten, StageFails, StoreTurn;
  }

  lemma ResponseOutcome(w: Shared, c: Conn, sid: int, state: string, o: ResponseFaults)
    ensures var (w1, c1) := Respond(w, c, sid, state, o);
      var fails := ResponseFails(w, c, sid, state, o);
      && w1 == Left(ResponseWritten(w, c, sid, state, o), c, fails, Cancelled, o.hangup)
      && (c1.disconnecting <==> c.disconnecting || fails)
  {
    var (told, stored) := StoreTurn(w, c.sessionId, o.turnId, state, o.stored);
    CloseIs(w, c, None, o.hangup);
    CloseIs(told, c, None, o.hangup);
    assert Unrecorded(w, c, sid, o) <==> c.sessionId != sid || !stored || !o.recorded;
    if stored {
      StageOutcome(w, told, c, state, o);
    }
    assert !stored ==> told == w;
    hide Disconnect, Close, ChangeStage, StageWritten, StoreTurn, TurnKnown, StageFails, Unrecorded;
  }

  lemma TranscriptOutcome(w: Shared, c: Conn, sid: int, turn: Option<int>, o: TranscriptFaults)
    ensures var (w1, c1) := RecordTranscript(w, c, sid, turn, o);
      var fails := TranscriptFails(w, c, sid, turn, o);
      && w1 == Left(if c.sessionId != sid || o.message.None? then w else SaveTranscript(w, c, turn, o).0,
                    c, fails, Cancelled, o.hangup)
      && (c1.disconnecting <==> c.disconnecting || fails)
  {
    CloseIs(w, c, None, o.hangup);
    if o.message.Some? {
      CloseIs(SaveTranscript(w, c, turn, o).0, c.(lastTurn := turn), None, o.hangup);
      SaveFails(w, c, turn, o);
      CloseSame(SaveTranscript(w, c, turn, o).0, c, turn, o.hangup);
    }
    hide Disconnect, TurnKnown, SaveTranscript, Close;
  }

  lemma CloseSame(w: Shared, c: Conn, turn: Option<int>, h: Hangup)
    ensures Close(w, c.(lastTurn := turn), Cancelled, h) == Close(w, c, Cancelled, h)
  {
  }

  lemma SaveFails(w: Shared, c: Conn, turn: Option<int>, o: TranscriptFaults)
    requires o.message.Some?
    ensures SaveTranscript(w, c, turn, o).1 <==>
      turn.Some? && o.stored && o.rest && c.sessionId in w.sessions && !TurnKnown(w.sessions, turn.value)
  {
    hide TurnKnown, AddTurn;
  }

  lemma MonitorOutcome(w: Shared, c: Conn, written: bool, h: Hangup)
    ensures var (w1, c1) := Timeout(w, c, written, h);
      && w1 == Left(if written && c.connected && !c.disconnecting
                    then w.(sessions := WriteStatus(w.sessions, c.sessionId, TimedOut)) else w,
                    c, c.connected, TimedOut, h)
      && (c1.disconnecting <==> c.disconnecting || c.connected)
  {
    CloseIs(w, c, Some(TimedOut), h);
    CloseIs(w.(sessions := WriteStatus(w.sessions, c.sessionId, TimedOut)), c, Some(TimedOut), h);
    hide Disconnect, HandOff, WriteStatus;
  }

  lemma UpdateOutcome(w: Shared, c: Conn, sid: int, status: Status, published: bool, h: Hangup)
    ensures var (w1, c1) := UpdateInterviewSession(w, c, sid, status, published, h);
      && w1 == Left(if c.sessionId == sid && published then w.(queue := w.queue + multiset{Task(sid, status)}) else w,
                    c, c.sessionId != sid || !published, Cancelled, h)
      && (c1.disconnecting <==> c.disconnecting || c.sessionId != sid || !published)
  {
    CloseIs(w, c, None, h);
    hide Disconnect, Close;
  }

  lemma HandlerOutcome(w: Shared, c: Conn, e: Event)
    requires OnConnection(e)
    ensures HandledRight(w, c, e)
  {
    match e
    case Response(_, sid, state, o) => ResponseOutcome(w, c, sid, state, o);
    case AgentCompleted(_, sid, written, h) => CloseIs(w, c, None, h);
    case Transcript(_, sid, turn, o) => TranscriptOutcome(w, c, sid, turn, o);
    case UserEnds(_, sid, published, h) => UpdateOutcome(w, c, sid, Cancelled, published, h);
    case UserCompletes(_, sid, published, h) =>
      UpdateOutcome(w, c, sid, Completed, published, h);
      CloseIs(w, c, None, h);
    case MonitorFires(_, written, h) => MonitorOutcome(w, c, written, h);
    case Drops(_, timedOut, h) => CloseIs(w, c, if timedOut then Some(TimedOut) else None, h);
    hide Disconnect, Close, Respond, ResponseWritten, ResponseFails, RecordTranscript, TranscriptFails, Timeout,
      UpdateInterviewSession, WriteStatus, SaveTranscript;
  }

  // ---------------------------------------------------------------- columns

  /** A session may have other stages and turns, but its statuses and evaluations are the same. */
  predicate SameColumns(s: Session, r: Session) {
    r.status == s.status && r.finalize == s.finalize && r.turnEvaluations == s.turnEvaluations
  }

  ghost predicate AllSame(a: map<int, Session>, b: map<int, Session>) {
    a.Keys == b.Keys && forall sid :: sid in a ==> SameColumns(a[sid], b[sid])
  }

  lemma StageWrittenColumns(w: Shared, c: Conn, state: string, o: ResponseFaults)
    ensures AllSame(w.sessions, StageWritten(w, c, state, o).sessions)
  {
    hide StageKnown, TurnKnown, LastTurn, EndStages;
  }

  /** The status a handler writes, and the one of other sessions. */
  function WrittenStatus(w: Shared, c: Conn, e: Event, sid: int): Status
    requires OnConnection(e) && sid in w.sessions
  {
    if sid != c.sessionId then w.sessions[sid].status
    else if e.AgentCompleted? && e.sid == sid && e.written then Completed
    else if e.MonitorFires? && e.written && c.connected && !c.disconnecting then TimedOut
    else w.sessions[sid].status
  }

  lemma WrittenColumns(w: Shared, c: Conn, e: Event)
    requires OnConnection(e)
    ensures var after := Written(w, c, e).sessions;
      && after.Keys == w.sessions.Keys
      && forall sid :: sid in after ==> SameColumns(w.sessions[sid].(status := WrittenStatus(w, c, e, sid)), after[sid])
  {
    match e
    case Response(_, sid, state, o) => ResponseWrittenColumns(w, c, sid, state, o);
    case Transcript(_, sid, turn, o) => if o.message.Some? { SavedColumns(w, c, turn, o); }
    case _ =>
    hide ResponseWritten, SaveTranscript;
  }

  lemma ResponseWrittenColumns(w: Shared, c: Conn, sid: int, state: string, o: ResponseFaults)
    ensures AllSame(w.sessions, ResponseWritten(w, c, sid, state, o).sessions)
  {
    hide StageWritten, TurnKnown;
    var told := StoreTurn(w, sid, o.turnId, state, o.stored).0;
    StageWrittenColumns(told, c, state, o);
  }

  lemma SavedColumns(w: Shared, c: Conn, turn: Option<int>, o: TranscriptFaults)
    requires o.message.Some?
    ensures AllSame(w.sessions, SaveTranscript(w, c, turn, o).0.sessions)
  {
    hide TurnKnown;
  }

  // ---------------------------------------------------------------- the end a step carries out

  predicate Over(s: Session) {
    s.status == TimedOut || s.status == Completed
  }

  /** Setting up a connection marks its session ongoing. */
  predicate Reopens(w: World, e: Event, sid: int)
    requires sid in w.shared.sessions
  {
    && e.Connecting? && e.cid !in w.clients && e.sid == sid
    && e.connectFaults.stateRead && !Over(w.shared.sessions[sid]) && e.connectFaults.ongoingWrite
  }

  predicate SetUp(w: World, e: Event, sid: int)
    requires sid in w.shared.sessions
  {
    Reopens(w, e, sid) && e.connectFaults.agentStarted && e.connectFaults.statusWrite
  }

  /** A connection for the session is closed by this step and was neither closing nor finalized. */
  predicate ClosesOpen(w: World, e: Event, sid: int) {
    && OnConnection(e) && e.cid in w.clients && w.clients[e.cid].sessionId == sid
    && !w.clients[e.cid].disconnecting && Fails(w.shared, w.clients[e.cid], e)
  }

  /** Setting up a connection fails before or without a finalized session being loaded. */
  predicate SetUpFails(w: World, e: Event, sid: int)
    requires sid in w.shared.sessions
  {
    var s := w.shared.sessions[sid];
    && e.Connecting? && e.cid !in w.clients && e.sid == sid
    && (!e.connectFaults.stateRead || Over(s) || (s.finalize != Finalized && !SetUp(w, e, sid)))
  }

  /** The step hands the end of the session off, with this status. */
  function HandsOff(w: World, e: Event, sid: int): Option<Status>
    requires sid in w.shared.sessions
  {
    if ClosesOpen(w, e, sid) && !w.clients[e.cid].finalized then Some(ClosingStatus(e))
    else if SetUpFails(w, e, sid) then
      var s := w.shared.sessions[sid];
      Some(if e.connectFaults.stateRead && Over(s) then s.status else Cancelled)
    else None
  }

  /** The end of the session the step carries out, by a worker or because a hand-off cannot be published. */
  function Ends(w: World, e: Event, sid: int): Option<(Status, EndFaults)>
    requires sid in w.shared.sessions
  {
    if e.TaskRuns? then
      if e.task in w.shared.queue && e.task.sessionId == sid && e.finalizingWrite
      then Some((e.task.status, e.endFaults)) else None
    else
      match HandsOff(w, e, sid)
      case None => None
      case Some(status) => if HangupOf(e).published then None else Some((status, HangupOf(e).fallback))
  }

  /** The monitor writes "timed out". */
  predicate MonitorWrites(w: World, e: Event, sid: int) {
    && e.MonitorFires? && e.written && e.cid in w.clients && w.clients[e.cid].sessionId == sid
    && w.clients[e.cid].connected && !w.clients[e.cid].disconnecting
  }

  /** The status before the end the step carries out, if any. */
  function StatusThen(w: World, e: Event, sid: int): Status
    requires sid in w.shared.sessions
  {
    if MonitorWrites(w, e, sid) then TimedOut
    else if SetUp(w, e, sid) then OnGoing
    else if e.AgentCompleted? && e.sid == sid && e.written && e.cid in w.clients && w.clients[e.cid].sessionId == sid
    then Completed
    else w.shared.sessions[sid].status
  }

  /** The finalize status before the end the step carries out, if any. */
  function FinalizeThen(w: World, e: Event, sid: int): FinalizeStatus
    requires sid in w.shared.sessions
  {
    if e.TaskRuns? && Ends(w, e, sid).Some? then Finalizing
    else if Reopens(w, e, sid) then Ongoing
    else w.shared.sessions[sid].finalize
  }

  /** The stages an end meets: those before the step, and the next one when only the cache write after it failed. */
  function StagesThen(w: World, e: Event, sid: int): seq<Stage>
    requires sid in w.shared.sessions
  {
    var stages := w.shared.sessions[sid].stages;
    if !e.Response? || e.cid !in w.clients then stages
    else
      var c, o := w.clients[e.cid], e.responseFaults;
      if Unrecorded(w.shared, c, e.sid, o) || c.state == e.state || c.sessionId != sid || !Commits(w.shared, c, o)
      then stages
      else
        NextStages(w.shared.sessions[sid], c, e.state, o)
  }

  /** The end finalizes the session it meets. */
  ghost predicate EndFinalizes(w: World, e: Event, sid: int)
    requires sid in w.shared.sessions && Ends(w, e, sid).Some?
  {
    var s, f := w.shared.sessions[sid], Ends(w, e, sid).value.1;
    SessionWritten(s, f) && Faultless(s.(stages := StagesThen(w, e, sid)), f.faults)
  }

  /** What a step does to the statuses of a session. */
  ghost predicate StatusesRight(w: World, e: Event, sid: int, r: Session)
    requires sid in w.shared.sessions
  {
    var s := w.shared.sessions[sid];
    match Ends(w, e, sid)
    case None => r.status == StatusThen(w, e, sid) && r.finalize == FinalizeThen(w, e, sid)
    case Some((status, f)) =>
      && r.status == (if SessionWritten(s, f) then status else StatusThen(w, e, sid))
      && r.finalize == (if EndFinalizes(w, e, sid) then Finalized
                        else if FailureWritten(s, f) then Failed else FinalizeThen(w, e, sid))
  }

  lemma EndStatuses(m: Session, s: Session, status: Status, f: EndFaults)
    requires m.turnEvaluations == s.turnEvaluations
    ensures var r := End(m, status, f).0;
      && r.status == (if SessionWritten(s, f) then status else m.status)
      && r.finalize == (if SessionWritten(s, f) && Faultless(s.(stages := m.stages), f.faults) then Finalized
                        else if FailureWritten(s, f) then Failed else m.finalize)
  {
    EndAllOrFailed(m, status, f);
    assert Faultless(m, f.faults) <==> Faultless(s.(stages := m.stages), f.faults);
    hide End, Faultless, Scores.Overall;
  }

  /** The stages of its session that a failing handler leaves to the end it hands off. */
  lemma WrittenStages(w: World, e: Event)
    requires OnConnection(e) && e.cid in w.clients && w.clients[e.cid].sessionId in w.shared.sessions
    requires Fails(w.shared, w.clients[e.cid], e)
    ensures var sid := w.clients[e.cid].sessionId;
      && sid in Written(w.shared, w.clients[e.cid], e).sessions
      && Written(w.shared, w.clients[e.cid], e).sessions[sid].stages == StagesThen(w, e, sid)
  {
    var c := w.clients[e.cid];
    if e.Response? {
      ResponseStages(w.shared, c, e.sid, e.state, e.responseFaults);
      hide ResponseWritten, Commits, Unrecorded, StageFails;
    } else {
      hide TurnKnown;
    }
  }

  function NextStages(s: Session, c: Conn, state: string, o: ResponseFaults): seq<Stage>
    requires c.stateId.Some?
  {
    var last := if c.lastTurn.Some? then c.lastTurn.value else o.turnId;
    EndStages(s.stages, c.stateId.value, last) + [Stage(o.newId, state, false, None, false)]
  }

  lemma ResponseStages(w: Shared, c: Conn, sid: int, state: string, o: ResponseFaults)
    requires c.sessionId in w.sessions && ResponseFails(w, c, sid, state, o)
    ensures var s, w1 := w.sessions[c.sessionId], ResponseWritten(w, c, sid, state, o);
      && c.sessionId in w1.sessions
      && w1.sessions[c.sessionId].stages ==
           if Unrecorded(w, c, sid, o) || c.state == state || !Commits(w, c, o) then s.stages
           else NextStages(s, c, state, o)
  {
    var (told, stored) := StoreTurn(w, c.sessionId, o.turnId, state, o.stored);
    assert Unrecorded(w, c, sid, o) <==> c.sessionId != sid || !stored || !o.recorded;
    if c.sessionId == sid && stored && o.recorded && c.state != state {
      StageStages(w, told, c, state, o);
    }
    hide StageWritten, StageFails, Commits, TurnKnown, Unrecorded;
  }

  lemma StageStages(w: Shared, told: Shared, c: Conn, state: string, o: ResponseFaults)
    requires StoreTurn(w, c.sessionId, o.turnId, state, o.stored) == (told, true) && StageFails(w, c, o)
    ensures var w1 := StageWritten(told, c, state, o);
      && c.sessionId in w1.sessions
      && w1.sessions[c.sessionId].stages ==
           if Commits(w, c, o) then NextStages(w.sessions[c.sessionId], c, state, o)
           else w.sessions[c.sessionId].stages
  {
    NewestIsOwn(w, told, c, state, o);
    FirstFails(w, told, c, state, o);
    var lastTurn := LastTurn(told, c, state, o.looked);
    if c.stateId.Some? && lastTurn.Some? {
      UpdateStages(w, told, c, state, o);
    }
    assert Commits(w, c, o) ==> c.stateId.Some? && lastTurn.Some?;
    hide Commits, UpdateStage, LastTurn, StageKnown;
  }

  lemma UpdateStages(w: Shared, told: Shared, c: Conn, state: string, o: ResponseFaults)
    requires StoreTurn(w, c.sessionId, o.turnId, state, o.stored) == (told, true)
    requires c.stateId.Some? && LastTurn(told, c, state, o.looked).Some?
    ensures var w1 := UpdateStage(told, c, LastTurn(told, c, state, o.looked).value, state, o).0;
      && c.sessionId in w1.sessions
      && w1.sessions[c.sessionId].stages ==
           if Commits(w, c, o) then NextStages(w.sessions[c.sessionId], c, state, o)
           else w.sessions[c.sessionId].stages
  {
    NewestIsOwn(w, told, c, state, o);
    TurnIsNew(w, c.sessionId, o.turnId, state, LastTurn(told, c, state, o.looked).value);
    hide LastTurn, TurnKnown, StageKnown, EndStages;
  }

  /** Closing a connection replaces the row of its session by its end exactly when the hand-off is not published. */
  lemma ClosedRow(w: Shared, c: Conn, status: Status, h: Hangup, sid: int)
    requires sid in w.sessions
    ensures var after := Close(w, c, status, h).sessions;
      && sid in after
      && after[sid] == if c.sessionId == sid && !c.disconnecting && !c.finalized && !h.published
                       then End(w.sessions[sid], status, h.fallback).0 else w.sessions[sid]
  {
    hide End;
  }

  lemma HandlerEnds(w: World, e: Event, sid: int)
    requires OnConnection(e) && e.cid in w.clients && sid in w.shared.sessions
    ensures var c := w.clients[e.cid];
      Ends(w, e, sid) ==
        if Fails(w.shared, c, e) && c.sessionId == sid && !c.disconnecting && !c.finalized && !HangupOf(e).published
        then Some((ClosingStatus(e), HangupOf(e).fallback)) else None
  {
    hide Fails, HangupOf, ClosingStatus;
  }

  lemma HandlerRow(w: World, e: Event, sid: int)
    requires OnConnection(e) && e.cid in w.clients && sid in Written(w.shared, w.clients[e.cid], e).sessions
    requires sid in w.shared.sessions
    ensures var m := Written(w.shared, w.clients[e.cid], e).sessions[sid];
      var after := Handle(w.shared, w.clients[e.cid], e).0.sessions;
      && sid in after
      && after[sid] == match Ends(w, e, sid) case None => m case Some((status, f)) => End(m, status, f).0
  {
    var c := w.clients[e.cid];
    HandlerOutcome(w.shared, c, e);
    HandlerEnds(w, e, sid);
    ClosedRow(Written(w.shared, c, e), c, ClosingStatus(e), HangupOf(e), sid);
    hide Handle, Written, Fails, End, Close, ClosingStatus, HangupOf, Ends;
  }

  lemma ThenIsWritten(w: World, e: Event, sid: int)
    requires OnConnection(e) && e.cid in w.clients && sid in w.shared.sessions
    ensures StatusThen(w, e, sid) == WrittenStatus(w.shared, w.clients[e.cid], e, sid)
    ensures FinalizeThen(w, e, sid) == w.shared.sessions[sid].finalize
  {
  }

  lemma HandlerStatuses(w: World, e: Event, sid: int)
    requires OnConnection(e) && e.cid in w.clients && sid in w.shared.sessions
    ensures var after := Handle(w.shared, w.clients[e.cid], e).0.sessions;
      sid in after && StatusesRight(w, e, sid, after[sid])
  {
    var c := w.clients[e.cid];
    var written := Written(w.shared, c, e);
    WrittenColumns(w.shared, c, e);
    HandlerRow(w, e, sid);
    ThenIsWritten(w, e, sid);
    if Ends(w, e, sid).Some? {
      var (status, f) := Ends(w, e, sid).value;
      assert ClosesOpen(w, e, sid);
      WrittenStages(w, e);
      EndStatuses(written.sessions[sid], w.shared.sessions[sid], status, f);
    }
    hide Handle, Written, Fails, End, StatusThen, FinalizeThen, StagesThen, WrittenStatus, SessionWritten, Faultless,
      FailureWritten, Ends;
  }

  function Reopened(w: Shared, sid: int): Shared
    requires sid in w.sessions
  {
    w.(sessions := w.sessions[sid := w.sessions[sid].(finalize := Ongoing)])
  }

  lemma ConnectOutcome(w: Shared, cid: int, sid: int, o: ConnectFaults)
    requires sid in w.sessions
    ensures var s, c := w.sessions[sid], FreshConn(cid, sid);
      Connect(w, cid, sid, o).0 ==
        if !o.stateRead then Close(w, c, Cancelled, o.hangup)
        else if Over(s) then Close(w, c, s.status, o.hangup)
        else if !o.ongoingWrite then Close(w, Loaded(c, s), Cancelled, o.hangup)
        else if !o.agentStarted || !o.statusWrite then Close(Reopened(w, sid), Loaded(c, s), Cancelled, o.hangup)
        else w.(sessions := w.sessions[sid := s.(finalize := Ongoing, status := OnGoing)])
  {
    var s, c := w.sessions[sid], FreshConn(cid, sid);
    CloseIs(w, c, None, o.hangup);
    CloseIs(w, c, Some(s.status), o.hangup);
    CloseIs(w, Loaded(c, s), None, o.hangup);
    CloseIs(Reopened(w, sid), Loaded(c, s), None, o.hangup);
    assert Reopened(w, sid).sessions[sid := s.(finalize := Ongoing, status := OnGoing)]
        == w.sessions[sid := s.(finalize := Ongoing, status := OnGoing)];
    hide Disconnect, Close, Loaded;
  }

  /** The row of the session before the end a setup carries out, or when it is done. */
  function Met(w: World, e: Event, sid: int): Session
    requires sid in w.shared.sessions
  {
    w.shared.sessions[sid].(status := StatusThen(w, e, sid), finalize := FinalizeThen(w, e, sid))
  }

  lemma ConnectRow(w: World, e: Event, sid: int)
    requires e.Connecting? && e.cid !in w.clients && e.sid == sid && sid in w.shared.sessions
    ensures var after := Connect(w.shared, e.cid, e.sid, e.connectFaults).0.sessions;
      && sid in after
      && after[sid] == match Ends(w, e, sid)
                       case None => Met(w, e, sid)
                       case Some((status, f)) => End(Met(w, e, sid), status, f).0
  {
    var s, o, c := w.shared.sessions[sid], e.connectFaults, FreshConn(e.cid, sid);
    ConnectOutcome(w.shared, e.cid, sid, o);
    ClosedRow(w.shared, c, Cancelled, o.hangup, sid);
    ClosedRow(w.shared, c, s.status, o.hangup, sid);
    ClosedRow(w.shared, Loaded(c, s), Cancelled, o.hangup, sid);
    ClosedRow(Reopened(w.shared, sid), Loaded(c, s), Cancelled, o.hangup, sid);
    hide Connect, Close, End;
  }

  lemma ConnectOthers(w: Shared, cid: int, sid: int, o: ConnectFaults, t: int)
    requires t in w.sessions && t != sid
    ensures t in Connect(w, cid, sid, o).0.sessions && Connect(w, cid, sid, o).0.sessions[t] == w.sessions[t]
  {
    if sid in w.sessions {
      ConnectOutcome(w, cid, sid, o);
    }
    hide End, Connect;
  }

  lemma ConnectStatuses(w: World, e: Event, sid: int)
    requires e.Connecting? && e.cid !in w.clients && sid in w.shared.sessions
    ensures var after := Connect(w.shared, e.cid, e.sid, e.connectFaults).0.sessions;
      sid in after && StatusesRight(w, e, sid, after[sid])
  {
    var s := w.shared.sessions[sid];
    if e.sid == sid {
      ConnectRow(w, e, sid);
      if Ends(w, e, sid).Some? {
        var (status, f) := Ends(w, e, sid).value;
        EndStatuses(Met(w, e, sid), s, status, f);
        assert StagesThen(w, e, sid) == s.stages;
      }
      hide Connect, End, Ends, StatusThen, FinalizeThen, SessionWritten, Faultless, FailureWritten, StagesThen;
    } else {
      ConnectOthers(w.shared, e.cid, e.sid, e.connectFaults, sid);
      hide Connect;
    }
  }

  lemma TaskRow(w: World, e: Event, sid: int)
    requires e.TaskRuns? && sid in w.shared.sessions
    ensures var s, after := w.shared.sessions[sid], Step(w, e).shared.sessions;
      && sid in after
      && after[sid] == match Ends(w, e, sid)
                       case None => s
                       case Some((status, f)) => End(s.(finalize := Finalizing), status, f).0
  {
    hide End;
  }

  lemma TaskStatuses(w: World, e: Event, sid: int)
    requires e.TaskRuns? && sid in w.shared.sessions
    ensures var after := Step(w, e).shared.sessions; sid in after && StatusesRight(w, e, sid, after[sid])
  {
    var s := w.shared.sessions[sid];
    TaskRow(w, e, sid);
    EndStatuses(s.(finalize := Finalizing), s, e.task.status, e.endFaults);
    assert StagesThen(w, e, sid) == s.stages;
    hide Step, End, SessionWritten, Faultless, FailureWritten, StagesThen;
  }

  lemma ScoreStatuses(w: World, e: Event, sid: int)
    requires e.TurnScored? && sid in w.shared.sessions
    ensures var after := Step(w, e).shared.sessions; sid in after && StatusesRight(w, e, sid, after[sid])
  {
    if e.scoreTask.stageId.Some? {
      var s, t := w.shared.sessions[sid], e.scoreTask;
      CalculateStatuses(AddEvaluation(s, t, e.scoreFaults), t.stageId.value, t.phrase, e.scoreFaults.calculation);
    }
    hide Calculate, IsScored, CachedTurn;
  }

  lemma CalculateStatuses(s: Session, id: int, phrase: string, c: Calculation)
    ensures var r := Calculate(s, id, phrase, c).0; r.status == s.status && r.finalize == s.finalize
  {
  }

  /** Every step, whatever fails in it, does to the statuses of every session what the guards say. */
  lemma StepStatuses(w: World, e: Event, sid: int)
    requires sid in w.shared.sessions
    ensures sid in Step(w, e).shared.sessions && StatusesRight(w, e, sid, Step(w, e).shared.sessions[sid])
  {
    if e.TaskRuns? {
      TaskStatuses(w, e, sid);
      hide Step, StatusesRight;
    } else if e.TurnScored? {
      ScoreStatuses(w, e, sid);
      hide Step, StatusesRight;
    } else if e.Connecting? && e.cid !in w.clients {
      ConnectStatuses(w, e, sid);
      hide Connect, StatusesRight;
    } else if OnConnection(e) && e.cid in w.clients {
      HandlerStatuses(w, e, sid);
      hide Handle, StatusesRight;
    }
  }
}
