/**
 A live interview session: the connections of the websocket server, the rows they change and the tasks they queue.
 Each message handler, connect, disconnect and task run is one step; databases, the cache, the queue and the agent
 may fail at every call, as a fault plan says.
 */
module LiveSession {
  import opened Prelude
  import opened SessionStatus
  import opened SessionRecords
  import opened Evaluation

  // ---------------------------------------------------------------- state

  /** A connection. The empty string and no id stand for "no stage yet". */
  datatype Conn = Conn(
    id: int, sessionId: int, state: string, stateId: Option<int>, lastTurn: Option<int>,
    connected: bool, disconnecting: bool, completed: bool, finalized: bool)

  /** The task of ending a session with a status. */
  datatype Task = Task(sessionId: int, status: Status)

  /** The task of scoring a turn, with phrase and stage of the connection the turn was spoken on. */
  datatype ScoreTask = ScoreTask(sessionId: int, turn: int, phrase: string, stageId: Option<int>)

  /**
   What outlives connections. Hand-offs are logged by the connection that made them; scoring tasks published are
   delivered at least once; the cache has the last turn of the stages that ended, by session and phrase.
   */
  datatype Shared = Shared(
    sessions: map<int, Session>, queue: multiset<Task>, handOffs: multiset<int>,
    scoring: set<ScoreTask>, lastTurns: map<(int, string), int>)

  // ---------------------------------------------------------------- faults

  /** Whether a task is published when a connection ends, and what happens to the fallback otherwise. */
  datatype Hangup = Hangup(published: bool, fallback: EndFaults)

  datatype ConnectFaults = ConnectFaults(
    stateRead: bool, ongoingWrite: bool, agentStarted: bool, statusWrite: bool, hangup: Hangup)

  /**
   Handling an interviewer's response: the id generated for its turn and storing it, caching its message, looking up
   the last turn, the id generated for a new stage, the statements of the stage transaction, the cache write after it.
   */
  datatype ResponseFaults = ResponseFaults(
    turnId: int, stored: bool, recorded: bool, looked: bool, newId: int, statementsSucceed: bool, cached: bool,
    hangup: Hangup)

  /**
   Handling a user's transcript: the segment matches and the last message is read, which names a phrase; the turn is
   stored; everything after that succeeds, up to publishing the scoring task.
   */
  datatype TranscriptFaults = TranscriptFaults(message: Option<string>, stored: bool, rest: bool, hangup: Hangup)

  /**
   Scoring a turn: everything up to storing its evaluation, with the scores the agent gives; flagging the turn; reading
   the last turn of the stage from the cache, where it may have expired; evaluating the stage; deleting the cached turn.
   */
  datatype ScoreFaults = ScoreFaults(
    scored: bool, criterionScores: nat, overallScore: string, flagged: bool, keyRead: bool, expired: bool,
    calculation: Calculation, deleted: bool)

  // ---------------------------------------------------------------- turns

  predicate HasTurn(turns: seq<Turn>, id: int) {
    exists t :: t in turns && t.id == id
  }

  predicate TurnKnown(sessions: map<int, Session>, id: int) {
    exists sid :: sid in sessions && HasTurn(sessions[sid].turns, id)
  }

  function AddTurn(s: Session, id: int, phrase: string): Session {
    s.(turns := s.turns + [Turn(id, phrase)])
  }

  /** Inserting a turn; the id is the primary key of all turns. */
  function StoreTurn(w: Shared, sid: int, id: int, phrase: string, ok: bool): (Shared, bool) {
    if ok && sid in w.sessions && !TurnKnown(w.sessions, id)
    then (w.(sessions := w.sessions[sid := AddTurn(w.sessions[sid], id, phrase)]), true)
    else (w, false)
  }

  /** The newest turn stored under a phrase, whoever spoke it. */
  function NewestTurn(turns: seq<Turn>, phrase: string): Option<int> {
    if turns == [] then None
    else if turns[|turns| - 1].phrase == phrase then Some(turns[|turns| - 1].id)
    else NewestTurn(turns[..|turns| - 1], phrase)
  }

  // ---------------------------------------------------------------- the stage transactions

  predicate StageKnown(sessions: map<int, Session>, id: int) {
    exists sid :: sid in sessions && HasStage(sessions[sid].stages, id)
  }

  function EndedIn(st: Stage, id: int, lastTurn: int): Stage {
    if st.id == id then st.(ended := true, lastTurn := Some(lastTurn)) else st
  }

  function EndStages(stages: seq<Stage>, id: int, lastTurn: int): seq<Stage> {
    seq(|stages|, i requires 0 <= i < |stages| => EndedIn(stages[i], id, lastTurn))
  }

  /** The update that ends a stage by its id, in whichever session it is. */
  function EndStageRow(sessions: map<int, Session>, id: int, lastTurn: int): map<int, Session> {
    map sid | sid in sessions :: sessions[sid].(stages := EndStages(sessions[sid].stages, id, lastTurn))
  }

  function AddStage(s: Session, id: int, phrase: string): Session {
    s.(stages := s.stages + [Stage(id, phrase, false, None, false)], current := Some((id, phrase)))
  }

  /** Inserting the first stage and pointing the session at it; the id is the primary key of all stages. */
  function FirstStageTx(w: Shared, sid: int, id: int, phrase: string, ok: bool): (Shared, bool) {
    if ok && sid in w.sessions && !StageKnown(w.sessions, id)
    then (w.(sessions := w.sessions[sid := AddStage(w.sessions[sid], id, phrase)]), true)
    else (w, false)
  }

  /** Ending the old stage with its last turn, a row of turns, inserting the new one and pointing the session at it. */
  function NextStageTx(
    w: Shared, sid: int, oldId: int, lastTurn: int, id: int, phrase: string, ok: bool): (Shared, bool)
  {
    if
      && ok && sid in w.sessions && StageKnown(w.sessions, oldId) && !StageKnown(w.sessions, id)
      && TurnKnown(w.sessions, lastTurn)
    then
      var ended := EndStageRow(w.sessions, oldId, lastTurn);
      (w.(sessions := ended[sid := AddStage(ended[sid], id, phrase)]), true)
    else (w, false)
  }

  // ---------------------------------------------------------------- handlers

  function EndIn(sessions: map<int, Session>, sid: int, status: Status, e: EndFaults): map<int, Session> {
    if sid in sessions then sessions[sid := End(sessions[sid], status, e).0] else sessions
  }

  /** Queues the end of the session, or ends it right away when publishing fails. */
  function HandOff(w: Shared, c: Conn, status: Status, h: Hangup): Shared {
    w.(queue := if h.published then w.queue + multiset{Task(c.sessionId, status)} else w.queue,
       sessions := if h.published then w.sessions else EndIn(w.sessions, c.sessionId, status, h.fallback),
       handOffs := w.handOffs + multiset{c.id})
  }

  function Closed(c: Conn): Conn {
    c.(disconnecting := true, connected := false)
  }

  function Disconnect(w: Shared, c: Conn, status: Option<Status>, h: Hangup): (Shared, Conn) {
    if c.disconnecting then (w, c)
    else if c.finalized then (w, Closed(c))
    else (HandOff(w, c, if status.Some? then status.value else Cancelled, h), Closed(c))
  }

  lemma SecondDisconnect(w: Shared, c: Conn, h: Hangup)
    ensures var (w1, c1) := Disconnect(w, c, None, h); Disconnect(w1, c1, None, h) == (w1, c1)
  {
  }

  function FreshConn(cid: int, sid: int): Conn {
    Conn(cid, sid, "", None, None, true, false, false, false)
  }

  function Loaded(c: Conn, s: Session): Conn {
    c.(state := if s.current.Some? then s.current.value.1 else "",
       stateId := if s.current.Some? then Some(s.current.value.0) else None,
       finalized := s.finalize == Finalized)
  }

  function Connect(w: Shared, cid: int, sid: int, o: ConnectFaults): (Shared, Conn) {
    var c := FreshConn(cid, sid);
    if !o.stateRead || sid !in w.sessions then Disconnect(w, c, None, o.hangup)
    else
      var s := w.sessions[sid];
      if s.status == TimedOut || s.status == Completed then Disconnect(w, c, Some(s.status), o.hangup)
      else
        var loaded := Loaded(c, s);
        if !o.ongoingWrite then Disconnect(w, loaded, None, o.hangup)
        else
          var marked := w.(sessions := w.sessions[sid := s.(finalize := Ongoing)]);
          if !o.agentStarted || !o.statusWrite then Disconnect(marked, loaded, None, o.hangup)
          else (marked.(sessions := marked.sessions[sid := s.(finalize := Ongoing, status := OnGoing)]), loaded)
  }

  /** The turn that ends a stage: the one the connection remembers, or else the newest stored under the new phrase. */
  function LastTurn(w: Shared, c: Conn, state: string, looked: bool): Option<int> {
    if c.lastTurn.Some? then c.lastTurn
    else if looked && c.sessionId in w.sessions then NewestTurn(w.sessions[c.sessionId].turns, state)
    else None
  }

  /** Moves to the next stage and caches the last turn of the old; a failed cache write is an error even then. */
  function UpdateStage(w: Shared, c: Conn, lastTurn: int, state: string, o: ResponseFaults): (Shared, bool)
    requires c.stateId.Some?
  {
    var (next, ok) := NextStageTx(w, c.sessionId, c.stateId.value, lastTurn, o.newId, state, o.statementsSucceed);
    if ok && o.cached then (next.(lastTurns := next.lastTurns[(c.sessionId, c.state) := lastTurn]), true)
    else (next, false)
  }

  /** The stage change an interviewer's response may bring. */
  function ChangeStage(w: Shared, c: Conn, state: string, o: ResponseFaults): (Shared, Conn) {
    if c.stateId == None && c.state == "" then
      var (next, ok) := FirstStageTx(w, c.sessionId, o.newId, state, o.statementsSucceed);
      if ok then (next, c.(state := state, stateId := Some(o.newId))) else Disconnect(next, c, None, o.hangup)
    else
      var lastTurn := LastTurn(w, c, state, o.looked);
      var (next, ok) :=
        if lastTurn.None? || c.stateId.None? then (w, false) else UpdateStage(w, c, lastTurn.value, state, o);
      if ok then (next, c.(state := state, stateId := Some(o.newId))) else Disconnect(next, c, None, o.hangup)
  }

  function Respond(w: Shared, c: Conn, sid: int, state: string, o: ResponseFaults): (Shared, Conn) {
    if c.sessionId != sid then Disconnect(w, c, None, o.hangup)
    else
      var (told, stored) := StoreTurn(w, sid, o.turnId, state, o.stored);
      if !stored || !o.recorded then Disconnect(told, c, None, o.hangup)
      else if c.state == state then (told, c)
      else ChangeStage(told, c, state, o)
  }

  function WriteStatus(sessions: map<int, Session>, sid: int, status: Status): map<int, Session> {
    if sid in sessions then sessions[sid := sessions[sid].(status := status)] else sessions
  }

  function CompleteInterview(w: Shared, c: Conn, sid: int, written: bool, h: Hangup): (Shared, Conn) {
    if c.sessionId != sid || !written || sid !in w.sessions then Disconnect(w, c, None, h)
    else (w.(sessions := WriteStatus(w.sessions, sid, Completed)), c.(completed := true))
  }

  /** Stores the turn and publishes the task that scores it. */
  function SaveTranscript(w: Shared, c: Conn, turn: Option<int>, o: TranscriptFaults): (Shared, bool)
    requires o.message.Some?
  {
    if turn.None? then (w, false)
    else
      var (told, stored) := StoreTurn(w, c.sessionId, turn.value, o.message.value, o.stored);
      if !stored || !o.rest then (told, false)
      else (told.(scoring := told.scoring + {ScoreTask(c.sessionId, turn.value, c.state, c.stateId)}), true)
  }

  function RecordTranscript(w: Shared, c: Conn, sid: int, turn: Option<int>, o: TranscriptFaults): (Shared, Conn) {
    if c.sessionId != sid || o.message.None? then Disconnect(w, c, None, o.hangup)
    else
      var (next, ok) := SaveTranscript(w, c, turn, o);
      if ok then (next, c.(lastTurn := turn)) else Disconnect(next, c.(lastTurn := turn), None, o.hangup)
  }

  function UpdateInterviewSession(
    w: Shared, c: Conn, sid: int, status: Status, published: bool, h: Hangup): (Shared, Conn)
  {
    if c.sessionId != sid || !published then Disconnect(w, c, None, h)
    else (w.(queue := w.queue + multiset{Task(sid, status)}), c.(finalized := true))
  }

  function UserComplete(w: Shared, c: Conn, sid: int, published: bool, h: Hangup): (Shared, Conn) {
    if !c.completed then Disconnect(w, c, None, h) else UpdateInterviewSession(w, c, sid, Completed, published, h)
  }

  /** The inactivity monitor gives up; it has stopped when the connection is closed. */
  function Timeout(w: Shared, c: Conn, written: bool, h: Hangup): (Shared, Conn) {
    if !c.connected || c.disconnecting then (w, c)
    else
      var marked := w.(sessions := if written then WriteStatus(w.sessions, c.sessionId, TimedOut) else w.sessions);
      Disconnect(marked, c, Some(TimedOut), h)
  }

  /** A worker takes a task; a failed task may be queued again. */
  function RunTask(w: Shared, t: Task, finalizingWrite: bool, e: EndFaults, again: bool): Shared {
    if t !in w.queue then w
    else
      var rest := if again then w else w.(queue := w.queue - multiset{t});
      if !finalizingWrite || t.sessionId !in w.sessions then rest
      else
        var marked := w.sessions[t.sessionId].(finalize := Finalizing);
        rest.(sessions := EndIn(w.sessions[t.sessionId := marked], t.sessionId, t.status, e))
  }

  predicate IsScored(s: Session, turn: int) {
    exists e :: e in s.turnEvaluations && e.turn == turn
  }

  /** The last turn cached for the stage a task belongs to, unless it has expired. */
  function CachedTurn(w: Shared, t: ScoreTask, o: ScoreFaults): Option<int> {
    var key := (t.sessionId, t.phrase);
    if key in w.lastTurns && !o.expired then Some(w.lastTurns[key]) else None
  }

  /** Storing the evaluation of a turn. */
  function AddEvaluation(s: Session, t: ScoreTask, o: ScoreFaults): Session {
    var evaluation := TurnEvaluation(t.turn, t.phrase, o.criterionScores, o.overallScore);
    s.(turnEvaluations := s.turnEvaluations + [evaluation])
  }

  /**
   A worker scores a turn. A turn is evaluated once, by a unique index; when the cache names it as the last of its
   stage, the stage is evaluated, and the cached turn is deleted whether or not it was this one.
   */
  function ScoreTurn(w: Shared, t: ScoreTask, o: ScoreFaults): Shared {
    if t !in w.scoring || !o.scored || t.sessionId !in w.sessions || IsScored(w.sessions[t.sessionId], t.turn) then w
    else
      var s := AddEvaluation(w.sessions[t.sessionId], t, o);
      if !o.flagged || !o.keyRead then w.(sessions := w.sessions[t.sessionId := s])
      else
        var triggers := CachedTurn(w, t, o) == Some(t.turn) && t.stageId.Some?;
        w.(sessions := w.sessions[t.sessionId :=
             if triggers then Calculate(s, t.stageId.value, t.phrase, o.calculation).0 else s],
           lastTurns := if o.deleted || o.expired then w.lastTurns - {(t.sessionId, t.phrase)} else w.lastTurns)
  }
}
