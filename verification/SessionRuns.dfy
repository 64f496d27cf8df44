/** Runs of live sessions: any number of connections, sessions and queued tasks, taking steps in any order. */
module SessionRuns {
  import opened Prelude
  import opened SessionStatus
  import opened SessionRecords
  import opened Evaluation
  import opened LiveSession

  datatype World = World(shared: Shared, clients: map<int, Conn>)

  datatype Event =
    | Connecting(cid: int, sid: int, connectFaults: ConnectFaults)
    | Response(cid: int, sid: int, state: string, responseFaults: ResponseFaults)
    | AgentCompleted(cid: int, sid: int, written: bool, hangup: Hangup)
    | Transcript(cid: int, sid: int, turn: Option<int>, transcriptFaults: TranscriptFaults)
    | UserEnds(cid: int, sid: int, published: bool, hangup: Hangup)
    | UserCompletes(cid: int, sid: int, published: bool, hangup: Hangup)
    | MonitorFires(cid: int, written: bool, hangup: Hangup)
    | Drops(cid: int, timedOut: bool, hangup: Hangup)
    | TaskRuns(task: Task, finalizingWrite: bool, endFaults: EndFaults, again: bool)
    | TurnScored(scoreTask: ScoreTask, scoreFaults: ScoreFaults)

  /** Events a connection takes part in once it is there. */
  predicate OnConnection(e: Event) {
    !e.Connecting? && !e.TaskRuns? && !e.TurnScored?
  }

  function Handle(w: Shared, c: Conn, e: Event): (Shared, Conn)
    requires OnConnection(e)
  {
    match e
    case Response(_, sid, state, o) => Respond(w, c, sid, state, o)
    case AgentCompleted(_, sid, written, h) => CompleteInterview(w, c, sid, written, h)
    case Transcript(_, sid, turn, o) => RecordTranscript(w, c, sid, turn, o)
    case UserEnds(_, sid, published, h) => UpdateInterviewSession(w, c, sid, Cancelled, published, h)
    case UserCompletes(_, sid, published, h) => UserComplete(w, c, sid, published, h)
    case MonitorFires(_, written, h) => Timeout(w, c, written, h)
    case Drops(_, timedOut, h) => Disconnect(w, c, if timedOut then Some(TimedOut) else None, h)
  }

  function Step(w: World, e: Event): World {
    if e.Connecting? then
      if e.cid in w.clients then w
      else
        var (shared, c) := Connect(w.shared, e.cid, e.sid, e.connectFaults);
        World(shared, w.clients[e.cid := c])
    else if e.TaskRuns? then w.(shared := RunTask(w.shared, e.task, e.finalizingWrite, e.endFaults, e.again))
    else if e.TurnScored? then w.(shared := ScoreTurn(w.shared, e.scoreTask, e.scoreFaults))
    else if e.cid !in w.clients then w
    else
      var (shared, c) := Handle(w.shared, w.clients[e.cid], e);
      World(shared, w.clients[e.cid := c])
  }

  function After(w: World, events: seq<Event>): World {
    if events == [] then w else Step(After(w, events[..|events| - 1]), events[|events| - 1])
  }
}
