/**
 The last turn of a stage: remembered by its connection, cached when the stage ends, and compared with each turn scored.
 In orderly runs no stage is evaluated twice for it.
 */
module LastTurns {
  import opened Prelude
  import opened SessionStatus
  import opened SessionRecords
  import opened Evaluation
  import opened LiveSession
  import opened SessionRuns
  import opened StageLedger
  import opened EvaluationRuns
  import Finalization

  // ---------------------------------------------------------------- looking up a last turn

  /** The lookup yields the turn inserted last among those of the phrase, none without such a turn. */
  lemma {:induction false} NewestTurnIs(turns: seq<Turn>, phrase: string)
    ensures NewestTurn(turns, phrase).None? <==> forall i :: 0 <= i < |turns| ==> turns[i].phrase != phrase
    ensures NewestTurn(turns, phrase).Some? ==>
      exists i :: 0 <= i < |turns| && turns[i] == Turn(NewestTurn(turns, phrase).value, phrase)
                  && forall j :: i < j < |turns| ==> turns[j].phrase != phrase
  {
    if turns != [] && turns[|turns| - 1].phrase != phrase {
      var front := turns[..|turns| - 1];
      NewestTurnIs(front, phrase);
      if NewestTurn(front, phrase).Some? {
        var i :| 0 <= i < |front| && front[i] == Turn(NewestTurn(front, phrase).value, phrase)
                 && forall j :: i < j < |front| ==> front[j].phrase != phrase;
        assert turns[i] == front[i];
      } else {
        assert forall i :: 0 <= i < |front| ==> front[i] == turns[i];
      }
    }
  }

  /**
   The lookup names the new phrase and asks for no speaker: it always finds the turn of the response being handled. A
   stage ended by a connection that remembers no turn of a user gets the interviewer's own turn as its last.
   */
  lemma LookupFindsOwnTurn(w: Shared, c: Conn, state: string, o: ResponseFaults)
    requires c.lastTurn.None? && StoreTurn(w, c.sessionId, o.turnId, state, o.stored).1
    ensures var told := StoreTurn(w, c.sessionId, o.turnId, state, o.stored).0;
      LastTurn(told, c, state, o.looked) == if o.looked then Some(o.turnId) else None
  {
  }

  // ---------------------------------------------------------------- the invariant

  /** Turns published are rows, each is published once, and a stage they name is a row too. */
  ghost predicate Tasks(w: Shared) {
    && (forall a, b :: a in w.scoring && b in w.scoring && a.turn == b.turn ==> a == b)
    && (forall a :: a in w.scoring ==>
         && a.sessionId in w.sessions && HasTurn(w.sessions[a.sessionId].turns, a.turn)
         && (a.stageId.Some? ==> HasStage(w.sessions[a.sessionId].stages, a.stageId.value)))
  }

  /** A turn of a stage of the session is named only as the last one of that stage. */
  ghost predicate NamedAsLast(w: Shared, sid: int, turn: int) {
    forall a, st ::
      && a in w.scoring && a.sessionId == sid && a.turn == turn && sid in w.sessions
      && st in w.sessions[sid].stages && a.stageId == Some(st.id)
      ==> st.lastTurn == Some(turn)
  }

  ghost predicate Keys(w: Shared) {
    forall key :: key in w.lastTurns ==>
      TurnKnown(w.sessions, w.lastTurns[key]) && NamedAsLast(w, key.0, w.lastTurns[key])
  }

  /** A stage has a last turn from the moment it ends. */
  ghost predicate Lines(w: Shared) {
    forall sid, st :: sid in w.sessions && st in w.sessions[sid].stages && !st.ended ==> st.lastTurn.None?
  }

  /** The turn a connection remembers, if it was spoken in a stage that has ended, is the last one of that stage. */
  ghost predicate Remembers(w: Shared, sid: int, turn: int) {
    && TurnKnown(w.sessions, turn)
    && forall a, st ::
      && a in w.scoring && a.sessionId == sid && a.turn == turn && sid in w.sessions
      && st in w.sessions[sid].stages && a.stageId == Some(st.id) && st.ended
      ==> st.lastTurn == Some(turn)
  }

  ghost predicate ConnTurns(w: Shared, c: Conn) {
    c.lastTurn.Some? ==> Remembers(w, c.sessionId, c.lastTurn.value)
  }

  ghost predicate Rows(w: Shared) {
    Tasks(w) && Keys(w) && Lines(w)
  }

  ghost predicate TurnInv(w: World) {
    Rows(w.shared) && forall cid :: Live(w, cid) ==> ConnTurns(w.shared, w.clients[cid])
  }

  // ---------------------------------------------------------------- changes that end no stage and publish no turn

  predicate SameLine(a: Stage, b: Stage) {
    b.id == a.id && b.ended == a.ended && b.lastTurn == a.lastTurn
  }

  /** The same stages up to flags, and possibly new ones that are open. */
  ghost predicate SameLines(a: seq<Stage>, b: seq<Stage>) {
    && |a| <= |b|
    && (forall i :: 0 <= i < |a| ==> SameLine(a[i], b[i]))
    && (forall i :: |a| <= i < |b| ==> !b[i].ended && b[i].lastTurn.None? && !HasStage(a, b[i].id))
  }

  ghost predicate QuietRow(s: Session, r: Session) {
    s.turns <= r.turns && SameLines(s.stages, r.stages)
  }

  ghost predicate QuietRows(a: map<int, Session>, b: map<int, Session>) {
    a.Keys == b.Keys && forall sid :: sid in a ==> QuietRow(a[sid], b[sid])
  }

  ghost predicate Quiet(w: Shared, w1: Shared) {
    && QuietRows(w.sessions, w1.sessions) && w1.scoring == w.scoring
    && forall key :: key in w1.lastTurns ==> key in w.lastTurns && w1.lastTurns[key] == w.lastTurns[key]
  }

  lemma QuietTurns(a: map<int, Session>, b: map<int, Session>, id: int)
    requires QuietRows(a, b) && TurnKnown(a, id)
    ensures TurnKnown(b, id)
  {
    var sid :| sid in a && HasTurn(a[sid].turns, id);
    assert QuietRow(a[sid], b[sid]);
    var t :| t in a[sid].turns && t.id == id;
    assert t in b[sid].turns;
  }

  lemma QuietTasks(w: Shared, w1: Shared)
    requires Tasks(w) && Quiet(w, w1)
    ensures Tasks(w1)
  {
    forall a | a in w.scoring
      ensures a.sessionId in w1.sessions && HasTurn(w1.sessions[a.sessionId].turns, a.turn)
      ensures a.stageId.Some? ==> HasStage(w1.sessions[a.sessionId].stages, a.stageId.value)
    {
      var s, r := w.sessions[a.sessionId], w1.sessions[a.sessionId];
      assert QuietRow(s, r);
      var t :| t in s.turns && t.id == a.turn;
      assert t in r.turns;
      if a.stageId.Some? {
        var i :| 0 <= i < |s.stages| && s.stages[i].id == a.stageId.value;
        assert SameLine(s.stages[i], r.stages[i]);
        assert r.stages[i] in r.stages;
      }
    }
  }

  /** A stage a task names was there before, with the same last turn. */
  lemma OldLine(w: Shared, w1: Shared, a: ScoreTask, st: Stage)
    requires Tasks(w) && Quiet(w, w1) && a in w.scoring && a.stageId == Some(st.id)
    requires st in w1.sessions[a.sessionId].stages
    ensures exists prior :: prior in w.sessions[a.sessionId].stages && SameLine(prior, st)
  {
    var s, r := w.sessions[a.sessionId], w1.sessions[a.sessionId];
    assert QuietRow(s, r);
    var i :| 0 <= i < |r.stages| && r.stages[i] == st;
    assert i < |s.stages|;
    assert SameLine(s.stages[i], r.stages[i]);
  }

  lemma QuietNames(w: Shared, w1: Shared, sid: int, turn: int)
    requires Tasks(w) && Quiet(w, w1)
    ensures NamedAsLast(w, sid, turn) ==> NamedAsLast(w1, sid, turn)
    ensures Remembers(w, sid, turn) ==> Remembers(w1, sid, turn)
  {
    forall a, st | a in w.scoring && a.sessionId == sid && a.turn == turn && sid in w1.sessions
                   && st in w1.sessions[sid].stages && a.stageId == Some(st.id)
      ensures NamedAsLast(w, sid, turn) || (Remembers(w, sid, turn) && st.ended) ==> st.lastTurn == Some(turn)
    {
      OldLine(w, w1, a, st);
      var prior :| prior in w.sessions[sid].stages && SameLine(prior, st);
    }
    if TurnKnown(w.sessions, turn) {
      QuietTurns(w.sessions, w1.sessions, turn);
    }
  }

  lemma QuietLines(w: Shared, w1: Shared)
    requires Lines(w) && Quiet(w, w1)
    ensures Lines(w1)
  {
    forall sid, st | sid in w1.sessions && st in w1.sessions[sid].stages && !st.ended ensures st.lastTurn.None? {
      var s, r := w.sessions[sid], w1.sessions[sid];
      assert QuietRow(s, r);
      var i :| 0 <= i < |r.stages| && r.stages[i] == st;
      if i < |s.stages| {
        assert SameLine(s.stages[i], r.stages[i]);
        assert s.stages[i] in s.stages;
      }
    }
  }

  lemma QuietKeeps(w: Shared, w1: Shared)
    requires Rows(w) && Quiet(w, w1)
    ensures Rows(w1)
    ensures forall c :: ConnTurns(w, c) ==> ConnTurns(w1, c)
  {
    QuietTasks(w, w1);
    QuietLines(w, w1);
    hide Tasks, Lines, NamedAsLast, Remembers, QuietRows;
    forall key | key in w1.lastTurns
      ensures TurnKnown(w1.sessions, w1.lastTurns[key]) && NamedAsLast(w1, key.0, w1.lastTurns[key])
    {
      QuietTurns(w.sessions, w1.sessions, w.lastTurns[key]);
      QuietNames(w, w1, key.0, w.lastTurns[key]);
    }
    forall c | ConnTurns(w, c) ensures ConnTurns(w1, c) {
      if c.lastTurn.Some? {
        QuietNames(w, w1, c.sessionId, c.lastTurn.value);
      }
    }
  }

  // ---------------------------------------------------------------- which changes these are

  lemma SameRow(s: Session, r: Session)
    requires r.turns == s.turns && OnlyEvaluated(s.stages, r.stages)
    ensures QuietRow(s, r)
  {
  }

  lemma AllQuiet(sessions: map<int, Session>)
    ensures QuietRows(sessions, sessions)
  {
    forall sid | sid in sessions ensures QuietRow(sessions[sid], sessions[sid]) {
      SameRow(sessions[sid], sessions[sid]);
    }
  }

  lemma ReplaceQuiet(sessions: map<int, Session>, sid: int, r: Session)
    requires sid in sessions && QuietRow(sessions[sid], r)
    ensures QuietRows(sessions, sessions[sid := r])
  {
    AllQuiet(sessions);
    hide QuietRow;
  }

  lemma StagesStay(a: seq<Stage>, b: seq<Stage>, id: int)
    requires SameLines(a, b)
    ensures HasStage(a, id) ==> HasStage(b, id)
  {
    if HasStage(a, id) {
      var j :| 0 <= j < |a| && a[j].id == id;
      assert SameLine(a[j], b[j]);
      assert b[j] in b;
    }
  }

  lemma RowChain(a: Session, b: Session, c: Session)
    requires QuietRow(a, b) && QuietRow(b, c)
    ensures QuietRow(a, c)
  {
    forall i | |a.stages| <= i < |c.stages|
      ensures !c.stages[i].ended && c.stages[i].lastTurn.None? && !HasStage(a.stages, c.stages[i].id)
    {
      if i < |b.stages| {
        assert SameLine(b.stages[i], c.stages[i]);
      } else {
        StagesStay(a.stages, b.stages, c.stages[i].id);
      }
    }
    forall i | 0 <= i < |a.stages| ensures SameLine(a.stages[i], c.stages[i]) {
      assert SameLine(a.stages[i], b.stages[i]) && SameLine(b.stages[i], c.stages[i]);
    }
  }

  lemma QuietChain(w: Shared, w1: Shared, w2: Shared)
    requires Quiet(w, w1) && Quiet(w1, w2)
    ensures Quiet(w, w2)
  {
    forall sid | sid in w.sessions ensures QuietRow(w.sessions[sid], w2.sessions[sid]) {
      RowChain(w.sessions[sid], w1.sessions[sid], w2.sessions[sid]);
    }
    hide QuietRow;
  }

  lemma EndQuiet(s: Session, status: Status, e: EndFaults)
    ensures QuietRow(s, End(s, status, e).0)
  {
    Finalization.EndIs(s, status, e);
    Finalization.EndKeeps(s, status, e);
    hide End, Finalization.AddedByEnd;
    SameRow(s, End(s, status, e).0);
  }

  lemma EndInQuiet(sessions: map<int, Session>, sid: int, status: Status, e: EndFaults)
    ensures QuietRows(sessions, EndIn(sessions, sid, status, e))
  {
    AllQuiet(sessions);
    if sid in sessions {
      EndQuiet(sessions[sid], status, e);
      hide End, QuietRow;
      ReplaceQuiet(sessions, sid, End(sessions[sid], status, e).0);
    }
  }

  lemma DisconnectQuiet(w: Shared, c: Conn, status: Option<Status>, h: Hangup)
    ensures Quiet(w, Disconnect(w, c, status, h).0)
    ensures Disconnect(w, c, status, h).1.disconnecting
  {
    AllQuiet(w.sessions);
    EndInQuiet(w.sessions, c.sessionId, if status.Some? then status.value else Cancelled, h.fallback);
    hide EndIn, QuietRow;
  }

  lemma StoreTurnQuiet(w: Shared, sid: int, id: int, phrase: string, ok: bool)
    ensures Quiet(w, StoreTurn(w, sid, id, phrase, ok).0)
  {
    AllQuiet(w.sessions);
    if sid in w.sessions {
      assert QuietRow(w.sessions[sid], AddTurn(w.sessions[sid], id, phrase));
      hide QuietRow, TurnKnown;
      ReplaceQuiet(w.sessions, sid, AddTurn(w.sessions[sid], id, phrase));
    }
  }

  lemma AddStageQuiet(s: Session, id: int, phrase: string)
    requires !HasStage(s.stages, id)
    ensures QuietRow(s, AddStage(s, id, phrase))
  {
  }

  lemma FirstStageQuiet(w: Shared, sid: int, id: int, phrase: string, ok: bool)
    ensures Quiet(w, FirstStageTx(w, sid, id, phrase, ok).0)
  {
    AllQuiet(w.sessions);
    if FirstStageTx(w, sid, id, phrase, ok).1 {
      assert !HasStage(w.sessions[sid].stages, id);
      AddStageQuiet(w.sessions[sid], id, phrase);
      hide QuietRow, HasStage;
      ReplaceQuiet(w.sessions, sid, AddStage(w.sessions[sid], id, phrase));
    }
  }

  lemma StatusQuiet(w: Shared, sid: int, status: Status)
    ensures Quiet(w, w.(sessions := WriteStatus(w.sessions, sid, status)))
    ensures Quiet(w, w)
  {
    AllQuiet(w.sessions);
    if sid in w.sessions {
      SameRow(w.sessions[sid], w.sessions[sid].(status := status));
      hide QuietRow;
      ReplaceQuiet(w.sessions, sid, w.sessions[sid].(status := status));
    }
  }

  lemma ConnectQuiet(w: Shared, cid: int, sid: int, o: ConnectFaults)
    ensures var (w1, c1) := Connect(w, cid, sid, o); Quiet(w, w1) && (!c1.disconnecting ==> c1.lastTurn.None?)
  {
    hide Disconnect;
    var c := FreshConn(cid, sid);
    DisconnectQuiet(w, c, None, o.hangup);
    if sid in w.sessions {
      var s := w.sessions[sid];
      var ongoing, live := s.(finalize := Ongoing), s.(finalize := Ongoing, status := OnGoing);
      var marked := w.(sessions := w.sessions[sid := ongoing]);
      SameRow(s, ongoing);
      SameRow(s, live);
      hide QuietRow;
      ReplaceQuiet(w.sessions, sid, ongoing);
      ReplaceQuiet(w.sessions, sid, live);
      assert marked.sessions[sid := live] == w.sessions[sid := live];
      DisconnectQuiet(w, c, Some(s.status), o.hangup);
      DisconnectQuiet(w, Loaded(c, s), None, o.hangup);
      DisconnectQuiet(marked, Loaded(c, s), None, o.hangup);
      QuietChain(w, marked, Disconnect(marked, Loaded(c, s), None, o.hangup).0);
    }
  }

  lemma TaskQuiet(w: Shared, t: Task, finalizingWrite: bool, e: EndFaults, again: bool)
    ensures Quiet(w, RunTask(w, t, finalizingWrite, e, again))
  {
    hide EndIn;
    AllQuiet(w.sessions);
    if t.sessionId in w.sessions {
      var finalizing := w.sessions[t.sessionId].(finalize := Finalizing);
      SameRow(w.sessions[t.sessionId], finalizing);
      hide QuietRow;
      ReplaceQuiet(w.sessions, t.sessionId, finalizing);
      var marked := w.(sessions := w.sessions[t.sessionId := finalizing]);
      EndInQuiet(marked.sessions, t.sessionId, t.status, e);
      QuietChain(w, marked, marked.(sessions := EndIn(marked.sessions, t.sessionId, t.status, e)));
    }
  }

  lemma ScoreQuiet(w: Shared, t: ScoreTask, o: ScoreFaults)
    ensures Quiet(w, ScoreTurn(w, t, o))
  {
    AllQuiet(w.sessions);
    hide Calculate, IsScored, CachedTurn;
    if t.sessionId in w.sessions {
      var s := AddEvaluation(w.sessions[t.sessionId], t, o);
      SameRow(w.sessions[t.sessionId], s);
      if t.stageId.Some? {
        CalculateKeeps(s, t.stageId.value, t.phrase, o.calculation);
        CalculateTurns(s, t.stageId.value, t.phrase, o.calculation);
        SameRow(w.sessions[t.sessionId], Calculate(s, t.stageId.value, t.phrase, o.calculation).0);
        hide QuietRow;
        ReplaceQuiet(w.sessions, t.sessionId, Calculate(s, t.stageId.value, t.phrase, o.calculation).0);
      }
      hide QuietRow;
      ReplaceQuiet(w.sessions, t.sessionId, s);
    }
  }

  lemma CalculateTurns(s: Session, id: int, phrase: string, c: Calculation)
    ensures Calculate(s, id, phrase, c).0.turns == s.turns
  {
  }

  // ---------------------------------------------------------------- publishing a turn

  lemma PublishNames(w: Shared, t: ScoreTask, sid: int, turn: int)
    requires turn != t.turn
    ensures var w1 := w.(scoring := w.scoring + {t});
      && (NamedAsLast(w, sid, turn) ==> NamedAsLast(w1, sid, turn))
      && (Remembers(w, sid, turn) ==> Remembers(w1, sid, turn))
  {
    hide TurnKnown;
  }

  lemma PublishTasks(w: Shared, t: ScoreTask)
    requires Tasks(w) && forall a :: a in w.scoring ==> a.turn != t.turn
    requires t.sessionId in w.sessions && HasTurn(w.sessions[t.sessionId].turns, t.turn)
    requires t.stageId.Some? ==> HasStage(w.sessions[t.sessionId].stages, t.stageId.value)
    requires forall st :: st in w.sessions[t.sessionId].stages && t.stageId == Some(st.id) ==> !st.ended
    ensures var w1 := w.(scoring := w.scoring + {t}); Tasks(w1) && Remembers(w1, t.sessionId, t.turn)
  {
  }

  /** A turn new to the table is published for the open stage of its connection. */
  lemma PublishKeeps(w: Shared, told: Shared, t: ScoreTask)
    requires Rows(w) && Quiet(w, told) && !TurnKnown(w.sessions, t.turn)
    requires t.sessionId in told.sessions && HasTurn(told.sessions[t.sessionId].turns, t.turn)
    requires t.stageId.Some? ==> HasStage(told.sessions[t.sessionId].stages, t.stageId.value)
    requires forall st :: st in told.sessions[t.sessionId].stages && t.stageId == Some(st.id) ==> !st.ended
    ensures var w1 := told.(scoring := told.scoring + {t});
      && Rows(w1) && Remembers(w1, t.sessionId, t.turn)
      && forall c :: ConnTurns(w, c) ==> ConnTurns(w1, c)
  {
    var w1 := told.(scoring := told.scoring + {t});
    QuietKeeps(w, told);
    forall a | a in w.scoring ensures a.turn != t.turn {
      assert TurnKnown(w.sessions, a.turn);
    }
    PublishTasks(told, t);
    hide QuietRows, Tasks, NamedAsLast;
    forall key | key in w1.lastTurns
      ensures TurnKnown(w1.sessions, w1.lastTurns[key]) && NamedAsLast(w1, key.0, w1.lastTurns[key])
    {
      PublishNames(told, t, key.0, w1.lastTurns[key]);
    }
    forall c | ConnTurns(w, c) ensures ConnTurns(w1, c) {
      if c.lastTurn.Some? {
        assert TurnKnown(w.sessions, c.lastTurn.value);
        hide Remembers;
        assert Remembers(told, c.sessionId, c.lastTurn.value);
        PublishNames(told, t, c.sessionId, c.lastTurn.value);
      }
    }
  }

  // ---------------------------------------------------------------- ending a stage

  lemma NextLines(s: Session, oldId: int, turn: int, id: int, phrase: string)
    ensures forall st :: st in NextStage(s, oldId, turn, id, phrase).stages ==>
      || st == Stage(id, phrase, false, None, false)
      || (st.id == oldId && st.ended && st.lastTurn == Some(turn))
      || (st in s.stages && st.id != oldId)
  {
  }

  /** What a stage change starts from: the current stage is the one that ends, with a turn that may be its last. */
  ghost predicate MayMove(w: Shared, sid: int, oldId: int, turn: int, id: int) {
    && Sound(w.sessions) && sid in w.sessions && !StageKnown(w.sessions, id)
    && w.sessions[sid].current.Some? && w.sessions[sid].current.value.0 == oldId && Remembers(w, sid, turn)
  }

  function Moved(w: Shared, sid: int, oldId: int, turn: int, id: int, phrase: string): Shared
    requires sid in w.sessions
  {
    w.(sessions := w.sessions[sid := NextStage(w.sessions[sid], oldId, turn, id, phrase)])
  }

  lemma CurrentIsOpen(w: Shared, sid: int, st: Stage)
    requires Sound(w.sessions) && Lines(w) && sid in w.sessions && st in w.sessions[sid].stages
    requires w.sessions[sid].current.Some?
    ensures st.id == w.sessions[sid].current.value.0 ==> !st.ended && st.lastTurn.None?
    ensures st.id != w.sessions[sid].current.value.0 ==> st.ended
    ensures HasStage(w.sessions[sid].stages, w.sessions[sid].current.value.0)
    ensures LastOf(w.sessions[sid].stages) in w.sessions[sid].stages
  {
    var stages := w.sessions[sid].stages;
    assert Ledger(w.sessions[sid]);
    var i :| 0 <= i < |stages| && stages[i] == st;
    assert LastOf(stages) in stages;
  }

  lemma MovedNames(w: Shared, sid: int, oldId: int, turn: int, id: int, phrase: string, t: int, named: int)
    requires Tasks(w) && Lines(w) && MayMove(w, sid, oldId, turn, id)
    ensures var w1 := Moved(w, sid, oldId, turn, id, phrase);
      && (NamedAsLast(w, t, named) ==> NamedAsLast(w1, t, named))
      && (t != sid && Remembers(w, t, named) ==> Remembers(w1, t, named))
      && NamedAsLast(w1, sid, turn) && Remembers(w1, sid, turn)
  {
    var w1 := Moved(w, sid, oldId, turn, id, phrase);
    var s := w.sessions[sid];
    NextLines(s, oldId, turn, id, phrase);
    MovedTurns(w, sid, oldId, turn, id, phrase);
    var last := LastOf(s.stages);
    assert Ledger(s);
    CurrentIsOpen(w, sid, last);
    assert last.id == oldId;
    hide StageKnown, TurnKnown, NextStage;
    forall a, st | a in w.scoring && a.sessionId == sid && st in w1.sessions[sid].stages && a.stageId == Some(st.id)
      ensures a.turn == turn ==> st.lastTurn == Some(turn)
      ensures a.turn == named && t == sid && NamedAsLast(w, t, named) ==> st.lastTurn == Some(named)
    {
      FreshStage(w, a, id);
      if st.id != oldId {
        CurrentIsOpen(w, sid, st);
      } else if a.turn == named && t == sid && NamedAsLast(w, t, named) {
        assert false;
      }
    }
  }

  lemma FreshStage(w: Shared, a: ScoreTask, id: int)
    requires Tasks(w) && a in w.scoring && !StageKnown(w.sessions, id)
    ensures a.stageId != Some(id)
  {
  }

  lemma MovedTurns(w: Shared, sid: int, oldId: int, turn: int, id: int, phrase: string)
    requires sid in w.sessions
    ensures forall t :: TurnKnown(w.sessions, t) <==> TurnKnown(Moved(w, sid, oldId, turn, id, phrase).sessions, t)
  {
    var after := Moved(w, sid, oldId, turn, id, phrase).sessions;
    assert after.Keys == w.sessions.Keys;
    assert forall t :: t in after ==> after[t].turns == w.sessions[t].turns;
  }

  lemma MovedTasks(w: Shared, sid: int, oldId: int, turn: int, id: int, phrase: string)
    requires Tasks(w) && Lines(w) && sid in w.sessions
    ensures Tasks(Moved(w, sid, oldId, turn, id, phrase)) && Lines(Moved(w, sid, oldId, turn, id, phrase))
  {
    NextLines(w.sessions[sid], oldId, turn, id, phrase);
    NextIds(w.sessions[sid], oldId, turn, id, phrase);
    hide HasStage;
  }

  /** The stage change, with the last turn cached or not. */
  function MovedOn(
    w: Shared, sid: int, oldId: int, turn: int, id: int, phrase: string, key: string, cached: bool): Shared
    requires sid in w.sessions
  {
    var w1 := Moved(w, sid, oldId, turn, id, phrase);
    if cached then w1.(lastTurns := w1.lastTurns[(sid, key) := turn]) else w1
  }

  lemma MovedOnNames(
    w: Shared, sid: int, oldId: int, turn: int, id: int, phrase: string, key: string, cached: bool, t: int, named: int)
    requires Tasks(w) && Lines(w) && MayMove(w, sid, oldId, turn, id)
    ensures var w1 := MovedOn(w, sid, oldId, turn, id, phrase, key, cached);
      && (NamedAsLast(w, t, named) ==> NamedAsLast(w1, t, named))
      && (t != sid && Remembers(w, t, named) ==> Remembers(w1, t, named))
      && NamedAsLast(w1, sid, turn) && Remembers(w1, sid, turn)
  {
    MovedNames(w, sid, oldId, turn, id, phrase, t, named);
    hide Moved, MayMove, Tasks, Lines, TurnKnown;
  }

  lemma MovedOnRows(w: Shared, sid: int, oldId: int, turn: int, id: int, phrase: string, key: string, cached: bool)
    requires Tasks(w) && Lines(w) && sid in w.sessions
    ensures var w1 := MovedOn(w, sid, oldId, turn, id, phrase, key, cached);
      && Tasks(w1) && Lines(w1)
      && w1.lastTurns == (if cached then w.lastTurns[(sid, key) := turn] else w.lastTurns)
      && forall t :: TurnKnown(w.sessions, t) <==> TurnKnown(w1.sessions, t)
  {
    MovedTasks(w, sid, oldId, turn, id, phrase);
    MovedTurns(w, sid, oldId, turn, id, phrase);
    hide TurnKnown, NextStage, HasStage, HasTurn;
  }

  /** The stage change keeps the rows right. */
  lemma MoveKeeps(w: Shared, sid: int, oldId: int, turn: int, id: int, phrase: string, key: string, cached: bool)
    requires Rows(w) && MayMove(w, sid, oldId, turn, id)
    ensures var w1 := MovedOn(w, sid, oldId, turn, id, phrase, key, cached);
      && Rows(w1) && Remembers(w1, sid, turn)
      && forall c: Conn :: c.sessionId != sid && ConnTurns(w, c) ==> ConnTurns(w1, c)
  {
    var w1 := MovedOn(w, sid, oldId, turn, id, phrase, key, cached);
    MovedOnRows(w, sid, oldId, turn, id, phrase, key, cached);
    MovedOnNames(w, sid, oldId, turn, id, phrase, key, cached, sid, turn);
    assert TurnKnown(w1.sessions, turn);
    hide Tasks, Lines, MovedOn, MayMove, TurnKnown, NamedAsLast, Remembers;
    forall k | k in w1.lastTurns
      ensures TurnKnown(w1.sessions, w1.lastTurns[k]) && NamedAsLast(w1, k.0, w1.lastTurns[k])
    {
      if k in w.lastTurns {
        MovedOnNames(w, sid, oldId, turn, id, phrase, key, cached, k.0, w.lastTurns[k]);
      }
    }
    forall c: Conn | c.sessionId != sid && ConnTurns(w, c) ensures ConnTurns(w1, c) {
      if c.lastTurn.Some? {
        MovedOnNames(w, sid, oldId, turn, id, phrase, key, cached, c.sessionId, c.lastTurn.value);
      }
    }
  }

  // ---------------------------------------------------------------- ended stages

  /** A stage that has ended keeps its line. */
  ghost predicate EndedStay(a: map<int, Session>, b: map<int, Session>) {
    && a.Keys == b.Keys
    && forall sid, i ::
      sid in a && 0 <= i < |a[sid].stages| && a[sid].stages[i].ended
      ==> i < |b[sid].stages| && SameLine(a[sid].stages[i], b[sid].stages[i])
  }

  lemma QuietStay(a: map<int, Session>, b: map<int, Session>)
    requires QuietRows(a, b)
    ensures EndedStay(a, b)
  {
    forall sid | sid in a ensures QuietRow(a[sid], b[sid]) {
    }
  }

  lemma MovedStay(w: Shared, sid: int, oldId: int, turn: int, id: int, phrase: string, key: string, cached: bool)
    requires Rows(w) && MayMove(w, sid, oldId, turn, id)
    ensures EndedStay(w.sessions, MovedOn(w, sid, oldId, turn, id, phrase, key, cached).sessions)
  {
    var s := w.sessions[sid];
    forall i | 0 <= i < |s.stages| && s.stages[i].ended
      ensures SameLine(s.stages[i], NextStage(s, oldId, turn, id, phrase).stages[i])
    {
      CurrentIsOpen(w, sid, s.stages[i]);
    }
  }

  lemma StayChain(a: map<int, Session>, b: map<int, Session>, c: map<int, Session>)
    requires EndedStay(a, b) && EndedStay(b, c)
    ensures EndedStay(a, c)
  {
    forall sid, i | sid in a && 0 <= i < |a[sid].stages| && a[sid].stages[i].ended
      ensures i < |c[sid].stages| && SameLine(a[sid].stages[i], c[sid].stages[i])
    {
      assert SameLine(a[sid].stages[i], b[sid].stages[i]);
    }
  }

  // ---------------------------------------------------------------- handlers

  /** What a step of a live connection keeps of the turns. */
  ghost predicate KeepsTurns(w: Shared, c: Conn, w1: Shared, c1: Conn) {
    && Rows(w1) && EndedStay(w.sessions, w1.sessions) && (!c1.disconnecting ==> ConnTurns(w1, c1))
    && forall d: Conn :: d.sessionId != c.sessionId && ConnTurns(w, d) ==> ConnTurns(w1, d)
  }

  lemma QuietStep(w: Shared, c: Conn, w1: Shared, c1: Conn)
    requires Rows(w) && Quiet(w, w1) && ConnTurns(w, c)
    requires c1.sessionId == c.sessionId && (c1.disconnecting || c1.lastTurn == c.lastTurn)
    ensures KeepsTurns(w, c, w1, c1)
  {
    QuietKeeps(w, w1);
    QuietStay(w.sessions, w1.sessions);
    hide Rows, Remembers, EndedStay, QuietRows;
    assert ConnTurns(w1, c);
  }

  lemma KeepsChain(w: Shared, c: Conn, w1: Shared, c1: Conn, w2: Shared, c2: Conn)
    requires KeepsTurns(w, c, w1, c1) && KeepsTurns(w1, c1, w2, c2) && c1.sessionId == c.sessionId
    ensures KeepsTurns(w, c, w2, c2)
  {
    StayChain(w.sessions, w1.sessions, w2.sessions);
    hide Rows, ConnTurns, EndedStay;
  }

  /** The transaction of a stage change is the move it means. */
  lemma UpdateIsMove(w: Shared, c: Conn, turn: int, state: string, o: ResponseFaults)
    requires Sound(w.sessions) && c.sessionId in w.sessions && Agrees(c, w.sessions[c.sessionId]) && c.stateId.Some?
    requires Remembers(w, c.sessionId, turn)
    ensures var (next, ok) := UpdateStage(w, c, turn, state, o);
      || next == w
      || (&& MayMove(w, c.sessionId, c.stateId.value, turn, o.newId)
          && next == MovedOn(w, c.sessionId, c.stateId.value, turn, o.newId, state, c.state, ok))
  {
    var sid, prior := c.sessionId, c.stateId.value;
    if NextStageTx(w, sid, prior, turn, o.newId, state, o.statementsSucceed).1 {
      var last := LastOf(w.sessions[sid].stages);
      assert Ledger(w.sessions[sid]);
      assert last in w.sessions[sid].stages;
      EndRowTouches(w.sessions, sid, prior, turn);
      hide Ledger, HasStage, StageKnown, TurnKnown, EndStages, EndStageRow, AddStage, Remembers;
    }
  }

  /** A turn known that no published task has. */
  lemma UnpublishedIsRemembered(w: Shared, sid: int, turn: int)
    requires TurnKnown(w.sessions, turn) && forall a :: a in w.scoring ==> a.turn != turn
    ensures Remembers(w, sid, turn)
  {
  }

  lemma MovedOnKeeps(w: Shared, c: Conn, turn: int, state: string, o: ResponseFaults, cached: bool)
    requires Rows(w) && c.stateId.Some? && MayMove(w, c.sessionId, c.stateId.value, turn, o.newId)
    requires c.lastTurn.Some? ==> c.lastTurn.value == turn
    ensures KeepsTurns(w, c, MovedOn(w, c.sessionId, c.stateId.value, turn, o.newId, state, c.state, cached),
                       c.(state := state, stateId := Some(o.newId)))
  {
    MoveKeeps(w, c.sessionId, c.stateId.value, turn, o.newId, state, c.state, cached);
    MovedStay(w, c.sessionId, c.stateId.value, turn, o.newId, state, c.state, cached);
    hide Remembers, Rows, MovedOn, MayMove, EndedStay;
  }

  lemma MovedKeepsTurns(w: Shared, c: Conn, turn: int, state: string, o: ResponseFaults)
    requires Rows(w) && Sound(w.sessions) && c.sessionId in w.sessions && Agrees(c, w.sessions[c.sessionId])
    requires ConnTurns(w, c) && c.stateId.Some? && Remembers(w, c.sessionId, turn)
    requires c.lastTurn.Some? ==> c.lastTurn.value == turn
    ensures var next := UpdateStage(w, c, turn, state, o).0;
      KeepsTurns(w, c, next, c.(state := state, stateId := Some(o.newId)))
  {
    UpdateIsMove(w, c, turn, state, o);
    AllQuiet(w.sessions);
    hide UpdateStage, Remembers, Rows, Sound, Agrees, MovedOn, MayMove, EndedStay, ConnTurns, QuietRows, KeepsTurns;
    var (next, ok) := UpdateStage(w, c, turn, state, o);
    if next == w {
      QuietStep(w, c, w, c.(state := state, stateId := Some(o.newId)));
    } else {
      MovedOnKeeps(w, c, turn, state, o, ok);
    }
  }

  /** Closing after a change. */
  lemma ThenDisconnect(w: Shared, c: Conn, next: Shared, c1: Conn, h: Hangup)
    requires KeepsTurns(w, c, next, c1) && c1.sessionId == c.sessionId
    ensures var (w2, c2) := Disconnect(next, c1, None, h); KeepsTurns(w, c, w2, c2)
  {
    var (w2, c2) := Disconnect(next, c1, None, h);
    DisconnectQuiet(next, c1, None, h);
    QuietKeeps(next, w2);
    QuietStay(next.sessions, w2.sessions);
    StayChain(w.sessions, next.sessions, w2.sessions);
    hide Disconnect, Rows, ConnTurns, EndedStay, QuietRows;
  }

  lemma DisconnectTurns(w: Shared, c: Conn, status: Option<Status>, h: Hangup)
    requires Rows(w) && ConnTurns(w, c)
    ensures var (w1, c1) := Disconnect(w, c, status, h); KeepsTurns(w, c, w1, c1)
  {
    DisconnectQuiet(w, c, status, h);
    var (w1, c1) := Disconnect(w, c, status, h);
    assert c1.sessionId == c.sessionId;
    hide Disconnect, Rows, ConnTurns, QuietRows;
    QuietStep(w, c, w1, c1);
  }

  /** A stage change keeps the turns right when a turn looked up belongs to no task. */
  lemma ChangeTurns(w: Shared, c: Conn, state: string, o: ResponseFaults)
    requires Rows(w) && Sound(w.sessions) && c.sessionId in w.sessions && Agrees(c, w.sessions[c.sessionId])
    requires ConnTurns(w, c)
    requires var last := LastTurn(w, c, state, o.looked); last.Some? ==> Remembers(w, c.sessionId, last.value)
    ensures var (w1, c1) := ChangeStage(w, c, state, o); KeepsTurns(w, c, w1, c1)
  {
    var sid := c.sessionId;
    var to := c.(state := state, stateId := Some(o.newId));
    hide Disconnect, Sound, Agrees, FirstStageTx, UpdateStage, Rows, Remembers;
    DisconnectTurns(w, c, None, o.hangup);
    if c.stateId == None && c.state == "" {
      var next := FirstStageTx(w, sid, o.newId, state, o.statementsSucceed).0;
      FirstStageQuiet(w, sid, o.newId, state, o.statementsSucceed);
      QuietStep(w, c, next, to);
      QuietStep(w, c, next, c);
      ThenDisconnect(w, c, next, c, o.hangup);
    } else {
      var lastTurn := LastTurn(w, c, state, o.looked);
      if lastTurn.Some? && c.stateId.Some? {
        MovedKeepsTurns(w, c, lastTurn.value, state, o);
        ClosedInstead(w, c, UpdateStage(w, c, lastTurn.value, state, o).0, to, o.hangup);
      }
    }
  }

  lemma ClosedInstead(w: Shared, c: Conn, next: Shared, to: Conn, h: Hangup)
    requires KeepsTurns(w, c, next, to) && to == c.(state := to.state, stateId := to.stateId)
    ensures var (w2, c2) := Disconnect(next, c, None, h); KeepsTurns(w, c, w2, c2)
  {
    hide Rows, Remembers, EndedStay;
    assert KeepsTurns(w, c, next, c);
    ThenDisconnect(w, c, next, c, h);
  }

  lemma ResponseTurns(w: Shared, c: Conn, sid: int, state: string, o: ResponseFaults)
    requires Rows(w) && Sound(w.sessions) && c.sessionId in w.sessions && Agrees(c, w.sessions[c.sessionId])
    requires ConnTurns(w, c)
    ensures var (w1, c1) := Respond(w, c, sid, state, o); KeepsTurns(w, c, w1, c1)
  {
    hide Disconnect, Sound, Agrees, ChangeStage, Remembers, Rows, QuietRows, EndedStay, LastTurn, TurnKnown;
    DisconnectTurns(w, c, None, o.hangup);
    var (told, stored) := StoreTurn(w, c.sessionId, o.turnId, state, o.stored);
    StoreTurnQuiet(w, c.sessionId, o.turnId, state, o.stored);
    StoreTurnKeeps(w, c, o.turnId, state, o.stored);
    if stored {
      OwnTurn(w, c, state, o);
    }
    hide StoreTurn;
    QuietKeeps(w, told);
    QuietStep(w, c, told, c);
    ThenDisconnect(w, c, told, c, o.hangup);
    if stored {
      ChangeTurns(told, c, state, o);
      KeepsChain(w, c, told, c, ChangeStage(told, c, state, o).0, ChangeStage(told, c, state, o).1);
    }
    hide KeepsTurns;
  }

  /** The turn that may end a stage: remembered before, or the interviewer's own. */
  lemma OwnTurn(w: Shared, c: Conn, state: string, o: ResponseFaults)
    requires Rows(w) && ConnTurns(w, c) && StoreTurn(w, c.sessionId, o.turnId, state, o.stored).1
    ensures var told := StoreTurn(w, c.sessionId, o.turnId, state, o.stored).0;
      var last := LastTurn(told, c, state, o.looked);
      last.Some? ==> Remembers(told, c.sessionId, last.value)
  {
    var told := StoreTurn(w, c.sessionId, o.turnId, state, o.stored).0;
    StoreTurnQuiet(w, c.sessionId, o.turnId, state, o.stored);
    QuietKeeps(w, told);
    if c.lastTurn.None? {
      LookupFindsOwnTurn(w, c, state, o);
      forall a | a in told.scoring ensures a.turn != o.turnId {
        assert TurnKnown(w.sessions, a.turn);
      }
      assert Turn(o.turnId, state) in told.sessions[c.sessionId].turns;
      assert TurnKnown(told.sessions, o.turnId);
      UnpublishedIsRemembered(told, c.sessionId, o.turnId);
    } else {
      assert ConnTurns(told, c);
    }
  }

  lemma TranscriptTurns(w: Shared, c: Conn, sid: int, turn: Option<int>, o: TranscriptFaults)
    requires Rows(w) && Sound(w.sessions) && c.sessionId in w.sessions && Agrees(c, w.sessions[c.sessionId])
    requires ConnTurns(w, c)
    ensures var (w1, c1) := RecordTranscript(w, c, sid, turn, o); KeepsTurns(w, c, w1, c1)
  {
    hide Disconnect, SaveTranscript, Sound, Agrees, Rows, ConnTurns, QuietRows, EndedStay;
    DisconnectTurns(w, c, None, o.hangup);
    if o.message.Some? {
      SaveTurns(w, c, turn, o);
      if !SaveTranscript(w, c, turn, o).1 {
        ClosedUnsaved(w, c, turn, o);
      }
    }
  }

  lemma ClosedUnsaved(w: Shared, c: Conn, turn: Option<int>, o: TranscriptFaults)
    requires Rows(w) && ConnTurns(w, c) && o.message.Some? && Quiet(w, SaveTranscript(w, c, turn, o).0)
    ensures var (w1, c1) := Disconnect(SaveTranscript(w, c, turn, o).0, c.(lastTurn := turn), None, o.hangup);
      KeepsTurns(w, c, w1, c1)
  {
    var next, named := SaveTranscript(w, c, turn, o).0, c.(lastTurn := turn);
    var (w1, c1) := Disconnect(next, named, None, o.hangup);
    DisconnectQuiet(next, named, None, o.hangup);
    DisconnectSession(next, named, None, o.hangup);
    hide Disconnect, SaveTranscript, Rows, ConnTurns, QuietRows, KeepsTurns;
    QuietChain(w, next, w1);
    QuietStep(w, c, w1, c1);
  }

  /** A turn is published last of all; before that only its row is there. */
  lemma SaveTurns(w: Shared, c: Conn, turn: Option<int>, o: TranscriptFaults)
    requires Rows(w) && Sound(w.sessions) && c.sessionId in w.sessions && Agrees(c, w.sessions[c.sessionId])
    requires ConnTurns(w, c) && o.message.Some?
    ensures var (next, ok) := SaveTranscript(w, c, turn, o);
      && (!ok ==> Quiet(w, next))
      && (ok ==> KeepsTurns(w, c, next, c.(lastTurn := turn)))
  {
    var (next, ok) := SaveTranscript(w, c, turn, o);
    AllQuiet(w.sessions);
    if turn.Some? {
      StoreTurnQuiet(w, c.sessionId, turn.value, o.message.value, o.stored);
      if ok {
        var told := StoreTurn(w, c.sessionId, turn.value, o.message.value, o.stored).0;
        assert Turn(turn.value, o.message.value) in told.sessions[c.sessionId].turns;
        ConnectionsStage(w, c);
        PublishKeeps(w, told, ScoreTask(c.sessionId, turn.value, c.state, c.stateId));
        QuietStay(w.sessions, told.sessions);
        hide Rows, Remembers, EndedStay, QuietRows;
      }
    }
  }

  lemma ConnectionsStage(w: Shared, c: Conn)
    requires Sound(w.sessions) && c.sessionId in w.sessions && Agrees(c, w.sessions[c.sessionId])
    ensures c.stateId.Some? ==> HasStage(w.sessions[c.sessionId].stages, c.stateId.value)
    ensures forall st :: st in w.sessions[c.sessionId].stages && c.stateId == Some(st.id) ==> !st.ended
  {
    var s := w.sessions[c.sessionId];
    assert Ledger(s);
    if c.stateId.Some? {
      assert LastOf(s.stages) in s.stages;
      forall st | st in s.stages && c.stateId == Some(st.id) ensures !st.ended {
        var i :| 0 <= i < |s.stages| && s.stages[i] == st;
      }
    }
  }

  lemma HandlerTurns(w: Shared, c: Conn, e: Event)
    requires Rows(w) && Sound(w.sessions) && c.sessionId in w.sessions && Agrees(c, w.sessions[c.sessionId])
    requires ConnTurns(w, c) && OnConnection(e)
    ensures var (w1, c1) := Handle(w, c, e); KeepsTurns(w, c, w1, c1)
  {
    hide Disconnect, Sound, Agrees, Rows, Remembers, WriteStatus, QuietRows;
    if e.Response? {
      ResponseTurns(w, c, e.sid, e.state, e.responseFaults);
      hide Respond;
    } else if e.Transcript? {
      TranscriptTurns(w, c, e.sid, e.turn, e.transcriptFaults);
      hide RecordTranscript;
    } else {
      OtherHandlersQuiet(w, c, e);
      var (w1, c1) := Handle(w, c, e);
      hide Handle;
      QuietStep(w, c, w1, c1);
    }
  }

  lemma OtherHandlersQuiet(w: Shared, c: Conn, e: Event)
    requires OnConnection(e) && !e.Response? && !e.Transcript?
    ensures var (w1, c1) := Handle(w, c, e);
      Quiet(w, w1) && c1.sessionId == c.sessionId && (c1.disconnecting || c1.lastTurn == c.lastTurn)
  {
    hide Disconnect, WriteStatus, QuietRows;
    if e.MonitorFires? {
      StatusQuiet(w, c.sessionId, TimedOut);
      var marked := w.(sessions := if e.written then WriteStatus(w.sessions, c.sessionId, TimedOut) else w.sessions);
      DisconnectQuiet(marked, c, Some(TimedOut), e.hangup);
      QuietChain(w, marked, Disconnect(marked, c, Some(TimedOut), e.hangup).0);
      DisconnectSession(marked, c, Some(TimedOut), e.hangup);
    } else if e.Drops? {
      DisconnectQuiet(w, c, if e.timedOut then Some(TimedOut) else None, e.hangup);
      DisconnectSession(w, c, if e.timedOut then Some(TimedOut) else None, e.hangup);
    } else {
      StatusQuiet(w, c.sessionId, Completed);
      DisconnectQuiet(w, c, None, e.hangup);
      DisconnectSession(w, c, None, e.hangup);
    }
  }

  lemma DisconnectSession(w: Shared, c: Conn, status: Option<Status>, h: Hangup)
    ensures Disconnect(w, c, status, h).1.sessionId == c.sessionId
  {
  }

  // ---------------------------------------------------------------- steps

  lemma ConnectTurns(w: Shared, cid: int, sid: int, o: ConnectFaults)
    requires Rows(w)
    ensures var (w1, c1) := Connect(w, cid, sid, o); KeepsTurns(w, FreshConn(cid, sid), w1, c1)
  {
    ConnectQuiet(w, cid, sid, o);
    var (w1, c1) := Connect(w, cid, sid, o);
    hide Connect, Rows, Remembers, EndedStay, QuietRows;
    QuietKeeps(w, w1);
    QuietStay(w.sessions, w1.sessions);
  }

  lemma ConnStepTurns(w: World, cid: int, before: Conn, shared: Shared, c: Conn)
    requires TurnInv(w) && KeepsTurns(w.shared, before, shared, c)
    requires forall other :: Live(w, other) && other != cid ==> w.clients[other].sessionId != before.sessionId
    ensures TurnInv(World(shared, w.clients[cid := c]))
  {
    hide Rows, ConnTurns, EndedStay;
    var after := World(shared, w.clients[cid := c]);
    forall other | Live(after, other) ensures ConnTurns(shared, after.clients[other]) {
      if other != cid {
        assert Live(w, other);
      }
    }
  }

  lemma WorkerTurns(w: World, e: Event)
    requires TurnInv(w) && (e.TaskRuns? || e.TurnScored?)
    ensures TurnInv(Step(w, e)) && EndedStay(w.shared.sessions, Step(w, e).shared.sessions)
  {
    if e.TaskRuns? {
      TaskQuiet(w.shared, e.task, e.finalizingWrite, e.endFaults, e.again);
    } else {
      ScoreQuiet(w.shared, e.scoreTask, e.scoreFaults);
    }
    WorkersKeepClients(w, e);
    assert Quiet(w.shared, Step(w, e).shared);
    hide RunTask, ScoreTurn, Step, Rows, ConnTurns, QuietRows, EndedStay;
    QuietKeeps(w.shared, Step(w, e).shared);
    QuietStay(w.shared.sessions, Step(w, e).shared.sessions);
    forall cid | Live(Step(w, e), cid) ensures ConnTurns(Step(w, e).shared, Step(w, e).clients[cid]) {
      assert Live(w, cid);
    }
  }

  lemma StepTurns(w: World, e: Event)
    requires StageLedger.Inv(w) && TurnInv(w) && Orderly(w, e)
    ensures TurnInv(Step(w, e)) && EndedStay(w.shared.sessions, Step(w, e).shared.sessions)
  {
    hide Rows, ConnTurns, Sound, Agrees, EndedStay;
    if e.TaskRuns? || e.TurnScored? {
      WorkerTurns(w, e);
      hide Step;
    } else if e.Connecting? {
      ConnectTurns(w.shared, e.cid, e.sid, e.connectFaults);
      var (shared, c) := Connect(w.shared, e.cid, e.sid, e.connectFaults);
      hide Connect;
      ConnStepTurns(w, e.cid, FreshConn(e.cid, e.sid), shared, c);
    } else {
      assert Live(w, e.cid);
      HandlerTurns(w.shared, w.clients[e.cid], e);
      var (shared, c) := Handle(w.shared, w.clients[e.cid], e);
      hide Handle;
      ConnStepTurns(w, e.cid, w.clients[e.cid], shared, c);
    }
  }

  /** The start: no connection, no task, no cached turn and no stage. */
  lemma TurnInvAtStart(sessions: map<int, Session>)
    requires forall sid :: sid in sessions ==> sessions[sid].stages == []
    ensures TurnInv(World(Shared(sessions, multiset{}, multiset{}, {}, map[]), map[]))
  {
  }

  lemma OrderlyPrefix(w: World, events: seq<Event>)
    requires OrderlyRun(w, events) && events != []
    ensures var n := |events| - 1; OrderlyRun(w, events[..n]) && Orderly(After(w, events[..n]), events[n])
  {
    hide Orderly, After;
    var n := |events| - 1;
    forall k | 0 <= k < n ensures Orderly(After(w, events[..n][..k]), events[..n][k]) {
      assert events[..n][..k] == events[..k];
    }
  }

  /** Over every orderly run: turns are published once, cached turns and remembered ones are the last of their stage. */
  lemma {:induction false} TurnInvHolds(w: World, events: seq<Event>)
    requires StageLedger.Inv(w) && TurnInv(w) && OrderlyRun(w, events)
    ensures StageLedger.Inv(After(w, events)) && TurnInv(After(w, events))
  {
    hide StageLedger.Inv, TurnInv, Orderly, Step, OrderlyRun;
    if events != [] {
      var n := |events| - 1;
      OrderlyPrefix(w, events);
      TurnInvHolds(w, events[..n]);
      StepTurns(After(w, events[..n]), events[n]);
      StepKeeps(After(w, events[..n]), events[n]);
    }
  }
}
