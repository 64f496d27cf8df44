/**
 The registry of connections: which connection serves a session, and which sessions a user has.
 A step is what happens under one lock, so connects and disconnects interleave.
 */
module Registry {
  import opened Prelude

  /** Open, being closed after the flags are set, or out of the registry. */
  datatype Phase = Open | Closing | Gone

  datatype Client = Client(sessionId: int, userId: int, connected: bool, phase: Phase)

  datatype State = State(clients: map<int, Client>, sessions: map<int, int>, userSessions: map<int, set<int>>)

  datatype Event =
    | Admit(cid: int, sid: int, uid: int)
    | ReadError(cid: int)
    | BeginDisconnect(cid: int)
    | FinishDisconnect(cid: int)

  // ---------------------------------------------------------------- steps

  predicate Connected(w: State, cid: int) {
    cid in w.clients && w.clients[cid].connected
  }

  /** The session's entry belongs to a connection that is still connected. */
  predicate Taken(w: State, sid: int) {
    sid in w.sessions && Connected(w, w.sessions[sid])
  }

  function WithSession(users: map<int, set<int>>, uid: int, sid: int): map<int, set<int>> {
    users[uid := (if uid in users then users[uid] else {}) + {sid}]
  }

  function WithoutSession(users: map<int, set<int>>, uid: int, sid: int): map<int, set<int>> {
    if uid !in users then users
    else if users[uid] - {sid} == {} then users - {uid}
    else users[uid := users[uid] - {sid}]
  }

  /** The sessions listed for a user, none without a set. */
  function ListedFor(users: map<int, set<int>>, uid: int): set<int> {
    if uid in users then users[uid] else {}
  }

  function Step(w: State, e: Event): State {
    match e
    case Admit(cid, sid, uid) =>
      if cid in w.clients || Taken(w, sid) then w
      else State(w.clients[cid := Client(sid, uid, true, Open)], w.sessions[sid := cid],
                 WithSession(w.userSessions, uid, sid))
    case ReadError(cid) =>
      if cid !in w.clients then w else w.(clients := w.clients[cid := w.clients[cid].(connected := false)])
    case BeginDisconnect(cid) =>
      if cid !in w.clients || w.clients[cid].phase != Open then w
      else w.(clients := w.clients[cid := w.clients[cid].(connected := false, phase := Closing)])
    case FinishDisconnect(cid) =>
      if cid !in w.clients || w.clients[cid].phase != Closing then w
      else
        var c := w.clients[cid];
        State(w.clients[cid := c.(phase := Gone)], w.sessions - {c.sessionId},
              WithoutSession(w.userSessions, c.userId, c.sessionId))
  }

  function After(w: State, events: seq<Event>): State {
    if events == [] then w else Step(After(w, events[..|events| - 1]), events[|events| - 1])
  }

  /** The maps of the server, changed under its lock. */
  class Server {
    var clients: map<int, Client>
    var sessions: map<int, int>
    var userSessions: map<int, set<int>>

    constructor ()
      ensures View() == State(map[], map[], map[])
    {
      clients, sessions, userSessions := map[], map[], map[];
    }

    function View(): State
      reads this
    {
      State(clients, sessions, userSessions)
    }

    method HandleConnection(cid: int, sid: int, uid: int) returns (admitted: bool)
      requires cid !in clients
      modifies this
      ensures admitted <==> !Taken(old(View()), sid)
      ensures !admitted ==> View() == old(View())
      ensures admitted ==> sessions == old(sessions)[sid := cid] && Connected(View(), cid)
      ensures admitted ==> clients == old(clients)[cid := clients[cid]]
      ensures admitted ==> uid in userSessions && userSessions[uid] == ListedFor(old(userSessions), uid) + {sid}
      ensures forall other :: other != uid ==>
        ListedFor(userSessions, other) == ListedFor(old(userSessions), other)
        && (other in userSessions <==> other in old(userSessions))
      ensures View() == Step(old(View()), Admit(cid, sid, uid))
    {
      if sid in sessions && sessions[sid] in clients && clients[sessions[sid]].connected {
        return false;
      }
      clients := clients[cid := Client(sid, uid, true, Open)];
      sessions := sessions[sid := cid];
      if uid !in userSessions {
        userSessions := userSessions[uid := {}];
      }
      userSessions := userSessions[uid := userSessions[uid] + {sid}];
      assert userSessions == WithSession(old(userSessions), uid, sid);
      return true;
    }

    /** The registry stays as it is, but a session entered under this connection can be taken over from now on. */
    method ReadFailed(cid: int)
      requires cid in clients
      modifies this
      ensures sessions == old(sessions) && userSessions == old(userSessions)
      ensures forall sid :: Taken(View(), sid) <==> Taken(old(View()), sid) && sessions[sid] != cid
      ensures Exclusive(old(View())) ==> Exclusive(View())
      ensures View() == Step(old(View()), ReadError(cid))
    {
      clients := clients[cid := clients[cid].(connected := false)];
    }

    /** The first part of a disconnect; only the call that sets the flag goes on. */
    method StartDisconnect(cid: int) returns (proceed: bool)
      requires cid in clients
      modifies this
      ensures proceed <==> old(clients[cid].phase) == Open
      ensures sessions == old(sessions) && userSessions == old(userSessions)
      ensures cid in clients && clients[cid].phase != Open
      ensures proceed ==> clients[cid].phase == Closing && !clients[cid].connected
      ensures clients == old(clients)[cid := clients[cid]] && (!proceed ==> clients == old(clients))
      ensures View() == Step(old(View()), BeginDisconnect(cid))
    {
      if clients[cid].phase != Open {
        return false;
      }
      clients := clients[cid := clients[cid].(connected := false, phase := Closing)];
      return true;
    }

    /** The session's entry goes, whoever it belongs to, and so does its place in the user's set; no set stays empty. */
    method Unregister(cid: int)
      requires cid in clients && clients[cid].phase == Closing
      modifies this
      ensures clients == old(clients)[cid := old(clients[cid]).(phase := Gone)]
      ensures sessions == old(sessions) - {clients[cid].sessionId}
      ensures ListedFor(userSessions, clients[cid].userId)
           == ListedFor(old(userSessions), clients[cid].userId) - {clients[cid].sessionId}
      ensures clients[cid].userId in userSessions ==> userSessions[clients[cid].userId] != {}
      ensures forall other :: other != clients[cid].userId ==>
        ListedFor(userSessions, other) == ListedFor(old(userSessions), other)
        && (other in userSessions <==> other in old(userSessions))
      ensures View() == Step(old(View()), FinishDisconnect(cid))
    {
      var c := clients[cid];
      clients := clients[cid := c.(phase := Gone)];
      sessions := sessions - {c.sessionId};
      if c.userId in userSessions {
        userSessions := userSessions[c.userId := userSessions[c.userId] - {c.sessionId}];
        if userSessions[c.userId] == {} {
          userSessions := userSessions - {c.userId};
        }
      }
      assert userSessions == WithoutSession(old(userSessions), c.userId, c.sessionId);
    }
  }

  // ---------------------------------------------------------------- the index of users

  /** Every admission names the session's one owner. */
  ghost predicate OwnedEvents(events: seq<Event>, owner: int -> int) {
    forall k :: 0 <= k < |events| && events[k].Admit? ==> events[k].uid == owner(events[k].sid)
  }

  /** A session has an entry exactly when its owner's set lists it; sets are never empty and list only own sessions. */
  ghost predicate Index(w: State, owner: int -> int) {
    && (forall sid :: sid in w.sessions <==> owner(sid) in w.userSessions && sid in w.userSessions[owner(sid)])
    && (forall uid :: uid in w.userSessions ==> w.userSessions[uid] != {})
    && (forall uid, sid :: uid in w.userSessions && sid in w.userSessions[uid] ==> owner(sid) == uid)
    && (forall cid :: cid in w.clients ==> w.clients[cid].userId == owner(w.clients[cid].sessionId))
  }

  lemma StepKeepsIndex(w: State, e: Event, owner: int -> int)
    requires Index(w, owner) && (e.Admit? ==> e.uid == owner(e.sid))
    ensures Index(Step(w, e), owner)
  {
    hide Taken, Connected;
  }

  /** The index is right after any interleaving of connects and disconnects. */
  lemma {:induction false} IndexHolds(w: State, events: seq<Event>, owner: int -> int)
    requires Index(w, owner) && OwnedEvents(events, owner)
    ensures Index(After(w, events), owner)
  {
    hide Index, Step;
    if events != [] {
      var n := |events| - 1;
      IndexHolds(w, events[..n], owner);
      StepKeepsIndex(After(w, events[..n]), events[n], owner);
    }
  }

  // ---------------------------------------------------------------- when a session has an entry

  /** The event admits a connection of the session. */
  predicate Admits(w: State, e: Event, sid: int) {
    e.Admit? && e.sid == sid && e.cid !in w.clients && !Taken(w, sid)
  }

  /** The event ends the disconnect of a connection of the session. */
  predicate Finishes(w: State, e: Event, sid: int) {
    e.FinishDisconnect? && e.cid in w.clients && w.clients[e.cid].phase == Closing && w.clients[e.cid].sessionId == sid
  }

  /** Some admission of the session is not followed by the end of a disconnect of a connection of the session. */
  ghost predicate AdmittedLast(w: State, events: seq<Event>, sid: int) {
    exists k :: AdmittedSince(w, events, sid, k)
  }

  ghost predicate AdmittedSince(w: State, events: seq<Event>, sid: int, k: int) {
    && 0 <= k < |events| && Admits(After(w, events[..k]), events[k], sid)
    && forall j :: k < j < |events| ==> !Finishes(After(w, events[..j]), events[j], sid)
  }

  lemma StepEntry(w: State, e: Event, sid: int)
    ensures sid in Step(w, e).sessions <==> Admits(w, e, sid) || (sid in w.sessions && !Finishes(w, e, sid))
  {
  }

  lemma SincePrefix(w: State, events: seq<Event>, sid: int, k: int)
    requires events != [] && k < |events| - 1
    ensures var n := |events| - 1;
      AdmittedSince(w, events, sid, k) <==>
        AdmittedSince(w, events[..n], sid, k) && !Finishes(After(w, events[..n]), events[n], sid)
  {
    hide After, Finishes, Admits;
    var n := |events| - 1;
    assert forall j :: 0 <= j < n ==> events[..n][..j] == events[..j] && events[..n][j] == events[j];
  }

  lemma AdmittedStep(w: State, events: seq<Event>, sid: int)
    requires events != []
    ensures var n := |events| - 1; var v := After(w, events[..n]);
      AdmittedLast(w, events, sid) <==>
        Admits(v, events[n], sid) || (AdmittedLast(w, events[..n], sid) && !Finishes(v, events[n], sid))
  {
    hide After, Finishes, Admits;
    var n := |events| - 1;
    if AdmittedLast(w, events, sid) {
      var k :| AdmittedSince(w, events, sid, k);
      if k < n {
        SincePrefix(w, events, sid, k);
      }
    }
    if Admits(After(w, events[..n]), events[n], sid) {
      assert AdmittedSince(w, events, sid, n);
    } else if AdmittedLast(w, events[..n], sid) && !Finishes(After(w, events[..n]), events[n], sid) {
      var k :| AdmittedSince(w, events[..n], sid, k);
      SincePrefix(w, events, sid, k);
    }
  }

  /** On every interleaving a session has an entry exactly when an admission of it is not followed by such an end. */
  lemma {:induction false} EntryIff(w: State, events: seq<Event>, sid: int)
    requires w.sessions == map[]
    ensures sid in After(w, events).sessions <==> AdmittedLast(w, events, sid)
  {
    hide Step, Finishes, Admits;
    if events != [] {
      var n := |events| - 1;
      EntryIff(w, events[..n], sid);
      StepEntry(After(w, events[..n]), events[n], sid);
      AdmittedStep(w, events, sid);
    }
  }

  /** Entries lead to connections of their session that are not out of the registry. */
  ghost predicate EntriesServed(w: State) {
    forall sid :: sid in w.sessions ==>
      && w.sessions[sid] in w.clients
      && w.clients[w.sessions[sid]].sessionId == sid && w.clients[w.sessions[sid]].phase != Gone
  }

  lemma {:induction false} EntriesServedHolds(w: State, events: seq<Event>)
    requires EntriesServed(w)
    ensures EntriesServed(After(w, events))
  {
    if events != [] {
      EntriesServedHolds(w, events[..|events| - 1]);
    }
  }

  /** Once every connection is out of the registry, whatever the interleaving was, both maps are empty. */
  lemma AllGone(events: seq<Event>, owner: int -> int)
    requires OwnedEvents(events, owner)
    requires var w := After(State(map[], map[], map[]), events);
      forall cid :: cid in w.clients ==> w.clients[cid].phase == Gone
    ensures var w := After(State(map[], map[], map[]), events); w.sessions == map[] && w.userSessions == map[]
  {
    var start := State(map[], map[], map[]);
    EntriesServedHolds(start, events);
    IndexHolds(start, events, owner);
    hide After, Index, EntriesServed, OwnedEvents;
    NoneServed(After(start, events));
    EmptyIndex(After(start, events), owner);
  }

  lemma SomeoneServes(w: State, sid: int)
    requires EntriesServed(w) && sid in w.sessions
    ensures exists cid :: cid in w.clients && w.clients[cid].phase != Gone
  {
    var cid := w.sessions[sid];
    assert w.clients[cid].phase != Gone;
  }

  lemma NoneServed(w: State)
    requires EntriesServed(w) && forall cid :: cid in w.clients ==> w.clients[cid].phase == Gone
    ensures w.sessions == map[]
  {
    forall sid ensures sid !in w.sessions {
      if sid in w.sessions {
        SomeoneServes(w, sid);
      }
    }
  }

  lemma ListedIsEntered(w: State, owner: int -> int, uid: int, sid: int)
    requires Index(w, owner) && uid in w.userSessions && sid in w.userSessions[uid]
    ensures sid in w.sessions
  {
    assert owner(sid) == uid;
  }

  lemma EmptyIndex(w: State, owner: int -> int)
    requires Index(w, owner) && w.sessions == map[]
    ensures w.userSessions == map[]
  {
    forall uid ensures uid !in w.userSessions {
      if uid in w.userSessions {
        HasElement(w.userSessions[uid]);
        var sid :| sid in w.userSessions[uid];
        ListedIsEntered(w, owner, uid, sid);
      }
    }
  }

  // ---------------------------------------------------------------- one connection per session

  /** Every connected connection is the registered one, so a session has one at most. */
  ghost predicate Exclusive(w: State) {
    forall cid :: Connected(w, cid) ==>
      w.clients[cid].sessionId in w.sessions && w.sessions[w.clients[cid].sessionId] == cid
  }

  lemma ExclusiveMeansOne(w: State, a: int, b: int)
    requires Exclusive(w) && Connected(w, a) && Connected(w, b) && w.clients[a].sessionId == w.clients[b].sessionId
    ensures a == b
  {
  }

  /** The last part of a disconnect removes the session's entry, whoever it belongs to. */
  ghost predicate RemovesAnother(w: State, e: Event) {
    && e.FinishDisconnect? && e.cid in w.clients && w.clients[e.cid].phase == Closing
    && Taken(w, w.clients[e.cid].sessionId) && w.sessions[w.clients[e.cid].sessionId] != e.cid
  }

  /** Connections being closed are not connected, and entries lead to connections of their session. */
  ghost predicate WellFormed(w: State) {
    && (forall cid :: Connected(w, cid) ==> w.clients[cid].phase == Open)
    && (forall sid :: sid in w.sessions ==>
         w.sessions[sid] in w.clients && w.clients[w.sessions[sid]].sessionId == sid)
  }

  lemma {:induction false} WellFormedHolds(w: State, events: seq<Event>)
    requires WellFormed(w)
    ensures WellFormed(After(w, events))
  {
    if events != [] {
      WellFormedHolds(w, events[..|events| - 1]);
    }
  }

  /** A step breaks exclusivity exactly when a disconnect removes the entry of another, connected connection. */
  lemma ExclusiveStep(w: State, e: Event)
    requires WellFormed(w) && Exclusive(w)
    ensures Exclusive(Step(w, e)) <==> !RemovesAnother(w, e)
  {
    if RemovesAnother(w, e) {
      var other := w.sessions[w.clients[e.cid].sessionId];
      assert Connected(Step(w, e), other);
    }
  }

  ghost predicate AlwaysExclusive(w: State, events: seq<Event>) {
    && Exclusive(After(w, events))
    && (events == [] || AlwaysExclusive(w, events[..|events| - 1]))
  }

  ghost predicate NeverRemovesAnother(w: State, events: seq<Event>) {
    events == [] ||
    (var n := |events| - 1;
     NeverRemovesAnother(w, events[..n]) && !RemovesAnother(After(w, events[..n]), events[n]))
  }

  /** Over a run exclusivity holds throughout exactly when no disconnect ever removes another connection's entry. */
  lemma {:induction false} ExclusiveRun(w: State, events: seq<Event>)
    requires WellFormed(w) && Exclusive(w)
    ensures AlwaysExclusive(w, events) <==> NeverRemovesAnother(w, events)
  {
    hide RemovesAnother, Exclusive, WellFormed, Step;
    if events != [] {
      var front := events[..|events| - 1];
      ExclusiveRun(w, front);
      WellFormedHolds(w, front);
      if AlwaysExclusive(w, front) {
        assert Exclusive(After(w, front));
        ExclusiveStep(After(w, front), events[|events| - 1]);
      }
    }
  }

  /**
   It does occur: a read error on one connection lets a second in, the late end of the first disconnect then removes
   the second's entry, and a third connection is admitted beside the second.
   */
  lemma TwoConnectionsAtOnce(
    sid: int, uid: int, w1: State, w2: State, w3: State, w4: State, w5: State, w6: State)
    requires w1 == Step(State(map[], map[], map[]), Admit(1, sid, uid))
    requires w2 == Step(w1, ReadError(1))
    requires w3 == Step(w2, Admit(2, sid, uid))
    requires w4 == Step(w3, BeginDisconnect(1))
    requires w5 == Step(w4, FinishDisconnect(1))
    requires w6 == Step(w5, Admit(3, sid, uid))
    ensures Connected(w6, 2) && Connected(w6, 3) && w6.clients[2].sessionId == w6.clients[3].sessionId == sid
  {
    hide WithSession, WithoutSession;
  }
}
