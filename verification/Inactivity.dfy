/** Warning and timing out a client that stays silent. Times count microseconds. */
module Inactivity {
  import opened Prelude

  const SECOND := 1_000_000
  const WARNING_AFTER := 180 * SECOND
  const TIMEOUT_AFTER := 360 * SECOND

  /** A message read, a tick of the monitor, or the end: the connection closed or closing, or its context canceled. */
  datatype Event = Message(time: int) | Tick(time: int) | Close(time: int)

  /** What the loops keep; warnings are logged by the position of their tick in the run. */
  datatype State = State(last: int, warned: bool, closed: bool, timedOut: Option<int>, warnings: seq<int>)

  function Start(connectedAt: int): State {
    State(connectedAt, false, false, None, [])
  }

  /** One pass of a loop; the monitor stops once the connection is closed or it has timed the client out. */
  function Step(w: State, e: Event, position: int): State {
    match e
    case Message(now) => w.(last := now, warned := false)
    case Close(_) => w.(closed := true)
    case Tick(now) =>
      if w.closed || w.timedOut.Some? then w
      else
        var idle := now - w.last;
        var warn := !w.warned && idle >= WARNING_AFTER;
        w.(warned := w.warned || warn,
           warnings := if warn then w.warnings + [position] else w.warnings,
           timedOut := if idle >= TIMEOUT_AFTER then Some(now) else None)
  }

  function After(connectedAt: int, events: seq<Event>): State {
    if events == [] then Start(connectedAt)
    else Step(After(connectedAt, events[..|events| - 1]), events[|events| - 1], |events| - 1)
  }

  /** The fields of a client the two loops share. */
  class Client {
    var lastActivityTime: int
    var inactivityWarningSent: bool
    var closed: bool
    var timedOut: Option<int>
    var warnings: seq<int>

    constructor (connectedAt: int)
      ensures View() == Start(connectedAt)
    {
      lastActivityTime, inactivityWarningSent, closed := connectedAt, false, false;
      timedOut, warnings := None, [];
    }

    function View(): State
      reads this
    {
      State(lastActivityTime, inactivityWarningSent, closed, timedOut, warnings)
    }

    /** After a message no tick of the next three minutes has any effect. */
    method ReadMessage(now: int, position: int)
      modifies this
      ensures forall t, k :: t < now + WARNING_AFTER ==> Step(View(), Tick(t), k) == View()
      ensures timedOut == old(timedOut) && warnings == old(warnings) && closed == old(closed)
      ensures View() == Step(old(View()), Message(now), position)
    {
      lastActivityTime := now;
      inactivityWarningSent := false;
    }

    /** Once the connection is closed or closing no tick has any effect. */
    method MarkClosed(now: int, position: int)
      modifies this
      ensures forall t, k :: Step(View(), Tick(t), k) == View()
      ensures View() == Step(old(View()), Close(now), position)
    {
      closed := true;
    }

    method MonitorTick(now: int, position: int)
      modifies this
      ensures old(closed) ==> View() == old(View())
      ensures timedOut != old(timedOut) ==> timedOut == Some(now) && inactivityWarningSent
      ensures warnings != old(warnings) ==> warnings == old(warnings) + [position] && !old(inactivityWarningSent)
      ensures View() == Step(old(View()), Tick(now), position)
    {
      if closed || timedOut.Some? {
        return;
      }
      var timeSinceLastActivity := now - lastActivityTime;
      if !inactivityWarningSent && timeSinceLastActivity >= WARNING_AFTER {
        warnings := warnings + [position];
        inactivityWarningSent := true;
      }
      if timeSinceLastActivity >= TIMEOUT_AFTER {
        timedOut := Some(now);
      }
    }
  }

  // ---------------------------------------------------------------- silence, defined on the run

  /** When the client was last heard of: its last message, or the moment it connected. */
  function LastHeard(connectedAt: int, events: seq<Event>): int {
    if events == [] then connectedAt
    else if events[|events| - 1].Message? then events[|events| - 1].time
    else LastHeard(connectedAt, events[..|events| - 1])
  }

  /** The connection is still open at a position. */
  ghost predicate OpenAt(events: seq<Event>, k: int) {
    forall m :: 0 <= m < k && m < |events| ==> !events[m].Close?
  }

  /** The tick at a position finds an open connection whose client has been silent for six minutes. */
  ghost predicate TooLong(connectedAt: int, events: seq<Event>, k: int) {
    && 0 <= k < |events| && events[k].Tick? && OpenAt(events, k)
    && events[k].time - LastHeard(connectedAt, events[..k]) >= 6 * 60 * 1_000_000
  }

  ghost predicate FirstTooLong(connectedAt: int, events: seq<Event>, k: int) {
    TooLong(connectedAt, events, k) && forall j :: 0 <= j < k ==> !TooLong(connectedAt, events, j)
  }

  /** No message comes at positions from i to j. */
  ghost predicate Silent(events: seq<Event>, i: int, j: int) {
    forall m :: i <= m < j && 0 <= m < |events| ==> !events[m].Message?
  }

  lemma {:induction false} LastIsLastHeard(connectedAt: int, events: seq<Event>)
    ensures After(connectedAt, events).last == LastHeard(connectedAt, events)
    ensures After(connectedAt, events).closed <==> !OpenAt(events, |events|)
  {
    if events != [] {
      LastIsLastHeard(connectedAt, events[..|events| - 1]);
    }
  }

  lemma OpenPrefix(events: seq<Event>, n: nat, k: int)
    requires k <= n <= |events|
    ensures OpenAt(events[..n], k) <==> OpenAt(events, k)
  {
    if !OpenAt(events, k) {
      var m :| 0 <= m < k && events[m].Close?;
      assert events[..n][m].Close?;
    }
  }

  lemma TooLongPrefix(connectedAt: int, events: seq<Event>, n: nat, k: int)
    requires n <= |events| && k < n
    ensures TooLong(connectedAt, events[..n], k) <==> TooLong(connectedAt, events, k)
  {
    if 0 <= k {
      assert events[..n][..k] == events[..k];
      OpenPrefix(events, n, k);
      hide OpenAt;
    }
  }

  /**
   The monitor times the client out at the first tick that finds it silent for six minutes on an open connection, and at
   no other time.
   */
  lemma {:induction false} TimesOutExactly(connectedAt: int, events: seq<Event>)
    ensures After(connectedAt, events).timedOut.None? <==>
      forall k :: 0 <= k < |events| ==> !TooLong(connectedAt, events, k)
    ensures forall k :: FirstTooLong(connectedAt, events, k) ==>
      After(connectedAt, events).timedOut == Some(events[k].time)
  {
    if events != [] {
      var n := |events| - 1;
      var front := events[..n];
      TimesOutExactly(connectedAt, front);
      LastIsLastHeard(connectedAt, front);
      forall k | 0 <= k < n ensures TooLong(connectedAt, front, k) <==> TooLong(connectedAt, events, k) {
        TooLongPrefix(connectedAt, events, n, k);
      }
      var before := After(connectedAt, front);
      OpenPrefix(events, n, n);
      assert TooLong(connectedAt, events, n) <==>
        events[n].Tick? && !before.closed && events[n].time - before.last >= TIMEOUT_AFTER;
      if before.timedOut.Some? {
        var k :| 0 <= k < n && TooLong(connectedAt, front, k);
        assert TooLong(connectedAt, events, k);
      }
      hide TooLong, OpenAt;
      hide LastHeard;
      forall k | FirstTooLong(connectedAt, events, k)
        ensures After(connectedAt, events).timedOut == Some(events[k].time)
      {
        if k < n {
          assert FirstTooLong(connectedAt, front, k);
        }
      }
    }
  }

  /** The log of warnings: each in a silence of at least three minutes, and never two in the same silence. */
  ghost predicate WarnedRight(connectedAt: int, events: seq<Event>, w: State) {
    && (forall i :: 0 <= i < |w.warnings| ==> WarningDue(connectedAt, events, w.warnings[i]))
    && (forall i, j :: 0 <= i < j < |w.warnings| ==>
         w.warnings[i] < w.warnings[j] && !Silent(events, w.warnings[i], w.warnings[j]))
    && (w.warned <==> w.warnings != [] && Silent(events, w.warnings[|w.warnings| - 1], |events|))
  }

  ghost predicate WarningDue(connectedAt: int, events: seq<Event>, k: int) {
    && 0 <= k < |events| && events[k].Tick?
    && events[k].time - LastHeard(connectedAt, events[..k]) >= 3 * 60 * 1_000_000
  }

  lemma PrefixFacts(connectedAt: int, events: seq<Event>, n: nat, i: int, j: int)
    requires n <= |events| && 0 <= i < n && j <= n
    ensures WarningDue(connectedAt, events[..n], i) <==> WarningDue(connectedAt, events, i)
    ensures Silent(events[..n], i, j) <==> Silent(events, i, j)
  {
    assert events[..n][..i] == events[..i];
    if !Silent(events, i, j) {
      var m :| i <= m < j && 0 <= m < |events| && events[m].Message?;
      assert events[..n][m].Message?;
    }
    if !Silent(events[..n], i, j) {
      var m :| i <= m < j && 0 <= m < n && events[..n][m].Message?;
      assert events[m].Message?;
    }
  }

  lemma ExtendRight(connectedAt: int, events: seq<Event>, n: nat, w: State)
    requires n < |events| && WarnedRight(connectedAt, events[..n], w)
    ensures forall i :: 0 <= i < |w.warnings| ==> WarningDue(connectedAt, events, w.warnings[i]) && w.warnings[i] < n
    ensures forall i, j :: 0 <= i < j < |w.warnings| ==>
      w.warnings[i] < w.warnings[j] && !Silent(events, w.warnings[i], w.warnings[j])
    ensures w.warned <==> w.warnings != [] && Silent(events, w.warnings[|w.warnings| - 1], n)
  {
    forall i | 0 <= i < |w.warnings|
      ensures WarningDue(connectedAt, events, w.warnings[i]) && w.warnings[i] < n
    {
      assert WarningDue(connectedAt, events[..n], w.warnings[i]);
      PrefixFacts(connectedAt, events, n, w.warnings[i], n);
    }
    hide WarningDue, Silent;
    forall i, j | 0 <= i < j < |w.warnings| ensures !Silent(events, w.warnings[i], w.warnings[j]) {
      PrefixFacts(connectedAt, events, n, w.warnings[i], w.warnings[j]);
    }
    if w.warnings != [] {
      PrefixFacts(connectedAt, events, n, w.warnings[|w.warnings| - 1], n);
    }
  }

  lemma SilentStep(events: seq<Event>, i: int, n: nat)
    requires n < |events| && 0 <= i <= n
    ensures Silent(events, i, n + 1) <==> Silent(events, i, n) && !events[n].Message?
  {
  }

  /** No warning is early, and an idle period has at most one: between two warnings there is a message. */
  lemma {:induction false} WarnsOncePerSilence(connectedAt: int, events: seq<Event>)
    ensures WarnedRight(connectedAt, events, After(connectedAt, events))
  {
    if events != [] {
      var n := |events| - 1;
      var before := After(connectedAt, events[..n]);
      WarnsOncePerSilence(connectedAt, events[..n]);
      ExtendRight(connectedAt, events, n, before);
      LastIsLastHeard(connectedAt, events[..n]);
      forall i | 0 <= i < |before.warnings| {
        SilentStep(events, before.warnings[i], n);
      }
      SilentStep(events, n, n);
      hide LastHeard;
      WarnStep(connectedAt, events, n, before);
    }
  }

  lemma WarnStep(connectedAt: int, events: seq<Event>, n: nat, w: State)
    requires n + 1 == |events| && w.last == LastHeard(connectedAt, events[..n])
    requires forall i :: 0 <= i < |w.warnings| ==> WarningDue(connectedAt, events, w.warnings[i]) && w.warnings[i] < n
    requires forall i, j :: 0 <= i < j < |w.warnings| ==>
      w.warnings[i] < w.warnings[j] && !Silent(events, w.warnings[i], w.warnings[j])
    requires w.warned <==> w.warnings != [] && Silent(events, w.warnings[|w.warnings| - 1], n)
    ensures WarnedRight(connectedAt, events, Step(w, events[n], n))
  {
    var next := Step(w, events[n], n);
    hide LastHeard;
    assert events[n].Tick? ==> (WarningDue(connectedAt, events, n) <==> events[n].time - w.last >= WARNING_AFTER);
    hide WarningDue;
    SilentStep(events, n, n);
    assert Silent(events, n, n);
    if next.warnings != w.warnings {
      forall i | 0 <= i < |w.warnings| ensures !Silent(events, w.warnings[i], n) {
        var last := w.warnings[|w.warnings| - 1];
        assert !Silent(events, last, n);
        assert w.warnings[i] <= last;
      }
    } else if w.warnings != [] {
      SilentStep(events, w.warnings[|w.warnings| - 1], n);
    }
  }

  /** The tick at a position finds an open connection, not timed out, whose client has been silent for three minutes. */
  ghost predicate Due(connectedAt: int, events: seq<Event>, k: int) {
    && WarningDue(connectedAt, events, k) && OpenAt(events, k)
    && forall j :: 0 <= j < k ==> !TooLong(connectedAt, events, j)
  }

  /** It is the first such tick of its silence. */
  ghost predicate FirstDue(connectedAt: int, events: seq<Event>, k: int) {
    Due(connectedAt, events, k) && forall j :: 0 <= j < k && Silent(events, j, k) ==> !Due(connectedAt, events, j)
  }

  lemma DuePrefix(connectedAt: int, events: seq<Event>, n: nat, k: int)
    requires n <= |events| && k < n
    ensures Due(connectedAt, events[..n], k) <==> Due(connectedAt, events, k)
  {
    if 0 <= k {
      PrefixFacts(connectedAt, events, n, k, k);
      OpenPrefix(events, n, k);
      forall j | 0 <= j < k ensures TooLong(connectedAt, events[..n], j) <==> TooLong(connectedAt, events, j) {
        TooLongPrefix(connectedAt, events, n, j);
      }
      hide TooLong, OpenAt, WarningDue;
    }
  }

  lemma FirstDuePrefix(connectedAt: int, events: seq<Event>, n: nat, k: int)
    requires n <= |events| && k < n
    ensures FirstDue(connectedAt, events[..n], k) <==> FirstDue(connectedAt, events, k)
  {
    DuePrefix(connectedAt, events, n, k);
    forall j | 0 <= j < k
      ensures Due(connectedAt, events[..n], j) <==> Due(connectedAt, events, j)
      ensures Silent(events[..n], j, k) <==> Silent(events, j, k)
    {
      DuePrefix(connectedAt, events, n, j);
      PrefixFacts(connectedAt, events, n, j, k);
    }
    hide Due, Silent;
  }

  lemma SilentJoins(events: seq<Event>, i: int, j: int, k: int)
    requires i <= j <= k
    ensures Silent(events, i, k) <==> Silent(events, i, j) && Silent(events, j, k)
  {
  }

  /** A silence with a tick that is due has a first one. */
  lemma {:induction false} FirstDueExists(connectedAt: int, events: seq<Event>, j: int, n: int) returns (first: int)
    requires 0 <= j < n && Due(connectedAt, events, j) && Silent(events, j, n)
    ensures 0 <= first <= j && FirstDue(connectedAt, events, first) && Silent(events, first, n)
    decreases j
  {
    first := j;
    if !FirstDue(connectedAt, events, j) {
      var i :| 0 <= i < j && Silent(events, i, j) && Due(connectedAt, events, i);
      SilentJoins(events, i, j, n);
      hide Due, Silent;
      first := FirstDueExists(connectedAt, events, i, n);
    }
  }

  /** The flag is up exactly when a tick of the present silence was due. */
  lemma WarnedMeansDue(connectedAt: int, events: seq<Event>, w: State)
    requires WarnedRight(connectedAt, events, w)
    requires forall k :: k in w.warnings <==> FirstDue(connectedAt, events, k)
    ensures w.warned <==> exists j :: 0 <= j < |events| && Due(connectedAt, events, j) && Silent(events, j, |events|)
  {
    var n := |events|;
    if w.warned {
      var last := w.warnings[|w.warnings| - 1];
      assert last in w.warnings;
      assert FirstDue(connectedAt, events, last);
    }
    if exists j :: 0 <= j < n && Due(connectedAt, events, j) && Silent(events, j, n) {
      var j :| 0 <= j < n && Due(connectedAt, events, j) && Silent(events, j, n);
      hide Due;
      var first := FirstDueExists(connectedAt, events, j, n);
      assert first in w.warnings;
      var i :| 0 <= i < |w.warnings| && w.warnings[i] == first;
      var last := w.warnings[|w.warnings| - 1];
      SilentJoins(events, first, last, n);
    }
  }

  /** The client is warned at the first tick of each silence that is due, and at no other time. */
  lemma {:induction false} WarnsExactly(connectedAt: int, events: seq<Event>)
    ensures forall k :: k in After(connectedAt, events).warnings <==> FirstDue(connectedAt, events, k)
  {
    if events != [] {
      var n := |events| - 1;
      var front := events[..n];
      var before := After(connectedAt, front);
      WarnsExactly(connectedAt, front);
      WarnsOncePerSilence(connectedAt, front);
      WarnedMeansDue(connectedAt, front, before);
      NewIsFirstDue(connectedAt, events, before);
      hide After, WarnedRight, Due;
      forall k | k < n ensures FirstDue(connectedAt, front, k) <==> FirstDue(connectedAt, events, k) {
        FirstDuePrefix(connectedAt, events, n, k);
      }
      hide FirstDue;
      assert After(connectedAt, events) == Step(before, events[n], n) by { AfterLast(connectedAt, events); }
      forall k | k in before.warnings ensures k < n {
        assert FirstDue(connectedAt, front, k);
        DueInside(connectedAt, front, k);
      }
      forall k | k > n ensures !FirstDue(connectedAt, events, k) {
        DueInside(connectedAt, events, k);
      }
    }
  }

  lemma AfterLast(connectedAt: int, events: seq<Event>)
    requires events != []
    ensures var n := |events| - 1; After(connectedAt, events) == Step(After(connectedAt, events[..n]), events[n], n)
  {
  }

  lemma DueInside(connectedAt: int, events: seq<Event>, k: int)
    ensures FirstDue(connectedAt, events, k) ==> 0 <= k < |events|
  {
  }

  lemma NewIsFirstDue(connectedAt: int, events: seq<Event>, before: State)
    requires events != [] && before == After(connectedAt, events[..|events| - 1])
    requires var front := events[..|events| - 1];
      before.warned <==> exists j :: 0 <= j < |front| && Due(connectedAt, front, j) && Silent(front, j, |front|)
    ensures var n := |events| - 1;
      FirstDue(connectedAt, events, n) <==> Step(before, events[n], n).warnings == before.warnings + [n]
  {
    var n := |events| - 1;
    var front := events[..n];
    LastIsLastHeard(connectedAt, front);
    TimesOutExactly(connectedAt, front);
    OpenPrefix(events, n, n);
    forall j | 0 <= j < n
      ensures TooLong(connectedAt, front, j) <==> TooLong(connectedAt, events, j)
      ensures Due(connectedAt, front, j) <==> Due(connectedAt, events, j)
      ensures Silent(front, j, n) <==> Silent(events, j, n)
    {
      TooLongPrefix(connectedAt, events, n, j);
      DuePrefix(connectedAt, events, n, j);
      PrefixFacts(connectedAt, events, n, j, n);
    }
    hide TooLong, OpenAt, Silent, LastHeard, After;
    assert Due(connectedAt, events, n) <==>
      && events[n].Tick? && !before.closed && before.timedOut.None? && events[n].time - before.last >= WARNING_AFTER;
    hide Due;
  }

  /** A warning was given at position p, and no message came from then to position k. */
  ghost predicate WarnedAt(connectedAt: int, events: seq<Event>, k: nat, p: int)
    requires k < |events|
  {
    p in After(connectedAt, events[..k + 1]).warnings && 0 <= p <= k && Silent(events, p, k + 1)
  }

  /** A client that is timed out has been warned in the same silence. */
  lemma TimeoutWarned(connectedAt: int, events: seq<Event>, k: nat)
    requires FirstTooLong(connectedAt, events, k)
    ensures exists p :: WarnedAt(connectedAt, events, k, p)
  {
    var upTo := events[..k + 1];
    assert upTo[..k] == events[..k];
    WarnsOncePerSilence(connectedAt, upTo);
    LastIsLastHeard(connectedAt, events[..k]);
    TimesOutExactly(connectedAt, events[..k]);
    forall j | 0 <= j < k ensures !TooLong(connectedAt, events[..k], j) {
      TooLongPrefix(connectedAt, events, k, j);
    }
    var w := After(connectedAt, upTo);
    assert w == Step(After(connectedAt, events[..k]), events[k], k);
    assert w.warned;
    var p := w.warnings[|w.warnings| - 1];
    assert WarningDue(connectedAt, upTo, p);
    PrefixFacts(connectedAt, events, k + 1, p, k + 1);
    assert WarnedAt(connectedAt, events, k, p);
  }

  // ---------------------------------------------------------------- regular ticks

  /** Time does not run backwards, and the monitor's ticks come every ten seconds from its start. */
  ghost predicate Regular(connectedAt: int, start: int, events: seq<Event>) {
    && connectedAt <= start < connectedAt + 6 * 60 * 1_000_000
    && (forall i :: 0 <= i < |events| ==> events[i].time >= start)
    && (forall i, j :: 0 <= i < j < |events| ==> events[i].time <= events[j].time)
    && (forall k :: 0 <= k < |events| && events[k].Tick? ==>
         events[k].time - 10 * 1_000_000 == start || exists j :: TickBefore(events, j, k))
  }

  ghost predicate TickBefore(events: seq<Event>, j: int, k: int) {
    0 <= j < k < |events| && events[j].Tick? && events[j].time == events[k].time - 10 * 1_000_000
  }

  lemma {:induction false} HeardBefore(connectedAt: int, events: seq<Event>, j: nat, k: nat)
    requires j <= k <= |events|
    requires forall i :: j <= i < k ==> LastHeard(connectedAt, events[..k]) < events[i].time
    ensures LastHeard(connectedAt, events[..j]) == LastHeard(connectedAt, events[..k])
    decreases k
  {
    if j < k {
      assert events[..k][..k - 1] == events[..k - 1];
      HeardBefore(connectedAt, events, j, k - 1);
    }
  }

  lemma {:induction false} HeardFrom(connectedAt: int, start: int, events: seq<Event>)
    requires forall i :: 0 <= i < |events| ==> events[i].time >= start
    ensures LastHeard(connectedAt, events) == connectedAt || LastHeard(connectedAt, events) >= start
  {
    if events != [] {
      HeardFrom(connectedAt, start, events[..|events| - 1]);
    }
  }

  /** With regular ticks a client is timed out after at least 6 minutes of silence, and less than 10 seconds later. */
  lemma TimeoutBound(connectedAt: int, start: int, events: seq<Event>, k: nat)
    requires Regular(connectedAt, start, events) && FirstTooLong(connectedAt, events, k)
    ensures 6 * 60 * 1_000_000 <= events[k].time - LastHeard(connectedAt, events[..k]) < (6 * 60 + 10) * 1_000_000
  {
    var heard := LastHeard(connectedAt, events[..k]);
    if events[k].time - heard >= (6 * 60 + 10) * 1_000_000 {
      if events[k].time - 10 * 1_000_000 == start {
        HeardFrom(connectedAt, start, events[..k]);
      } else {
        var j :| TickBefore(events, j, k);
        TickBeforeTooLong(connectedAt, start, events, j, k);
      }
    }
  }

  lemma TickBeforeTooLong(connectedAt: int, start: int, events: seq<Event>, j: nat, k: nat)
    requires Regular(connectedAt, start, events) && TooLong(connectedAt, events, k) && TickBefore(events, j, k)
    requires events[k].time - LastHeard(connectedAt, events[..k]) >= (6 * 60 + 10) * 1_000_000
    ensures TooLong(connectedAt, events, j)
  {
    HeardBefore(connectedAt, events, j, k);
  }
}
