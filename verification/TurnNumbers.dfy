/** Numbering the turns of a session: a counter in the cache, backed by the largest number in the table. */
module TurnNumbers {
  import opened Prelude
  import ChatHistory

  /** The counter key, which may be missing, and the stored turn numbers in the order of insertion. */
  datatype State = State(counter: Option<int>, stored: seq<int>)

  /**
   How the calls for one turn end: the increment may be applied and still not be answered; reading the largest number,
   writing it back, getting the times of the turn and the insert may each fail.
   */
  datatype Faults = Faults(applied: bool, answered: bool, maxRead: bool, written: bool, timed: bool, statement: bool)

  datatype Event = CreateTurn(faults: Faults) | KeyLost

  /** COALESCE(MAX(turn_no), 0); turn numbers are positive. */
  function MaxOf(stored: seq<int>): int {
    if stored == [] then 0
    else
      var rest, last := MaxOf(stored[..|stored| - 1]), stored[|stored| - 1];
      if last > rest then last else rest
  }

  /** Incrementing a missing key makes it 1. */
  function Incremented(counter: Option<int>): int {
    if counter.Some? then counter.value + 1 else 1
  }

  predicate Answered(f: Faults) {
    f.applied && f.answered
  }

  /** The number handed out, if any, and the counter left behind. */
  function Increase(w: State, f: Faults): (Option<int>, Option<int>) {
    var counter := if f.applied then Some(Incremented(w.counter)) else w.counter;
    if Answered(f) then (counter, counter)
    else if !f.maxRead then (None, counter)
    else
      var no := MaxOf(w.stored) + 1;
      (Some(no), if f.written then Some(no) else counter)
  }

  /** Numbers are unique within a session. */
  function Insert(stored: seq<int>, no: int, f: Faults): seq<int> {
    if f.timed && f.statement && no !in stored then stored + [no] else stored
  }

  function Step(w: State, e: Event): State {
    match e
    case KeyLost => w.(counter := None)
    case CreateTurn(f) =>
      var (no, counter) := Increase(w, f);
      State(counter, if no.Some? then Insert(w.stored, no.value, f) else w.stored)
  }

  function After(w: State, events: seq<Event>): State {
    if events == [] then w else Step(After(w, events[..|events| - 1]), events[|events| - 1])
  }

  class TurnService {
    var counter: Option<int>
    var stored: seq<int>

    constructor ()
      ensures View() == State(None, [])
    {
      counter, stored := None, [];
    }

    function View(): State
      reads this
    {
      State(counter, stored)
    }

    /** While the counter is ahead, every number handed out is above all stored ones and the counter stays ahead. */
    method IncreaseMaxTurnNo(f: Faults) returns (no: Option<int>)
      modifies this`counter
      ensures no.None? <==> !(f.applied && f.answered) && !f.maxRead
      ensures !(f.applied && f.answered) && f.maxRead ==> no == Some(MaxOf(stored) + 1)
      ensures f.applied && f.answered ==> no == Some(if old(counter).Some? then old(counter).value + 1 else 1)
      ensures counter == (if f.applied && f.answered then no else if f.maxRead && f.written then no
                          else if !f.applied then old(counter)
                          else Some(if old(counter).Some? then old(counter).value + 1 else 1))
      ensures Inv(old(View())) && no.Some? ==> no.value > MaxOf(stored) && Increasing(stored + [no.value])
      ensures Inv(old(View())) ==> Inv(View())
      ensures (no, counter) == Increase(old(View()), f)
    {
      ghost var before := View();
      assert Inv(before) ==> NumberFits(before, f) by {
        if Inv(before) {
          NextNumber(before, f);
        }
      }
      hide Inv, Increasing;
      var answer: Option<int> := None;
      if f.applied {
        counter := Some(if counter.Some? then counter.value + 1 else 1);
        if f.answered {
          answer := counter;
        }
      }
      if answer.None? {
        if !f.maxRead {
          return None;
        }
        var maxTurnNo := LargestNumber();
        maxTurnNo := maxTurnNo + 1;
        if f.written {
          counter := Some(maxTurnNo);
        }
        return Some(maxTurnNo);
      }
      return answer;
    }

    method LargestNumber() returns (m: int)
      ensures m == MaxOf(stored)
    {
      m := 0;
      for i := 0 to |stored|
        invariant m == MaxOf(stored[..i])
      {
        assert stored[..i + 1][..i] == stored[..i];
        if stored[i] > m {
          m := stored[i];
        }
      }
      assert stored[..|stored|] == stored;
    }

    method CreateSessionTurn(f: Faults) returns (ok: bool)
      modifies this
      ensures Inv(old(View())) ==> (ok <==> (Answered(f) || f.maxRead) && f.timed && f.statement)
      ensures !ok ==> stored == old(stored)
      ensures ok ==> |stored| == old(|stored|) + 1 && stored[..old(|stored|)] == old(stored)
      ensures View() == Step(old(View()), CreateTurn(f))
    {
      if Inv(View()) {
        StepStores(View(), f);
      }
      hide Inv;
      var no := IncreaseMaxTurnNo(f);
      if no.None? || !f.timed || !f.statement || no.value in stored {
        return false;
      }
      stored := stored + [no.value];
      return true;
    }
  }

  // ---------------------------------------------------------------- what holds always

  ghost predicate Increasing(stored: seq<int>) {
    forall i, j :: 0 <= i < j < |stored| ==> stored[i] < stored[j]
  }

  ghost predicate Numbers(stored: seq<int>) {
    && (forall i, j :: 0 <= i < j < |stored| ==> stored[i] != stored[j])
    && (forall i :: 0 <= i < |stored| ==> stored[i] >= 1)
  }

  ghost predicate Sane(w: State) {
    Numbers(w.stored) && (w.counter.Some? ==> w.counter.value >= 0)
  }

  lemma {:induction false} MaxBounds(stored: seq<int>)
    ensures MaxOf(stored) >= 0
    ensures forall i :: 0 <= i < |stored| ==> stored[i] <= MaxOf(stored)
    ensures MaxOf(stored) > 0 ==> MaxOf(stored) in stored
  {
    if stored != [] {
      MaxBounds(stored[..|stored| - 1]);
      assert stored == stored[..|stored| - 1] + [stored[|stored| - 1]];
    }
  }

  lemma LastIsMax(stored: seq<int>)
    requires Increasing(stored) && Numbers(stored) && stored != []
    ensures stored[|stored| - 1] == MaxOf(stored)
  {
  }

  /** A number above all stored ones is not refused and keeps them increasing. */
  lemma AppendNext(stored: seq<int>, no: int)
    requires Increasing(stored) && no > MaxOf(stored)
    ensures no !in stored && Increasing(stored + [no]) && MaxOf(stored + [no]) == no
  {
  }

  lemma StepSane(w: State, e: Event)
    requires Sane(w)
    ensures Sane(Step(w, e))
  {
  }

  /** Even when the counter key is lost turn numbers stay unique and positive. */
  lemma {:induction false} NumbersHold(w: State, events: seq<Event>)
    requires Sane(w)
    ensures Sane(After(w, events))
  {
    hide Sane, Step;
    if events != [] {
      NumbersHold(w, events[..|events| - 1]);
      StepSane(After(w, events[..|events| - 1]), events[|events| - 1]);
    }
  }

  // ---------------------------------------------------------------- increasing numbers

  /** The counter is not behind the largest number stored. */
  ghost predicate Ahead(w: State) {
    w.stored == [] || (w.counter.Some? && w.counter.value >= MaxOf(w.stored))
  }

  ghost predicate Inv(w: State) {
    Sane(w) && Increasing(w.stored) && Ahead(w)
  }

  /**
   The key is lost while turns exist, or a turn is stored under a number from the table that was not written back while
   the counter, which the failed increment left alone, is not above the stored numbers.
   */
  ghost predicate Slips(w: State, e: Event) {
    match e
    case KeyLost => w.stored != []
    case CreateTurn(f) =>
      && !f.applied && f.maxRead && !f.written && f.timed && f.statement
      && (w.counter.None? || w.counter.value <= MaxOf(w.stored))
  }

  /** A number above all stored ones keeps the invariant unless it is stored with a counter behind it. */
  lemma InsertKeeps(stored: seq<int>, no: int, counter: Option<int>, f: Faults)
    requires Numbers(stored) && Increasing(stored) && no > MaxOf(stored)
    requires Ahead(State(counter, stored))
    ensures var after := Insert(stored, no, f);
      && Increasing(after)
      && (Ahead(State(counter, after)) <==> after == stored || (counter.Some? && counter.value >= no))
  {
  }

  /** What the increase hands out is above all stored numbers. */
  lemma IncreaseAbove(w: State, f: Faults)
    requires Inv(w)
    ensures var (no, counter) := Increase(w, f);
      && (no.Some? ==> no.value > MaxOf(w.stored))
      && (counter.Some? ==> counter.value >= 0)
      && Ahead(State(counter, w.stored))
      && (Answered(f) ==> counter == no)
  {
  }

  /** A number from the table is the next one; its turn is stored unless its times or the statement are missing. */
  lemma FallbackStores(w: State, f: Faults)
    requires Inv(w) && !Answered(f) && f.maxRead
    ensures Increase(w, f).0 == Some(MaxOf(w.stored) + 1)
    ensures Insert(w.stored, MaxOf(w.stored) + 1, f) != w.stored <==> f.timed && f.statement
  {
    hide MaxOf, Increasing, Numbers;
    AppendNext(w.stored, MaxOf(w.stored) + 1);
  }

  /** The number handed out is above all stored ones, and the counter left behind is ahead. */
  ghost predicate NumberFits(w: State, f: Faults) {
    var (no, counter) := Increase(w, f);
    && (no.Some? ==> no.value > MaxOf(w.stored) && Increasing(w.stored + [no.value]))
    && Inv(w.(counter := counter))
  }

  lemma NextNumber(w: State, f: Faults)
    requires Inv(w)
    ensures NumberFits(w, f)
  {
    IncreaseAbove(w, f);
    var no := Increase(w, f).0;
    if no.Some? {
      AppendNext(w.stored, no.value);
    }
    hide MaxOf, Increasing;
  }

  /** One step keeps numbers increasing with the counter ahead exactly when it does not slip. */
  lemma StepKeepsAhead(w: State, e: Event)
    requires Inv(w)
    ensures Increasing(Step(w, e).stored)
    ensures Inv(Step(w, e)) <==> !Slips(w, e)
  {
    StepSane(w, e);
    if e.CreateTurn? {
      var f := e.faults;
      var (no, counter) := Increase(w, f);
      IncreaseAbove(w, f);
      if !Answered(f) && f.maxRead {
        FallbackStores(w, f);
      }
      assert Numbers(w.stored);
      assert no.Some? && !Answered(f) ==>
        (counter.None? || counter.value < no.value <==>
          !f.applied && !f.written && (w.counter.None? || w.counter.value <= MaxOf(w.stored)));
      hide MaxOf, Increasing, Sane, Increase, Insert, Numbers;
      if no.Some? {
        InsertKeeps(w.stored, no.value, counter, f);
      }
    }
  }

  /** A turn is stored, under a number above all others, exactly when a number is found and the turn can be written. */
  lemma StepStores(w: State, f: Faults)
    requires Inv(w)
    ensures var after := Step(w, CreateTurn(f)).stored;
      if (Answered(f) || f.maxRead) && f.timed && f.statement
      then |after| == |w.stored| + 1 && w.stored == after[..|w.stored|] && after[|w.stored|] > MaxOf(w.stored)
      else after == w.stored
  {
    StepSane(w, CreateTurn(f));
    IncreaseAbove(w, f);
    var no := Increase(w, f).0;
    if no.Some? {
      AppendNext(w.stored, no.value);
    }
    hide MaxOf, Increasing, Sane;
  }

  ghost predicate NeverSlips(w: State, events: seq<Event>) {
    events == [] || (var n := |events| - 1; NeverSlips(w, events[..n]) && !Slips(After(w, events[..n]), events[n]))
  }

  /**
   Over every run mixing increments, fallbacks to the table and failed inserts, stored turn numbers are strictly
   increasing and the counter stays ahead, as long as no step slips.
   */
  lemma {:induction false} NumbersIncrease(w: State, events: seq<Event>)
    requires Inv(w) && NeverSlips(w, events)
    ensures Inv(After(w, events))
  {
    hide Inv, Slips, Step;
    if events != [] {
      var n := |events| - 1;
      NumbersIncrease(w, events[..n]);
      StepKeepsAhead(After(w, events[..n]), events[n]);
    }
  }

  ghost predicate AheadThroughout(w: State, events: seq<Event>) {
    Inv(After(w, events)) && (events != [] ==> AheadThroughout(w, events[..|events| - 1]))
  }

  /** Over every run numbers increase with the counter ahead throughout exactly when no step slips. */
  lemma {:induction false} NumbersRun(w: State, events: seq<Event>)
    requires Inv(w)
    ensures AheadThroughout(w, events) <==> NeverSlips(w, events)
  {
    hide Inv, Slips, Step;
    if events != [] {
      var n := |events| - 1;
      NumbersRun(w, events[..n]);
      if Inv(After(w, events[..n])) {
        StepKeepsAhead(After(w, events[..n]), events[n]);
      }
    }
  }

  /** Every number from the table is written back, and the key is not lost while turns exist. */
  ghost predicate WrittenBack(w: State, events: seq<Event>) {
    events == [] ||
    (var n := |events| - 1;
     && WrittenBack(w, events[..n])
     && (events[n].KeyLost? ==> After(w, events[..n]).stored == [])
     && (events[n].CreateTurn? ==> var f := events[n].faults; Answered(f) || !f.maxRead || f.written))
  }

  /** In such a run, whatever increments, reads and inserts fail, stored turn numbers are strictly increasing. */
  lemma {:induction false} WrittenBackIncreases(w: State, events: seq<Event>)
    requires Inv(w) && WrittenBack(w, events)
    ensures NeverSlips(w, events) && Inv(After(w, events)) && Increasing(After(w, events).stored)
  {
    WrittenBackNeverSlips(w, events);
    NumbersIncrease(w, events);
  }

  lemma {:induction false} WrittenBackNeverSlips(w: State, events: seq<Event>)
    requires WrittenBack(w, events)
    ensures NeverSlips(w, events)
  {
    hide After, Step, MaxOf;
    if events != [] {
      WrittenBackNeverSlips(w, events[..|events| - 1]);
    }
  }

  /** A number from the counter goes behind all stored ones exactly when the counter was ahead. */
  lemma CounterNumberIsNext(w: State, f: Faults)
    requires Sane(w) && Increasing(w.stored) && Answered(f)
    ensures var no := Increase(w, f).0;
      no.Some? && (Increasing(w.stored + [no.value]) <==> Ahead(w))
  {
    var no := Increase(w, f).0.value;
    if Ahead(w) {
      MaxBounds(w.stored);
      AppendNext(w.stored, no);
    } else {
      LastIsMax(w.stored);
      var appended := w.stored + [no];
      assert appended[|w.stored| - 1] == MaxOf(w.stored) && appended[|w.stored|] == no;
    }
  }

  const ALL_WELL := Faults(true, true, true, true, true, true)

  /**
   Losing the key is not harmless: after turns 1 and 3 (number 2 was lost to a failed insert) the counter starts over,
   number 1 is refused, and then number 2 is stored after number 3.
   */
  lemma LostKeyDisorders(w1: State, w2: State, w3: State, w4: State, w5: State, w6: State)
    requires w1 == Step(State(None, []), CreateTurn(ALL_WELL))
    requires w2 == Step(w1, CreateTurn(ALL_WELL.(statement := false)))
    requires w3 == Step(w2, CreateTurn(ALL_WELL))
    requires w4 == Step(w3, KeyLost)
    requires w5 == Step(w4, CreateTurn(ALL_WELL))
    requires w6 == Step(w5, CreateTurn(ALL_WELL))
    ensures w6.stored == [1, 3, 2] && !Increasing(w6.stored)
  {
    hide MaxOf;
    assert w1 == State(Some(1), [1]);
    assert w3 == State(Some(3), [1, 3]);
    assert w5 == State(Some(1), [1, 3]);
    assert w6.stored == [1, 3, 2];
    assert w6.stored[1] > w6.stored[2];
  }

  // ---------------------------------------------------------------- the history pagers

  /**
   Whatever happens to the counter key, both history pagers serve the stored turns of a session completely and in order,
   while turn numbers fit their 32-bit cursors.
   */
  lemma StoredTurnsPage(w: State, events: seq<Event>, table: seq<ChatHistory.Turn>, pages: nat)
    requires Sane(w) && |table| == |After(w, events).stored|
    requires forall i :: 0 <= i < |table| ==> table[i].turnNo == After(w, events).stored[i] < 0x8000_0000
    requires pages == (|table| + 19) / 20
    ensures ChatHistory.ReadBack(table, pages) == ChatHistory.ReadForward(table, pages) == ChatHistory.Ascending(table)
    ensures ChatHistory.InOrder(ChatHistory.Ascending(table))
    ensures multiset(ChatHistory.Ascending(table)) == multiset(table)
  {
    NumbersHold(w, events);
    hide After;
    assert ChatHistory.History(table);
    hide *;
    ChatHistory.PagersAgree(table, pages);
  }
}
