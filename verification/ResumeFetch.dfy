/**
 Fetching the resume list and the default resume side by side: two senders, three buffered channels and one loop that
 receives two messages. Steps interleave in any order, and the caller may cancel at any time.
 */
module ResumeFetch {
  import opened Prelude

  type Resumes = seq<int>

  /** How the two fetches end. A default that is not found counts as an empty one, not as an error. */
  datatype Outcomes = Outcomes(list: Result<Resumes, string>, main: Result<Option<int>, string>)

  datatype Sender = Fetching | Sending | Finished

  datatype Answer = Pending | Answered(result: Result<(Resumes, Option<int>), string>) | Cancelled

  const LIST_ROOM := 1
  const DEFAULT_ROOM := 1
  const ERROR_ROOM := 2

  /** Goroutines, channel contents, and the variables of the receiving loop. */
  datatype State = State(
    listSender: Sender, defaultSender: Sender,
    listChan: seq<Resumes>, defaultChan: seq<Option<int>>, errorChan: seq<string>,
    canceled: bool, completed: nat, list: Resumes, main: Option<int>, errors: seq<string>, answer: Answer)

  datatype Event =
    | ListFetched | ListSends | DefaultFetched | DefaultSends
    | Cancel
    | ReceiveError | ReceiveList | ReceiveDefault | NoticeCancel | LeaveLoop

  function Start(): State {
    State(Fetching, Fetching, [], [], [], false, 0, [], None, [], Pending)
  }

  predicate Looping(s: State) {
    s.answer == Pending && s.completed < 2
  }

  /** A send on a full channel and a receive on an empty one have to wait. */
  predicate Enabled(o: Outcomes, s: State, e: Event) {
    match e
    case ListFetched => s.listSender == Fetching
    case ListSends =>
      s.listSender == Sending && if o.list.Ok? then |s.listChan| < LIST_ROOM else |s.errorChan| < ERROR_ROOM
    case DefaultFetched => s.defaultSender == Fetching
    case DefaultSends =>
      s.defaultSender == Sending && if o.main.Ok? then |s.defaultChan| < DEFAULT_ROOM else |s.errorChan| < ERROR_ROOM
    case Cancel => !s.canceled
    case ReceiveError => Looping(s) && s.errorChan != []
    case ReceiveList => Looping(s) && s.listChan != []
    case ReceiveDefault => Looping(s) && s.defaultChan != []
    case NoticeCancel => Looping(s) && s.canceled
    case LeaveLoop => s.answer == Pending && s.completed >= 2
  }

  function Step(o: Outcomes, s: State, e: Event): State
    requires Enabled(o, s, e)
  {
    match e
    case ListFetched => s.(listSender := Sending)
    case ListSends =>
      if o.list.Ok? then s.(listSender := Finished, listChan := s.listChan + [o.list.value])
      else s.(listSender := Finished, errorChan := s.errorChan + [o.list.error])
    case DefaultFetched => s.(defaultSender := Sending)
    case DefaultSends =>
      if o.main.Ok? then s.(defaultSender := Finished, defaultChan := s.defaultChan + [o.main.value])
      else s.(defaultSender := Finished, errorChan := s.errorChan + [o.main.error])
    case Cancel => s.(canceled := true)
    case ReceiveError =>
      s.(errors := s.errors + [s.errorChan[0]], errorChan := s.errorChan[1..], completed := s.completed + 1)
    case ReceiveList => s.(list := s.listChan[0], listChan := s.listChan[1..], completed := s.completed + 1)
    case ReceiveDefault => s.(main := s.defaultChan[0], defaultChan := s.defaultChan[1..], completed := s.completed + 1)
    case NoticeCancel => s.(answer := Cancelled)
    case LeaveLoop =>
      s.(answer := Answered(if s.errors != [] then Err(s.errors[0]) else Ok((s.list, s.main))))
  }

  /** The states an execution can get into. */
  ghost predicate Execution(o: Outcomes, states: seq<State>, events: seq<Event>) {
    && |states| == |events| + 1 && states[0] == Start()
    && forall i :: 0 <= i < |events| ==>
      Enabled(o, states[i], events[i]) && states[i + 1] == Step(o, states[i], events[i])
  }

  // ---------------------------------------------------------------- the invariant

  /** Where the message of one side is: not sent yet, in its channel, or received. */
  ghost predicate ListSide(o: Outcomes, s: State, received: bool) {
    && (o.list.Err? ==> s.listChan == [] && s.list == [])
    && (o.list.Ok? ==> s.listChan == if s.listSender == Finished && !received then [o.list.value] else [])
    && (o.list.Ok? ==> s.list == if received then o.list.value else [])
  }

  ghost predicate DefaultSide(o: Outcomes, s: State, received: bool) {
    && (o.main.Err? ==> s.defaultChan == [] && s.main == None)
    && (o.main.Ok? ==> s.defaultChan == if s.defaultSender == Finished && !received then [o.main.value] else [])
    && (o.main.Ok? ==> s.main == if received then o.main.value else None)
  }

  /** The errors sent so far, received ones first. */
  ghost predicate ErrorSide(o: Outcomes, s: State) {
    var all := s.errors + s.errorChan;
    var fromList, fromDefault := o.list.Err? && s.listSender == Finished, o.main.Err? && s.defaultSender == Finished;
    && (!fromList && !fromDefault ==> all == [])
    && (fromList && !fromDefault ==> all == [o.list.error])
    && (fromDefault && !fromList ==> all == [o.main.error])
    && (fromList && fromDefault ==> all == [o.list.error, o.main.error] || all == [o.main.error, o.list.error])
  }

  /** How many of the two messages have been received. */
  ghost predicate Counted(o: Outcomes, s: State, gotList: bool, gotDefault: bool) {
    && (gotList ==> o.list.Ok? && s.listSender == Finished)
    && (gotDefault ==> o.main.Ok? && s.defaultSender == Finished)
    && s.completed == |s.errors| + (if gotList then 1 else 0) + (if gotDefault then 1 else 0)
  }

  ghost predicate Concluded(s: State) {
    && (s.answer.Answered? ==> s.completed == 2)
    && (s.answer.Answered? ==> s.answer.result == if s.errors != [] then Err(s.errors[0]) else Ok((s.list, s.main)))
    && (s.answer == Cancelled ==> s.canceled)
  }

  ghost predicate At(o: Outcomes, s: State, gotList: bool, gotDefault: bool) {
    && ListSide(o, s, gotList) && DefaultSide(o, s, gotDefault) && ErrorSide(o, s) && Counted(o, s, gotList, gotDefault)
    && Concluded(s)
  }

  ghost predicate Inv(o: Outcomes, s: State) {
    exists gotList, gotDefault :: At(o, s, gotList, gotDefault)
  }

  lemma SentError(all: seq<string>, errors: seq<string>, errorChan: seq<string>, error: string)
    requires all == errors + errorChan
    ensures errors + (errorChan + [error]) == all + [error]
  {
  }

  lemma ListSenderStep(o: Outcomes, s: State, e: Event, gotList: bool, gotDefault: bool)
    requires At(o, s, gotList, gotDefault) && Enabled(o, s, e) && (e == ListFetched || e == ListSends)
    ensures At(o, Step(o, s, e), gotList, gotDefault)
  {
    var t := Step(o, s, e);
    assert ErrorSide(o, t) by {
      hide ListSide, DefaultSide, Counted, Concluded;
      if e == ListSends && o.list.Err? {
        SentError(s.errors + s.errorChan, s.errors, s.errorChan, o.list.error);
      }
    }
    hide ErrorSide;
  }

  lemma DefaultSenderStep(o: Outcomes, s: State, e: Event, gotList: bool, gotDefault: bool)
    requires At(o, s, gotList, gotDefault) && Enabled(o, s, e) && (e == DefaultFetched || e == DefaultSends)
    ensures At(o, Step(o, s, e), gotList, gotDefault)
  {
    var t := Step(o, s, e);
    assert ErrorSide(o, t) by {
      hide ListSide, DefaultSide, Counted, Concluded;
      if e == DefaultSends && o.main.Err? {
        SentError(s.errors + s.errorChan, s.errors, s.errorChan, o.main.error);
      }
    }
    hide ErrorSide;
  }

  lemma ErrorReceived(o: Outcomes, s: State, gotList: bool, gotDefault: bool)
    requires At(o, s, gotList, gotDefault) && Enabled(o, s, ReceiveError)
    ensures At(o, Step(o, s, ReceiveError), gotList, gotDefault)
  {
    var t := Step(o, s, ReceiveError);
    assert t.errors + t.errorChan == s.errors + s.errorChan;
    assert ErrorSide(o, t) by {
      hide ListSide, DefaultSide, Counted, Concluded;
    }
    hide ErrorSide;
  }

  lemma ListReceived(o: Outcomes, s: State, gotList: bool, gotDefault: bool)
    requires At(o, s, gotList, gotDefault) && Enabled(o, s, ReceiveList)
    ensures At(o, Step(o, s, ReceiveList), true, gotDefault)
  {
  }

  lemma DefaultReceived(o: Outcomes, s: State, gotList: bool, gotDefault: bool)
    requires At(o, s, gotList, gotDefault) && Enabled(o, s, ReceiveDefault)
    ensures At(o, Step(o, s, ReceiveDefault), gotList, true)
  {
  }

  lemma Ended(o: Outcomes, s: State, e: Event, gotList: bool, gotDefault: bool)
    requires At(o, s, gotList, gotDefault) && Enabled(o, s, e) && (e == Cancel || e == NoticeCancel || e == LeaveLoop)
    ensures At(o, Step(o, s, e), gotList, gotDefault)
  {
  }

  lemma StepKeepsInv(o: Outcomes, s: State, e: Event)
    requires Inv(o, s) && Enabled(o, s, e)
    ensures Inv(o, Step(o, s, e))
  {
    var gotList, gotDefault :| At(o, s, gotList, gotDefault);
    hide At, Enabled, Step;
    match e
    case ListFetched => ListSenderStep(o, s, e, gotList, gotDefault);
    case ListSends => ListSenderStep(o, s, e, gotList, gotDefault);
    case DefaultFetched => DefaultSenderStep(o, s, e, gotList, gotDefault);
    case DefaultSends => DefaultSenderStep(o, s, e, gotList, gotDefault);
    case ReceiveError => ErrorReceived(o, s, gotList, gotDefault);
    case ReceiveList => ListReceived(o, s, gotList, gotDefault);
    case ReceiveDefault => DefaultReceived(o, s, gotList, gotDefault);
    case Cancel => Ended(o, s, e, gotList, gotDefault);
    case NoticeCancel => Ended(o, s, e, gotList, gotDefault);
    case LeaveLoop => Ended(o, s, e, gotList, gotDefault);
  }

  lemma {:induction false} Reached(o: Outcomes, states: seq<State>, events: seq<Event>, n: nat)
    requires Execution(o, states, events) && n <= |events|
    ensures Inv(o, states[n])
  {
    hide Step, Enabled, At;
    if n == 0 {
      StartsRight(o);
    } else {
      Reached(o, states, events, n - 1);
      StepKeepsInv(o, states[n - 1], events[n - 1]);
    }
  }

  lemma StartsRight(o: Outcomes)
    ensures Inv(o, Start())
  {
    assert At(o, Start(), false, false);
  }

  // ---------------------------------------------------------------- what callers get

  /** No sender ever waits: its channel has room, even when the loop has left because the caller canceled. */
  lemma NoSenderBlocks(o: Outcomes, states: seq<State>, events: seq<Event>, n: nat)
    requires Execution(o, states, events) && n <= |events|
    ensures states[n].listSender == Sending ==> Enabled(o, states[n], ListSends)
    ensures states[n].defaultSender == Sending ==> Enabled(o, states[n], DefaultSends)
  {
    Reached(o, states, events, n);
    var gotList, gotDefault :| At(o, states[n], gotList, gotDefault);
  }

  /** How many steps are left at most, cancellation aside. */
  function StepsLeft(s: State): nat {
    Left(s.listSender) + Left(s.defaultSender) + (if s.canceled then 0 else 1)
    + (if s.answer != Pending then 0 else if s.completed >= 2 then 1 else 3 - s.completed)
  }

  function Left(s: Sender): nat {
    match s
    case Fetching => 2
    case Sending => 1
    case Finished => 0
  }

  /** The join never deadlocks: until there is an answer some step other than a cancellation is possible. */
  lemma NoDeadlock(o: Outcomes, states: seq<State>, events: seq<Event>, n: nat)
    requires Execution(o, states, events) && n <= |events| && states[n].answer == Pending
    ensures exists e :: e != Cancel && Enabled(o, states[n], e)
  {
    var s := states[n];
    Reached(o, states, events, n);
    NoSenderBlocks(o, states, events, n);
    var gotList, gotDefault :| At(o, s, gotList, gotDefault);
    if s.listSender == Fetching {
      assert Enabled(o, s, ListFetched);
    } else if s.listSender == Sending {
      assert Enabled(o, s, ListSends);
    } else if s.defaultSender == Fetching {
      assert Enabled(o, s, DefaultFetched);
    } else if s.defaultSender == Sending {
      assert Enabled(o, s, DefaultSends);
    } else if s.completed >= 2 {
      assert Enabled(o, s, LeaveLoop);
    } else if s.errorChan != [] {
      assert Enabled(o, s, ReceiveError);
    } else if s.listChan != [] {
      assert Enabled(o, s, ReceiveList);
    } else {
      assert Enabled(o, s, ReceiveDefault);
    }
  }

  /** Every step uses one up, so every execution ends. */
  lemma {:induction false} Terminates(o: Outcomes, states: seq<State>, events: seq<Event>, n: nat)
    requires Execution(o, states, events) && n <= |events|
    ensures StepsLeft(states[n]) + n <= StepsLeft(Start()) == 8
  {
    if n > 0 {
      Terminates(o, states, events, n - 1);
      assert Enabled(o, states[n - 1], events[n - 1]);
    }
  }

  /** What fetching one after the other would give. */
  function Sequential(o: Outcomes): Result<(Resumes, Option<int>), string> {
    if o.list.Err? then Err(o.list.error)
    else if o.main.Err? then Err(o.main.error)
    else Ok((o.list.value, o.main.value))
  }

  /** An error of one of the failed fetches. */
  ghost predicate ErrorOf(o: Outcomes, error: string) {
    (o.list.Err? && error == o.list.error) || (o.main.Err? && error == o.main.error)
  }

  /**
   Whatever the interleaving: an answer comes after exactly two messages; it is an error exactly when some fetch failed,
   and then one of their errors; otherwise it is the pair a sequential fetch gives. Only a canceled call has no answer.
   */
  lemma JoinIsSequential(o: Outcomes, states: seq<State>, events: seq<Event>, n: nat)
    requires Execution(o, states, events) && n <= |events|
    ensures var s := states[n];
      && (s.answer.Answered? ==> s.completed == 2 && s.listSender == Finished && s.defaultSender == Finished)
      && (s.answer.Answered? ==> (s.answer.result.Err? <==> Sequential(o).Err?))
      && (s.answer.Answered? && s.answer.result.Ok? ==> s.answer.result == Sequential(o))
      && (s.answer.Answered? && s.answer.result.Err? ==> ErrorOf(o, s.answer.result.error))
      && (s.answer == Cancelled ==> s.canceled)
  {
    var s := states[n];
    Reached(o, states, events, n);
    var gotList, gotDefault :| At(o, s, gotList, gotDefault);
    assert |s.errors + s.errorChan| == |s.errors| + |s.errorChan|;
    if s.errors != [] {
      assert (s.errors + s.errorChan)[0] == s.errors[0];
      assert s.errors[0] in s.errors + s.errorChan;
    }
  }

  // ---------------------------------------------------------------- the receiving loop

  datatype Message = Failed(error: string) | GotList(list: Resumes) | GotDefault(main: Option<int>)

  /** A select yields a message or notices the cancellation. */
  datatype Received = Of(message: Message) | Done

  const CANCELED := "context canceled"

  /** The counting loop over what its selects yield; it leaves at once when one of them notices the cancellation. */
  method Join(received: seq<Received>) returns (r: Result<(Resumes, Option<int>), string>)
    requires |received| == 2
    ensures received[0].Done? || received[1].Done? ==> r == Err(CANCELED)
    ensures received[0].Of? && received[1].Of? ==>
      var first, second := received[0].message, received[1].message;
      && (r.Err? <==> first.Failed? || second.Failed?)
      && (r.Err? ==> r.error == if first.Failed? then first.error else second.error)
      && (first.GotList? && second.GotDefault? ==> r == Ok((first.list, second.main)))
      && (first.GotDefault? && second.GotList? ==> r == Ok((second.list, first.main)))
  {
    var list: Resumes := [];
    var main: Option<int> := None;
    var errors: seq<string> := [];
    var completed := 0;
    while completed < 2
      invariant completed <= 2
      invariant forall k :: 0 <= k < completed ==> received[k].Of?
      invariant completed == 0 ==> errors == []
      invariant completed == 1 ==> errors == if received[0].message.Failed? then [received[0].message.error] else []
      invariant completed == 2 ==>
        (errors != [] <==> received[0].message.Failed? || received[1].message.Failed?)
      invariant completed == 2 && errors != [] ==>
        errors[0] == if received[0].message.Failed? then received[0].message.error else received[1].message.error
      invariant completed == 1 && received[0].message.GotList? ==> list == received[0].message.list
      invariant completed == 1 && received[0].message.GotDefault? ==> main == received[0].message.main
      invariant completed == 2 && received[0].message.GotList? && received[1].message.GotDefault? ==>
        list == received[0].message.list && main == received[1].message.main
      invariant completed == 2 && received[0].message.GotDefault? && received[1].message.GotList? ==>
        list == received[1].message.list && main == received[0].message.main
    {
      match received[completed] {
        case Done => return Err(CANCELED);
        case Of(Failed(error)) => errors := errors + [error];
        case Of(GotList(l)) => list := l;
        case Of(GotDefault(d)) => main := d;
      }
      completed := completed + 1;
    }
    if |errors| > 0 {
      return Err(errors[0]);
    }
    return Ok((list, main));
  }
}
