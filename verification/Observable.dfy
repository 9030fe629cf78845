/** The log observable (log/observable.go, log/subscriber.go): one `process` loop fans items out to
    subscribers that come, go and read at any time.

    `Subscribe` and `UnSubscribe` do not block while they hold the mutex, so each is one step; the
    fan-out does block on full channels, so every `Emit` is a step of its own, in any order. */
module Observable {
  import opened Runs

  const BUFFER_SIZE: nat := 200

  datatype Event = Event(level: nat, payload: string)

  /** A `Subscriber`, what its reader has taken, and when it came and left. */
  datatype Subscriber = Subscriber(
    buffer: seq<Event>,
    closed: bool,         // the channel
    onceDone: bool,       // the sync.Once
    consumed: seq<Event>,
    joined: nat,          // items processed before it subscribed
    left: Option<nat>)    // items processed when it unsubscribed

  /** The `process` loop; it holds the mutex while emitting and while closing. */
  datatype Process =
    | Waiting
    | Got(item: Event)
    | Emitting(rest: set<nat>)
    | InputEnded
    | Closing(rest: set<nat>)
    | Over

  datatype State = State(
    process: Process,
    processed: seq<Event>,  // items taken up by the fan-out, in order
    subs: seq<Subscriber>,  // every subscriber there ever was
    listener: set<nat>,
    done: bool,
    panicked: bool)         // a send on, or a second close of, a closed channel

  function Init(): State {
    State(Waiting, [], [], {}, false, false)
  }

  datatype Action =
    | Receive(item: Event) | LockForItem | Emit(id: nat) | Unlock
    | InputEnds | LockToClose | CloseOne(id: nat) | Finish
    | Subscribe | Unsubscribe(id: nat) | Consume(id: nat)

  predicate MutexFree(s: State) {
    !s.process.Emitting? && !s.process.Closing?
  }

  /** `Subscriber.Close`: closes the channel the first time it is called. */
  function CloseChannel(s: State, id: nat): State
    requires id < |s.subs|
  {
    var x := s.subs[id];
    if x.onceDone then s
    else if x.closed then s.(panicked := true)
    else s.(subs := s.subs[id := x.(closed := true, onceDone := true)])
  }

  function Send(s: State, id: nat): Option<State>
    requires id < |s.subs| && s.processed != []
  {
    var x := s.subs[id];
    if x.closed then Some(s.(panicked := true))
    else if |x.buffer| < BUFFER_SIZE
    then Some(s.(subs := s.subs[id := x.(buffer := x.buffer + [s.processed[|s.processed| - 1]])]))
    else None
  }

  /** One step of the `process` goroutine. */
  function ProcessStep(s: State, a: Action): Option<State> {
    match a
    case Receive(item) => if s.process.Waiting? then Some(s.(process := Got(item))) else None
    case LockForItem =>
      if s.process.Got?
      then Some(s.(process := Emitting(s.listener), processed := s.processed + [s.process.item]))
      else None
    case Emit(id) =>
      if s.process.Emitting? && id in s.process.rest && id < |s.subs| && s.processed != [] then
        match Send(s, id) {
          case None => None
          case Some(t) => Some(t.(process := Emitting(s.process.rest - {id})))
        }
      else None
    case Unlock => if s.process.Emitting? && s.process.rest == {} then Some(s.(process := Waiting)) else None
    case InputEnds => if s.process.Waiting? then Some(s.(process := InputEnded)) else None
    case LockToClose =>
      if s.process.InputEnded? then Some(s.(process := Closing(s.listener), done := true)) else None
    case CloseOne(id) =>
      if s.process.Closing? && id in s.process.rest && id < |s.subs|
      then Some(CloseChannel(s, id).(process := Closing(s.process.rest - {id})))
      else None
    case Finish => if s.process.Closing? && s.process.rest == {} then Some(s.(process := Over)) else None
    case _ => None
  }

  /** One step of a subscriber: coming, leaving or reading. */
  function SubscriberStep(s: State, a: Action): Option<State> {
    match a
    case Subscribe =>
      if !MutexFree(s) then None
      else if s.done then Some(s)
      else Some(s.(subs := s.subs + [Subscriber([], false, false, [], |s.processed|, None)],
                   listener := s.listener + {|s.subs|}))
    case Unsubscribe(id) =>
      if !MutexFree(s) then None
      else if id !in s.listener || id >= |s.subs| then Some(s)
      else
        var t := CloseChannel(s, id);
        Some(t.(listener := s.listener - {id},
                subs := t.subs[id := t.subs[id].(left := Some(|s.processed|))]))
    case Consume(id) =>
      if id < |s.subs| && s.subs[id].buffer != [] then
        var x := s.subs[id];
        Some(s.(subs := s.subs[id := x.(buffer := x.buffer[1..], consumed := x.consumed + [x.buffer[0]])]))
      else None
    case _ => None
  }

  predicate OfProcess(a: Action) {
    !a.Subscribe? && !a.Unsubscribe? && !a.Consume?
  }

  function Step(s: State, a: Action): Option<State> {
    if s.panicked then None
    else if OfProcess(a) then ProcessStep(s, a)
    else SubscriberStep(s, a)
  }

  // ---- Invariant ----

  /** How many items subscriber `id` should have been sent up to: all while it is subscribed, except
      the one under way if its turn has not come. */
  function UpTo(s: State, id: nat): int
    requires id < |s.subs|
  {
    if s.subs[id].left.Some? then s.subs[id].left.value
    else if s.process.Emitting? && id in s.process.rest then |s.processed| - 1
    else |s.processed|
  }

  predicate SubOk(s: State, id: nat)
    requires id < |s.subs|
  {
    var x := s.subs[id];
    && x.onceDone == x.closed
    && (id in s.listener <==> x.left.None?)
    && 0 <= x.joined <= UpTo(s, id) <= |s.processed|
    && x.consumed + x.buffer == s.processed[x.joined..UpTo(s, id)]
    && (x.closed <==> x.left.Some? || (s.done && !(s.process.Closing? && id in s.process.rest)))
  }

  ghost predicate Inv(s: State) {
    && !s.panicked
    && (forall id :: 0 <= id < |s.subs| ==> SubOk(s, id))
    && (forall id :: id in s.listener ==> id < |s.subs|)
    && (s.process.Emitting? ==> s.processed != [] && s.process.rest <= s.listener)
    && (s.process.Closing? ==> s.process.rest <= s.listener)
    && (s.done <==> s.process.Closing? || s.process.Over?)
  }

  /** Taking up an item: every subscriber is owed it. */
  lemma LockKeepsInv(s: State)
    requires Inv(s) && s.process.Got?
    ensures Inv(ProcessStep(s, LockForItem).value)
  {
    var s' := ProcessStep(s, LockForItem).value;
    forall id | 0 <= id < |s'.subs| ensures SubOk(s', id) {
      assert SubOk(s, id);
      assert s'.processed[s.subs[id].joined..UpTo(s, id)] == s.processed[s.subs[id].joined..UpTo(s, id)];
    }
  }

  lemma EmitKeepsInv(s: State, k: nat)
    requires Inv(s) && ProcessStep(s, Emit(k)).Some?
    ensures Inv(ProcessStep(s, Emit(k)).value)
  {
    var s' := ProcessStep(s, Emit(k)).value;
    var x, n := s.subs[k], |s.processed|;
    assert SubOk(s, k);
    assert s.processed[x.joined..n - 1] + [s.processed[n - 1]] == s.processed[x.joined..n];
    assert x.consumed + (x.buffer + [s.processed[n - 1]]) == (x.consumed + x.buffer) + [s.processed[n - 1]];
    forall id | 0 <= id < |s'.subs| ensures SubOk(s', id) {
      assert SubOk(s, id);
    }
  }

  lemma ProcessKeepsInv(s: State, a: Action)
    requires Inv(s) && ProcessStep(s, a).Some?
    ensures Inv(ProcessStep(s, a).value)
  {
    var s' := ProcessStep(s, a).value;
    if a.LockForItem? {
      LockKeepsInv(s);
    } else if a.Emit? {
      EmitKeepsInv(s, a.id);
    } else {
      assert a.CloseOne? ==> SubOk(s, a.id);
      forall id | 0 <= id < |s'.subs| ensures SubOk(s', id) {
        assert SubOk(s, id);
      }
    }
  }

  lemma UnsubscribeKeepsInv(s: State, k: nat)
    requires Inv(s) && SubscriberStep(s, Unsubscribe(k)).Some?
    ensures Inv(SubscriberStep(s, Unsubscribe(k)).value)
  {
    var s' := SubscriberStep(s, Unsubscribe(k)).value;
    if k in s.listener {
      assert SubOk(s, k);
    }
    forall id | 0 <= id < |s'.subs| ensures SubOk(s', id) {
      assert SubOk(s, id);
    }
  }

  lemma SubscriberKeepsInv(s: State, a: Action)
    requires Inv(s) && SubscriberStep(s, a).Some?
    ensures Inv(SubscriberStep(s, a).value)
  {
    var s' := SubscriberStep(s, a).value;
    if a.Unsubscribe? {
      UnsubscribeKeepsInv(s, a.id);
    } else {
      if a.Consume? {
        var x := s.subs[a.id];
        assert (x.consumed + [x.buffer[0]]) + x.buffer[1..] == x.consumed + x.buffer;
      }
      forall id | 0 <= id < |s'.subs| ensures SubOk(s', id) {
        assert id < |s.subs| ==> SubOk(s, id);
      }
    }
  }

  lemma StepKeepsInv(s: State, a: Action)
    requires Inv(s) && Step(s, a).Some?
    ensures Inv(Step(s, a).value)
  {
    if OfProcess(a) {
      ProcessKeepsInv(s, a);
    } else {
      SubscriberKeepsInv(s, a);
    }
  }

  ghost predicate Reaches(run: seq<Action>, s: State) {
    Legal(Step, Init(), run) && After(Step, Init(), run) == s
  }

  lemma ReachedHolds(run: seq<Action>, s: State)
    requires Reaches(run, s)
    ensures Inv(s)
  {
    forall s, a | Inv(s) && Step(s, a).Some? ensures Inv(Step(s, a).value) {
      StepKeepsInv(s, a);
    }
    InvariantHolds(Step, Inv, Init(), run);
  }

  // ---- Main results, over every interleaving and every order of fan-out ----

  /** Nothing is ever sent on a closed channel, and no channel is closed twice. */
  lemma NeverPanics(run: seq<Action>, s: State)
    requires Reaches(run, s)
    ensures !s.panicked
  {
    ReachedHolds(run, s);
  }

  /** The items that were emitted into the observable. */
  function Emitted(a: Action): seq<Event> {
    if a.Receive? then [a.item] else []
  }

  ghost function Items(run: seq<Action>): seq<Event> {
    Collect(run, Emitted)
  }

  /** The items the `process` loop has taken from its input. */
  function TakenIn(s: State): seq<Event> {
    s.processed + if s.process.Got? then [s.process.item] else []
  }

  lemma ProcessTakes(s: State, a: Action)
    requires Step(s, a).Some?
    ensures TakenIn(Step(s, a).value) == TakenIn(s) + Emitted(a)
  {
    if OfProcess(a) {
      assert a.LockForItem? ==> TakenIn(Step(s, a).value) == TakenIn(s);
    }
  }

  lemma TakenAreItems(run: seq<Action>, s: State)
    requires Reaches(run, s)
    ensures TakenIn(s) == Items(run)
  {
    forall t: State, a: Action | Step(t, a).Some? ensures TakenIn(Step(t, a).value) == TakenIn(t) + Emitted(a) {
      ProcessTakes(t, a);
    }
    Recorded(Step, (t: State) => true, TakenIn, Emitted, Init(), run);
  }

  /** What a subscriber has consumed and has buffered is, in order, exactly the items emitted while it
      was subscribed, up to the one whose fan-out has not reached it yet; at most one emitted item has
      not been taken up. */
  lemma SubscribersSeeTheirItems(run: seq<Action>, s: State, id: nat)
    requires Reaches(run, s) && id < |s.subs|
    ensures s.processed <= Items(run) && |Items(run)| <= |s.processed| + 1
    ensures var x := s.subs[id];
      && x.joined <= UpTo(s, id) <= |s.processed|
      && x.consumed + x.buffer == Items(run)[x.joined..UpTo(s, id)]
  {
    ReachedHolds(run, s);
    TakenAreItems(run, s);
    assert SubOk(s, id);
  }

  /** What no step undoes in a subscriber: when it came, and, once it has left, all it got. */
  predicate Later(x: Subscriber, x': Subscriber) {
    && x'.joined == x.joined
    && (x.closed ==> x'.closed)
    && (x.left.Some? ==> x'.left == x.left && x'.consumed + x'.buffer == x.consumed + x.buffer)
  }

  ghost predicate Follows(s: State, s': State) {
    |s.subs| <= |s'.subs| && forall id :: 0 <= id < |s.subs| ==> Later(s.subs[id], s'.subs[id])
  }

  lemma StepFollows(s: State, a: Action)
    requires Inv(s) && Step(s, a).Some?
    ensures Follows(s, Step(s, a).value)
  {
    if a.Emit? {
      assert SubOk(s, a.id);
    } else if a.Consume? {
      var x := s.subs[a.id];
      assert (x.consumed + [x.buffer[0]]) + x.buffer[1..] == x.consumed + x.buffer;
    } else if a.Unsubscribe? && a.id in s.listener {
      assert SubOk(s, a.id);
    }
  }

  lemma RunFollows(s: State, more: seq<Action>)
    requires Inv(s) && Legal(Step, s, more)
    ensures Inv(After(Step, s, more)) && Follows(s, After(Step, s, more))
  {
    forall t, a | Inv(t) && Follows(s, t) && Step(t, a).Some?
      ensures Inv(Step(t, a).value) && Follows(s, Step(t, a).value)
    {
      StepKeepsInv(t, a);
      StepFollows(t, a);
    }
    InvariantHolds(Step, t => Inv(t) && Follows(s, t), s, more);
  }

  /** A subscription that is made before the shutdown counts from there: what the subscriber gets
      starts with the first item taken up after it. */
  lemma SubscriptionStarts(run: seq<Action>, s: State, more: seq<Action>)
    requires Reaches(run, s) && !s.done && Legal(Step, s, [Subscribe] + more)
    ensures var s' := After(Step, s, [Subscribe] + more); var id := |s.subs|;
      && id < |s'.subs|
      && |s.processed| <= UpTo(s', id) <= |s'.processed| <= |Items(run + [Subscribe] + more)|
      && s'.subs[id].consumed + s'.subs[id].buffer == Items(run + [Subscribe] + more)[|s.processed|..UpTo(s', id)]
  {
    ReachedHolds(run, s);
    assert ([Subscribe] + more)[1..] == more;
    var s1 := Step(s, Subscribe).value;
    StepKeepsInv(s, Subscribe);
    RunFollows(s1, more);
    Cons(Step, s, Subscribe, more);
    Split(Step, Init(), run, [Subscribe] + more);
    assert run + ([Subscribe] + more) == run + [Subscribe] + more;
    var s' := After(Step, s, [Subscribe] + more);
    assert Later(s1.subs[|s.subs|], s'.subs[|s.subs|]);
    SubscribersSeeTheirItems(run + [Subscribe] + more, s', |s.subs|);
  }

  /** A subscriber that leaves has its channel closed, and gets nothing more. */
  lemma UnsubscribingEnds(run: seq<Action>, s: State, id: nat, more: seq<Action>)
    requires Reaches(run, s) && id < |s.subs| && Legal(Step, s, [Unsubscribe(id)] + more)
    ensures var s' := After(Step, s, [Unsubscribe(id)] + more);
      && id < |s'.subs| && id !in s'.listener && s'.subs[id].closed
      && s'.subs[id].consumed + s'.subs[id].buffer == s.subs[id].consumed + s.subs[id].buffer
  {
    ReachedHolds(run, s);
    assert ([Unsubscribe(id)] + more)[1..] == more;
    var s1 := Step(s, Unsubscribe(id)).value;
    assert SubOk(s, id);
    StepKeepsInv(s, Unsubscribe(id));
    assert SubOk(s1, id);
    RunFollows(s1, more);
    Cons(Step, s, Unsubscribe(id), more);
    var s' := After(Step, s, [Unsubscribe(id)] + more);
    assert Later(s1.subs[id], s'.subs[id]);
    assert SubOk(s', id);
  }

  /** A channel holds up to 200 items, and the fan-out waits for a subscriber exactly while its
      channel is full. */
  lemma FanOutWaitsIffFull(run: seq<Action>, s: State, id: nat)
    requires Reaches(run, s) && s.process.Emitting? && id in s.process.rest
    ensures id < |s.subs| && |s.subs[id].buffer| <= 200
    ensures Step(s, Emit(id)).None? <==> |s.subs[id].buffer| == 200
  {
    ReachedHolds(run, s);
    BuffersBounded(run, s);
    assert SubOk(s, id);
  }

  ghost predicate Bounded(s: State) {
    forall id :: 0 <= id < |s.subs| ==> |s.subs[id].buffer| <= 200
  }

  lemma StepBounded(s: State, a: Action)
    requires Bounded(s) && Step(s, a).Some?
    ensures Bounded(Step(s, a).value)
  {
    if OfProcess(a) {
      assert a.Emit? ==> |s.subs[a.id].buffer| <= 200;
    }
  }

  lemma BuffersBounded(run: seq<Action>, s: State)
    requires Reaches(run, s)
    ensures Bounded(s)
  {
    forall t, a | Bounded(t) && Step(t, a).Some? ensures Bounded(Step(t, a).value) {
      StepBounded(t, a);
    }
    InvariantHolds(Step, Bounded, Init(), run);
  }

  /** Once the observable has shut down every channel is closed, so every reader ends. */
  lemma ShutdownClosesEveryChannel(run: seq<Action>, s: State, id: nat)
    requires Reaches(run, s) && s.process.Over? && id < |s.subs|
    ensures s.subs[id].closed
  {
    ReachedHolds(run, s);
    assert SubOk(s, id);
  }

  // ---- Shutting down ----

  /** What the fan-out does next; a full channel is read from first. */
  lemma EmitOne(s: State, id: nat) returns (run: seq<Action>)
    requires Inv(s) && s.process.Emitting? && id in s.process.rest
    ensures Legal(Step, s, run)
    ensures var s' := After(Step, s, run); Inv(s') && s'.process == Emitting(s.process.rest - {id})
    decreases if id < |s.subs| then |s.subs[id].buffer| else 0
  {
    assert SubOk(s, id);
    if |s.subs[id].buffer| >= BUFFER_SIZE {
      StepKeepsInv(s, Consume(id));
      var rest := EmitOne(Step(s, Consume(id)).value, id);
      Cons(Step, s, Consume(id), rest);
      run := [Consume(id)] + rest;
    } else {
      StepKeepsInv(s, Emit(id));
      Cons(Step, s, Emit(id), []);
      run := [Emit(id)];
    }
  }

  /** The rest of the fan-out. */
  lemma WayToWaiting(s: State) returns (run: seq<Action>)
    requires Inv(s) && s.process.Emitting?
    ensures Legal(Step, s, run)
    ensures var s' := After(Step, s, run); Inv(s') && s'.process.Waiting?
    decreases |s.process.rest|
  {
    if s.process.rest == {} {
      StepKeepsInv(s, Unlock);
      Cons(Step, s, Unlock, []);
      run := [Unlock];
    } else {
      var id: nat :| id in s.process.rest;
      var first := EmitOne(s, id);
      var rest := WayToWaiting(After(Step, s, first));
      Split(Step, s, first, rest);
      run := first + rest;
    }
  }

  /** The closing of the channels. */
  lemma WayToOver(s: State) returns (run: seq<Action>)
    requires Inv(s) && s.process.Closing?
    ensures Legal(Step, s, run) && After(Step, s, run).process.Over?
    decreases |s.process.rest|
  {
    if s.process.rest == {} {
      Cons(Step, s, Finish, []);
      run := [Finish];
    } else {
      var id: nat :| id in s.process.rest;
      var s1 := Step(s, CloseOne(id)).value;
      assert SubOk(s, id);
      StepKeepsInv(s, CloseOne(id));
      var rest := WayToOver(s1);
      Cons(Step, s, CloseOne(id), rest);
      run := [CloseOne(id)] + rest;
    }
  }

  lemma WayFromWaiting(s: State) returns (run: seq<Action>)
    requires Inv(s) && (s.process.Waiting? || s.process.InputEnded?)
    ensures Legal(Step, s, run) && After(Step, s, run).process.Over?
    decreases s.process.Waiting?
  {
    var a := if s.process.Waiting? then InputEnds else LockToClose;
    var s1 := Step(s, a).value;
    StepKeepsInv(s, a);
    var rest;
    if s.process.Waiting? {
      rest := WayFromWaiting(s1);
    } else {
      rest := WayToOver(s1);
    }
    Cons(Step, s, a, rest);
    run := [a] + rest;
  }

  lemma WayToShutDown(s: State) returns (run: seq<Action>)
    requires Inv(s)
    ensures Legal(Step, s, run) && After(Step, s, run).process.Over?
  {
    match s.process
    case Over => run := [];
    case Closing(_) => run := WayToOver(s);
    case Waiting => run := WayFromWaiting(s);
    case InputEnded => run := WayFromWaiting(s);
    case Emitting(_) =>
      var first := WayToWaiting(s);
      var rest := WayFromWaiting(After(Step, s, first));
      Split(Step, s, first, rest);
      run := first + rest;
    case Got(_) =>
      var s1 := Step(s, LockForItem).value;
      StepKeepsInv(s, LockForItem);
      var first := WayToWaiting(s1);
      var rest := WayFromWaiting(After(Step, s1, first));
      Split(Step, s1, first, rest);
      Cons(Step, s, LockForItem, first + rest);
      run := [LockForItem] + (first + rest);
  }

  /** Nothing gets stuck: from every reachable state the observable can shut down, provided its
      subscribers read. */
  lemma CanAlwaysShutDown(run: seq<Action>, s: State)
    requires Reaches(run, s)
    ensures exists more :: Legal(Step, s, more) && After(Step, s, more).process.Over?
  {
    ReachedHolds(run, s);
    var more := WayToShutDown(s);
  }
}
