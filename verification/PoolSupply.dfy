/** What the pool of client/tun/transport/argo/dialer.go is for: `preDial` refills it, every goroutine can
    finish, and connections leave it in the order in which they were made. */
module PoolSupply {
  import opened Runs
  import opened Tally
  import opened ConnPool

  // ---- Refilling ----

  /** A `preDial` that may still add a connection. */
  function Working(th: Thread): nat {
    if th.PreLock? || th.PreCount? || th.Committed() then 1 else 0
  }

  /** A `Dial` that has finished without taking from the pool. */
  function Asking(th: Thread): nat {
    if th.DialFailed? || (th.DialReturned? && th.headerSent) then 1 else 0
  }

  function Min(a: int, b: int): int {
    if a < b then a else b
  }

  /** Steps while the pool is not closed and every pre-dialled connection can be made. */
  function HealthyStep(s: State, a: Action): Option<State> {
    if a == CloseStop || (a.Go? && a.op == Pre(PreConnect(false))) then None else Step(s, a)
  }

  /** The counter and the `preDial`s under way cover what was asked for, up to the pool's size. */
  ghost predicate Supplied(s: State) {
    && !s.shared.stopped && s.closer.NotCalled?
    && Min(s.shared.poolSize, Sum(s.threads, Asking)) <= s.shared.connCount + Sum(s.threads, Working)
    && s.shared.connCount + Sum(s.threads, Working) <= Sum(s.threads, Asking)
  }

  /** How one operation moves supply and demand; `Spawned` adds one `preDial` per finished `Dial`. */
  lemma OperationSupplies(sh: Shared, t: nat, th: Thread, op: Op)
    requires Perform(sh, t, th, op).Some? && !sh.stopped && op != Pre(PreConnect(false)) && op != Pre(Discard)
    requires -1 <= sh.connCount <= sh.poolSize < 0x8000_0000
    requires th.DialTook? ==> sh.connCount >= 0
    requires th.PreIncrement? ==> sh.connCount < sh.poolSize
    ensures var e := Perform(sh, t, th, op).value;
      var supply := e.sh.connCount - sh.connCount + Working(e.th) - Working(th) + |Spawned(e.th)|;
      && !e.sh.stopped && e.sh.poolSize == sh.poolSize
      && supply <= Asking(e.th) - Asking(th)
      && (supply == Asking(e.th) - Asking(th) || (e.sh == sh && sh.connCount >= sh.poolSize && supply == -1
                                                  && Asking(e.th) == Asking(th)))
  {
  }

  lemma ApplySums(s: State, t: nat, e: Effect)
    requires t < |s.threads|
    ensures Sum(Apply(s, t, e).threads, Working) ==
            Sum(s.threads, Working) - Working(s.threads[t]) + Working(e.th) + |Spawned(e.th)|
    ensures Sum(Apply(s, t, e).threads, Asking) == Sum(s.threads, Asking) - Asking(s.threads[t]) + Asking(e.th)
  {
    ApplyMoves(s, t, e, Asking);
    SumUpdate(s.threads, t, e.th, Working);
    SumConcat(s.threads[t := e.th], Spawned(e.th), Working);
    assert Sum([PreLock], Working) == Working(PreLock) + Sum([], Working);
  }

  lemma GoSupplies(s: State, t: nat, op: Op)
    requires Inv(s) && Supplied(s) && HealthyStep(s, Go(t, op)).Some?
    ensures Supplied(HealthyStep(s, Go(t, op)).value)
  {
    var th := s.threads[t];
    if th.DialTook? {
      TakerIsUnsettled(s, t);
    }
    assert th.HoldsLock() <==> s.shared.lock == Some(t);
    assert op != Pre(Discard);
    OperationSupplies(s.shared, t, th, op);
    ApplySums(s, t, Perform(s.shared, t, th, op).value);
  }

  lemma StepSupplies(s: State, a: Action)
    requires Inv(s) && Supplied(s) && HealthyStep(s, a).Some?
    ensures Inv(HealthyStep(s, a).value) && Supplied(HealthyStep(s, a).value)
  {
    InvInductive();
    match a
    case Go(t, op) => GoSupplies(s, t, op);
    case StartDial(dest) =>
      SumAppend(s.threads, DialSelect(dest), Working);
      SumAppend(s.threads, DialSelect(dest), Asking);
    case CloseTake =>
    case CloseConn =>
  }

  predicate Finished(th: Thread) {
    th.DialReturned? || th.DialFailed? || th.PreDone?
  }

  ghost predicate AllFinished(s: State) {
    forall t :: 0 <= t < |s.threads| ==> Finished(s.threads[t])
  }

  lemma SupplyHolds(poolSize: nat, run: seq<Action>)
    requires poolSize < 0x8000_0000 && Legal(HealthyStep, Init(poolSize), run)
    ensures var s := After(HealthyStep, Init(poolSize), run);
      Inv(s) && Supplied(s) && s.shared.poolSize == poolSize
  {
    forall s, a | Inv(s) && Supplied(s) && s.shared.poolSize == poolSize && HealthyStep(s, a).Some?
      ensures var s' := HealthyStep(s, a).value; Inv(s') && Supplied(s') && s'.shared.poolSize == poolSize
    {
      StepSupplies(s, a);
      SizeInductive(poolSize);
    }
    assert Inv(Init(poolSize));
    InvariantHolds(HealthyStep, s => Inv(s) && Supplied(s) && s.shared.poolSize == poolSize, Init(poolSize), run);
  }

  /** While the pool is open and its connections can be made, it holds, whenever all goroutines have
      finished, exactly one connection for each `Dial` that was not served from it, up to its size. */
  lemma PoolRefills(poolSize: nat, run: seq<Action>)
    requires poolSize < 0x8000_0000 && Legal(HealthyStep, Init(poolSize), run)
    requires AllFinished(After(HealthyStep, Init(poolSize), run))
    ensures var s := After(HealthyStep, Init(poolSize), run);
      |s.shared.pool| == Min(poolSize, Sum(s.threads, Asking))
  {
    SupplyHolds(poolSize, run);
    var s := After(HealthyStep, Init(poolSize), run);
    SumNothing(s.threads, Working);
    SumNothing(s.threads, TookBy);
    assert s.shared.lock.Some? ==> s.threads[s.shared.lock.value].HoldsLock();
  }

  // ---- Every goroutine can finish ----

  /** Steps a goroutine still has to make, those of the `preDial` it will start included. */
  function StepsLeft(th: Thread): nat {
    match th
    case DialSelect(_) => 10
    case DialTook(_, _) => 9
    case DialConnecting(_) => 9
    case PreLock => 8
    case PreCount => 7
    case PreStopCheck => 6
    case PreConnecting => 5
    case PreSend(_) => 4
    case PreIncrement => 3
    case PreUnlock => 2
    case _ => 0
  }

  /** The operation that takes it on. */
  function NextOp(sh: Shared, th: Thread): Op {
    match th
    case DialSelect(_) =>
      Dial(if sh.pool != [] then SelectPool else if sh.stopped then SelectStop else SelectDefault)
    case DialTook(_, _) => Dial(Decrement)
    case DialConnecting(_) => Dial(DialConnect(true))
    case PreLock => Pre(Lock)
    case PreCount => Pre(TestCount)
    case PreStopCheck => Pre(TestStop)
    case PreConnecting => Pre(PreConnect(true))
    case PreSend(_) => Pre(Send)
    case PreIncrement => Pre(Increment)
    case _ => Pre(Unlock)
  }

  lemma OperationGoes(sh: Shared, t: nat, th: Thread)
    requires !Finished(th) && (th.PreLock? ==> sh.lock.None?) && (th.PreSend? ==> |sh.pool| < sh.poolSize)
    ensures var e := Perform(sh, t, th, NextOp(sh, th));
      e.Some? && StepsLeft(e.value.th) + 8 * |Spawned(e.value.th)| < StepsLeft(th)
  {
  }

  /** The goroutine to go next: the one that holds the mutex, or else any that has not finished. */
  ghost predicate MayGo(s: State, t: nat) {
    t < |s.threads| && !Finished(s.threads[t]) && (s.shared.lock.None? || s.shared.lock == Some(t))
  }

  lemma NextGoes(s: State, t: nat)
    requires Inv(s) && MayGo(s, t)
    ensures var a := Go(t, NextOp(s.shared, s.threads[t]));
      && HealthyStep(s, a).Some? && Inv(HealthyStep(s, a).value)
      && Sum(HealthyStep(s, a).value.threads, StepsLeft) < Sum(s.threads, StepsLeft)
  {
    var th := s.threads[t];
    var a := Go(t, NextOp(s.shared, th));
    assert th.HoldsLock() <==> s.shared.lock == Some(t);
    OperationGoes(s.shared, t, th);
    var e := Perform(s.shared, t, th, NextOp(s.shared, th)).value;
    SumUpdate(s.threads, t, e.th, StepsLeft);
    SumConcat(s.threads[t := e.th], Spawned(e.th), StepsLeft);
    assert Sum([PreLock], StepsLeft) == StepsLeft(PreLock) + Sum([], StepsLeft);
    InvInductive();
  }

  lemma WayToFinish(s: State) returns (more: seq<Action>)
    requires Inv(s)
    ensures Legal(HealthyStep, s, more) && AllFinished(After(HealthyStep, s, more))
    decreases Sum(s.threads, StepsLeft)
  {
    if t: nat :| MayGo(s, t) {
      var a := Go(t, NextOp(s.shared, s.threads[t]));
      NextGoes(s, t);
      var rest := WayToFinish(HealthyStep(s, a).value);
      Cons(HealthyStep, s, a, rest);
      more := [a] + rest;
    } else {
      if s.shared.lock.Some? {
        assert s.threads[s.shared.lock.value].HoldsLock();
        assert MayGo(s, s.shared.lock.value);
      }
      forall t | 0 <= t < |s.threads| ensures Finished(s.threads[t]) {
        assert !MayGo(s, t);
      }
      more := [];
    }
  }

  /** Nothing gets stuck: from every reachable state, also after `Close`, all `Dial`s and `preDial`s
      can finish, without any new call and with no connection refused. */
  lemma EveryCallCanFinish(poolSize: nat, run: seq<Action>)
    requires poolSize < 0x8000_0000 && Legal(Step, Init(poolSize), run)
    ensures exists more ::
      && Legal(HealthyStep, After(Step, Init(poolSize), run), more)
      && AllFinished(After(HealthyStep, After(Step, Init(poolSize), run), more))
  {
    RunKeepsInv(poolSize, run);
    var more := WayToFinish(After(Step, Init(poolSize), run));
  }

  // ---- First in, first out ----

  /** A connection that has left the pool. */
  predicate HasLeft(th: Thread) {
    th.DialTook? || (th.DialReturned? && !th.headerSent)
  }

  /** Connections are numbered as they are made: the pool is in that order, and what has left it is
      older than what is in it, and older than the one on its way into it. */
  ghost predicate PoolInOrder(sh: Shared) {
    && (forall i, j :: 0 <= i < j < |sh.pool| ==> sh.pool[i] < sh.pool[j])
    && (forall i :: 0 <= i < |sh.pool| ==> sh.pool[i] < |sh.announced|)
  }

  ghost predicate Older(sh: Shared, c: ConnId) {
    c < |sh.announced| && forall i :: 0 <= i < |sh.pool| ==> c < sh.pool[i]
  }

  ghost predicate ThreadInOrder(sh: Shared, th: Thread) {
    && (HasLeft(th) ==> Older(sh, th.conn))
    && (th.PreSend? ==> th.conn < |sh.announced| && forall i :: 0 <= i < |sh.pool| ==> sh.pool[i] < th.conn)
  }

  /** Whatever has left the pool is older than the connection on its way into it. */
  ghost predicate NewestLast(s: State) {
    forall t, u :: 0 <= t < |s.threads| && 0 <= u < |s.threads| && HasLeft(s.threads[t]) && s.threads[u].PreSend? ==>
      s.threads[t].conn < s.threads[u].conn
  }

  ghost predicate CloserInOrder(s: State) {
    s.closer.Closing? ==>
      && Older(s.shared, s.closer.conn)
      && forall u :: 0 <= u < |s.threads| && s.threads[u].PreSend? ==> s.closer.conn < s.threads[u].conn
  }

  ghost predicate InOrder(s: State) {
    && PoolInOrder(s.shared)
    && (forall t :: 0 <= t < |s.threads| ==> ThreadInOrder(s.shared, s.threads[t]))
    && NewestLast(s) && CloserInOrder(s)
  }

  lemma DialKeepsOrder(sh: Shared, th: Thread, op: DialOp)
    requires PerformDial(sh, th, op).Some? && PoolInOrder(sh) && ThreadInOrder(sh, th)
    ensures var e := PerformDial(sh, th, op).value; PoolInOrder(e.sh) && ThreadInOrder(e.sh, e.th)
  {
  }

  lemma SendKeepsOrder(sh: Shared, t: nat, th: Thread)
    requires PerformPre(sh, t, th, Send).Some? && PoolInOrder(sh) && ThreadInOrder(sh, th)
    ensures PoolInOrder(PerformPre(sh, t, th, Send).value.sh)
  {
  }

  /** No other operation of a `preDial` changes the pool. */
  lemma PreSparesPool(sh: Shared, t: nat, th: Thread, op: PreOp)
    requires PerformPre(sh, t, th, op).Some? && !op.Send?
    ensures var e := PerformPre(sh, t, th, op).value;
      e.sh.pool == sh.pool && |sh.announced| <= |e.sh.announced|
  {
  }

  lemma PreThreadInOrder(sh: Shared, t: nat, th: Thread, op: PreOp)
    requires PerformPre(sh, t, th, op).Some? && PoolInOrder(sh)
    ensures var e := PerformPre(sh, t, th, op).value; ThreadInOrder(e.sh, e.th)
  {
  }

  lemma OperationKeepsOrder(sh: Shared, t: nat, th: Thread, op: Op)
    requires Perform(sh, t, th, op).Some? && PoolInOrder(sh) && ThreadInOrder(sh, th)
    ensures var e := Perform(sh, t, th, op).value; PoolInOrder(e.sh) && ThreadInOrder(e.sh, e.th)
  {
    match op
    case Dial(d) => DialKeepsOrder(sh, th, d);
    case Pre(p) =>
      PreThreadInOrder(sh, t, th, p);
      if p.Send? {
        SendKeepsOrder(sh, t, th);
      } else {
        PreSparesPool(sh, t, th, p);
      }
  }

  /** What an operation makes of its own connection. */
  lemma OperationMoves(sh: Shared, t: nat, th: Thread, op: Op)
    requires Perform(sh, t, th, op).Some?
    ensures var e := Perform(sh, t, th, op).value;
      && (HasLeft(e.th) && !HasLeft(th) ==> sh.pool != [] && e.th.conn == sh.pool[0])
      && (HasLeft(th) ==> e.th.DialReturned? && e.th.conn == th.conn)
      && (e.th.PreSend? ==> e.th.conn == |sh.announced| && !th.PreSend?)
  {
  }

  /** What it leaves of the order of another one. */
  lemma OperationSpares(sh: Shared, t: nat, th: Thread, op: Op, c: ConnId)
    requires Perform(sh, t, th, op).Some?
    ensures var e := Perform(sh, t, th, op).value;
      && (Older(sh, c) && (th.PreSend? ==> c < th.conn) ==> Older(e.sh, c))
      && ((forall i :: 0 <= i < |sh.pool| ==> sh.pool[i] < c) && c < |sh.announced| && !th.PreSend? ==>
            c < |e.sh.announced| && forall i :: 0 <= i < |e.sh.pool| ==> e.sh.pool[i] < c)
  {
  }

  lemma GoKeepsOrder(s: State, t: nat, op: Op)
    requires LockInv(s) && InOrder(s) && Step(s, Go(t, op)).Some?
    ensures InOrder(Step(s, Go(t, op)).value)
  {
    var th := s.threads[t];
    var s' := Step(s, Go(t, op)).value;
    assert ThreadInOrder(s.shared, th);
    OperationKeepsOrder(s.shared, t, th, op);
    OperationMoves(s.shared, t, th, op);
    forall u | 0 <= u < |s'.threads| ensures ThreadInOrder(s'.shared, s'.threads[u]) {
      if u != t && u < |s.threads| && (HasLeft(s.threads[u]) || s.threads[u].PreSend?) {
        assert ThreadInOrder(s.shared, s.threads[u]);
        OperationSpares(s.shared, t, th, op, s.threads[u].conn);
      }
    }
    if s.closer.Closing? {
      OperationSpares(s.shared, t, th, op, s.closer.conn);
    }
  }

  lemma CloseKeepsOrder(s: State)
    requires InOrder(s) && Step(s, CloseTake).Some?
    ensures InOrder(Step(s, CloseTake).value)
  {
    var s' := Step(s, CloseTake).value;
    forall t | 0 <= t < |s'.threads| ensures ThreadInOrder(s'.shared, s'.threads[t]) {
      assert ThreadInOrder(s.shared, s.threads[t]);
    }
  }

  lemma StepKeepsOrder(s: State, a: Action)
    requires LockInv(s) && InOrder(s) && Step(s, a).Some?
    ensures InOrder(Step(s, a).value)
  {
    match a
    case Go(t, op) => GoKeepsOrder(s, t, op);
    case StartDial(_) =>
    case CloseStop =>
    case CloseTake => CloseKeepsOrder(s);
    case CloseConn =>
  }

  /** Connections leave the pool in the order in which they were made: the pool is sorted by age, and
      whatever a `Dial` or `Close` has taken from it is older than all that is left. */
  lemma OldestFirst(poolSize: nat, run: seq<Action>)
    requires poolSize < 0x8000_0000 && Legal(Step, Init(poolSize), run)
    ensures var s := After(Step, Init(poolSize), run);
      && (forall i, j :: 0 <= i < j < |s.shared.pool| ==> s.shared.pool[i] < s.shared.pool[j])
      && (forall t, i :: 0 <= t < |s.threads| && 0 <= i < |s.shared.pool| && HasLeft(s.threads[t]) ==>
            s.threads[t].conn < s.shared.pool[i])
      && (forall i :: 0 <= i < |s.shared.pool| && s.closer.Closing? ==> s.closer.conn < s.shared.pool[i])
  {
    forall s, a | LockInv(s) && InOrder(s) && Step(s, a).Some?
      ensures LockInv(Step(s, a).value) && InOrder(Step(s, a).value)
    {
      StepKeepsLock(s, a);
      StepKeepsOrder(s, a);
    }
    InvariantHolds(Step, s => LockInv(s) && InOrder(s), Init(poolSize), run);
    var s := After(Step, Init(poolSize), run);
    assert forall t :: 0 <= t < |s.threads| ==> ThreadInOrder(s.shared, s.threads[t]);
  }

  // ---- Outcomes ----

  /** A connection is made. */
  predicate Connects(a: Action) {
    a.Go? && (a.op == Dial(DialConnect(true)) || a.op == Pre(PreConnect(true)))
  }

  /** A `Dial` is refused: by the network, or because the pool is closed. */
  predicate Refuses(a: Action) {
    a.Go? && (a.op == Dial(DialConnect(false)) || a.op == Dial(SelectStop))
  }

  function FailedBy(th: Thread): nat {
    if th.DialFailed? then 1 else 0
  }

  lemma OperationOutcome(sh: Shared, t: nat, th: Thread, op: Op)
    requires Perform(sh, t, th, op).Some?
    ensures var e := Perform(sh, t, th, op).value;
      && |e.sh.announced| == |sh.announced| + One(Connects(Go(t, op)))
      && FailedBy(e.th) == FailedBy(th) + One(Refuses(Go(t, op)))
  {
  }

  lemma StepOutcome(s: State, a: Action)
    requires Step(s, a).Some?
    ensures var s' := Step(s, a).value;
      && |s'.shared.announced| == |s.shared.announced| + One(Connects(a))
      && Sum(s'.threads, FailedBy) == Sum(s.threads, FailedBy) + One(Refuses(a))
  {
    match a
    case Go(t, op) =>
      OperationOutcome(s.shared, t, s.threads[t], op);
      ApplyMoves(s, t, Perform(s.shared, t, s.threads[t], op).value, FailedBy);
    case StartDial(dest) => SumAppend(s.threads, DialSelect(dest), FailedBy);
    case CloseStop =>
    case CloseTake =>
    case CloseConn =>
  }

  /** There are as many connections as successful connects, and a `Dial` fails exactly when the network
      refuses it or the pool is closed. */
  lemma OutcomesAreExact(poolSize: nat, run: seq<Action>)
    requires Legal(Step, Init(poolSize), run)
    ensures var s := After(Step, Init(poolSize), run);
      && |s.shared.announced| == Count(run, Connects)
      && Sum(s.threads, FailedBy) == Count(run, Refuses)
  {
    var any := (s: State) => true;
    forall s, a | Step(s, a).Some?
      ensures var s' := Step(s, a).value;
        && |s'.shared.announced| == |s.shared.announced| + One(Connects(a))
        && Sum(s'.threads, FailedBy) == Sum(s.threads, FailedBy) + One(Refuses(a))
    {
      StepOutcome(s, a);
    }
    Counted(Step, any, Connects, (s: State) => |s.shared.announced|, Init(poolSize), run);
    Counted(Step, any, Refuses, (s: State) => Sum(s.threads, FailedBy), Init(poolSize), run);
  }

  /** And the pool refuses nothing unless `Close` was called. */
  lemma OpenPoolRefusesNothing(poolSize: nat, run: seq<Action>, t: nat)
    requires Legal(Step, Init(poolSize), run) && CloseStop !in run
    ensures Step(After(Step, Init(poolSize), run), Go(t, Dial(SelectStop))).None?
  {
    StoppedByClose(Init(poolSize), run);
  }

  /** A `Dial` takes what is ready: it is refused only after `Close`, served from the pool only if the
      pool has a connection, and connects by itself only if neither is the case. */
  lemma DialTakesWhatIsReady(poolSize: nat, run: seq<Action>, t: nat, op: Op)
    requires Legal(Step, Init(poolSize), run)
    requires t < |After(Step, Init(poolSize), run).threads|
    requires After(Step, Init(poolSize), run).threads[t].DialSelect?
    ensures var s := After(Step, Init(poolSize), run); var closed := CloseStop in run;
      Step(s, Go(t, op)).Some? <==>
        || (op == Dial(SelectStop) && closed)
        || (op == Dial(SelectPool) && s.shared.pool != [])
        || (op == Dial(SelectDefault) && !closed && s.shared.pool == [])
  {
    StoppedByClose(Init(poolSize), run);
  }

  /** The network can refuse or accept every connection that is being made. */
  lemma NetworkMayAnswer(s: State, t: nat, ok: bool)
    requires t < |s.threads|
    ensures s.threads[t].DialConnecting? ==>
      && Step(s, Go(t, Dial(DialConnect(ok)))).Some?
      && (Step(s, Go(t, Dial(DialConnect(ok)))).value.threads[t].DialReturned? <==> ok)
    ensures s.threads[t].PreConnecting? ==>
      && Step(s, Go(t, Pre(PreConnect(ok)))).Some?
      && (Step(s, Go(t, Pre(PreConnect(ok)))).value.threads[t].PreSend? <==> ok)
  {
  }

  // ---- Draining ----

  /** `Close` can take and close all that is in the pool. */
  lemma WayToDrain(s: State) returns (more: seq<Action>)
    requires s.closer.Draining?
    ensures Legal(Step, s, more)
    ensures var s' := After(Step, s, more);
      s'.closer.Draining? && s'.shared.pool == [] && s'.threads == s.threads
      && s'.shared.closed == s.shared.closed + s.shared.pool
    decreases |s.shared.pool|
  {
    if s.shared.pool == [] {
      more := [];
      assert s.shared.closed + [] == s.shared.closed;
    } else {
      var s2 := DrainOne(s);
      var rest := WayToDrain(s2);
      Split(Step, s, [CloseTake, CloseConn], rest);
      more := [CloseTake, CloseConn] + rest;
    }
  }

  lemma DrainOne(s: State) returns (s': State)
    requires s.closer.Draining? && s.shared.pool != []
    ensures Legal(Step, s, [CloseTake, CloseConn]) && After(Step, s, [CloseTake, CloseConn]) == s'
    ensures s'.closer.Draining? && s'.threads == s.threads && |s'.shared.pool| < |s.shared.pool|
    ensures s'.shared.closed + s'.shared.pool == s.shared.closed + s.shared.pool
  {
    var s1 := Step(s, CloseTake).value;
    s' := Step(s1, CloseConn).value;
    Twice(Step, s, CloseTake, s1, CloseConn, s');
  }

  predicate CloserOk(s: State) {
    s.closer.NotCalled? <==> !s.shared.stopped
  }

  lemma {:induction false} HealthyIsLegal(s: State, run: seq<Action>)
    requires Legal(HealthyStep, s, run)
    ensures Legal(Step, s, run) && After(Step, s, run) == After(HealthyStep, s, run)
    decreases |run|
  {
    if run != [] {
      HealthyIsLegal(HealthyStep(s, run[0]).value, run[1..]);
    }
  }

  /** After `Close` the pool can be emptied for good: all calls finish, and every connection that was
      in the pool is closed, oldest first. */
  lemma ClosedPoolDrains(poolSize: nat, run: seq<Action>)
    requires poolSize < 0x8000_0000 && Legal(Step, Init(poolSize), run) && CloseStop in run
    ensures exists more ::
      && Legal(Step, After(Step, Init(poolSize), run), more)
      && var s := After(Step, After(Step, Init(poolSize), run), more);
      AllFinished(s) && s.shared.pool == [] && s.closer.Draining?
  {
    var s := After(Step, Init(poolSize), run);
    RunKeepsInv(poolSize, run);
    var first := WayToFinish(s);
    HealthyIsLegal(s, first);
    var s1 := After(Step, s, first);
    Split(Step, Init(poolSize), run, first);
    StoppedByClose(Init(poolSize), run + first);
    CloserFollows(poolSize, run + first);
    var second := [];
    if s1.closer.Closing? {
      second := [CloseConn];
      Cons(Step, s1, CloseConn, []);
    }
    var third := WayToDrain(After(Step, s1, second));
    Split(Step, s1, second, third);
    Split(Step, s, first, second + third);
    assert Legal(Step, s, first + (second + third));
  }

  lemma CloserFollows(poolSize: nat, run: seq<Action>)
    requires Legal(Step, Init(poolSize), run)
    ensures CloserOk(After(Step, Init(poolSize), run))
  {
    forall s, a | CloserOk(s) && Step(s, a).Some? ensures CloserOk(Step(s, a).value) {
      StopStep(s, a);
    }
    InvariantHolds(Step, CloserOk, Init(poolSize), run);
  }
}
