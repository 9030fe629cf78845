/** The pre-dialled connection pool of client/tun/transport/argo/dialer.go: any number of `Dial` and
    `preDial` goroutines and one `Close`, sharing a mutex, an atomic counter, a bounded channel and a
    stop channel.  Every lock, atomic, channel and network operation is one step. */
module ConnPool {
  import opened Runs
  import opened Tally
  import opened Header

  type ConnId = nat

  /** A goroutine, by the operation it performs next.  The first five are `Dial`, the others
      `preDial`; a goroutine that has finished keeps its result. */
  datatype Thread =
    | DialSelect(dest: Metadata)
    | DialTook(dest: Metadata, conn: ConnId)  // received from the pool, counter not yet lowered
    | DialConnecting(dest: Metadata)
    | DialReturned(dest: Metadata, conn: ConnId, headerSent: bool)
    | DialFailed(dest: Metadata)
    | PreLock
    | PreCount
    | PreStopCheck
    | PreConnecting
    | PreSend(conn: ConnId)
    | PreIncrement                            // sent to the pool, counter not yet raised
    | PreUnlock
    | PreDone
  {
    predicate HoldsLock() {
      PreCount? || PreStopCheck? || PreConnecting? || PreSend? || PreIncrement? || PreUnlock?
    }

    /** Past the counter test, not yet past the increment. */
    predicate Committed() {
      PreStopCheck? || PreConnecting? || PreSend? || PreIncrement?
    }

    /** Past the stop test, not yet past the send. */
    predicate MaySend() {
      PreConnecting? || PreSend?
    }
  }

  /** The fields of `Websocket`, and what has become of the connections. */
  datatype Shared = Shared(
    poolSize: nat,
    lock: Option<nat>,
    connCount: int,
    pool: seq<ConnId>,
    stopped: bool,
    closed: seq<ConnId>,                // connections the pool has closed
    announced: seq<Option<Metadata>>)   // for each connection, the metadata its dial announced

  /** `Close`: `range` over a channel that nobody closes, so it drains for ever. */
  datatype Closer = NotCalled | Draining(drained: nat) | Closing(drained: nat, conn: ConnId)
  {
    /** Connections `Close` has received from the pool. */
    function Drained(): nat {
      if NotCalled? then 0 else drained
    }
  }

  datatype State = State(shared: Shared, threads: seq<Thread>, closer: Closer)

  /** `NewWebsocket`. */
  function Init(poolSize: nat): State {
    State(Shared(poolSize, None, 0, [], false, [], []), [], NotCalled)
  }

  /** 32-bit wrap-around of `atomic.Int32`. */
  function Wrap32(x: int): int {
    (x + 0x8000_0000) % 0x1_0000_0000 - 0x8000_0000
  }

  datatype DialOp = SelectStop | SelectPool | SelectDefault | Decrement | DialConnect(ok: bool)

  datatype PreOp =
    | Lock | TestCount | TestStop | PreConnect(ok: bool) | Send | Discard | Increment | Unlock

  datatype Op = Dial(dial: DialOp) | Pre(pre: PreOp)

  datatype Action =
    | StartDial(dest: Metadata)
    | Go(t: nat, op: Op)
    | CloseStop
    | CloseTake
    | CloseConn

  /** What one operation does to its goroutine and to the shared fields. */
  datatype Effect = Effect(th: Thread, sh: Shared)

  /** One operation of a `Dial`.  A select takes any ready case, and its default only when none is
      ready. */
  function PerformDial(sh: Shared, th: Thread, op: DialOp): Option<Effect> {
    match op
    case SelectStop =>
      if th.DialSelect? && sh.stopped then Some(Effect(DialFailed(th.dest), sh)) else None
    case SelectPool =>
      if th.DialSelect? && sh.pool != []
      then Some(Effect(DialTook(th.dest, sh.pool[0]), sh.(pool := sh.pool[1..])))
      else None
    case SelectDefault =>
      if th.DialSelect? && !sh.stopped && sh.pool == []
      then Some(Effect(DialConnecting(th.dest), sh))
      else None
    case Decrement =>
      if th.DialTook?
      then Some(Effect(DialReturned(th.dest, th.conn, false), sh.(connCount := Wrap32(sh.connCount - 1))))
      else None
    case DialConnect(ok) =>
      if !th.DialConnecting? then None
      else if ok then
        Some(Effect(DialReturned(th.dest, |sh.announced|, true),
                    sh.(announced := sh.announced + [Some(th.dest)])))
      else Some(Effect(DialFailed(th.dest), sh))
  }

  /** One operation of a `preDial`, running as goroutine `t`. */
  function PerformPre(sh: Shared, t: nat, th: Thread, op: PreOp): Option<Effect> {
    match op
    case Lock =>
      if th.PreLock? && sh.lock.None? then Some(Effect(PreCount, sh.(lock := Some(t)))) else None
    case TestCount =>
      if th.PreCount?
      then Some(Effect(if sh.connCount >= sh.poolSize then PreUnlock else PreStopCheck, sh))
      else None
    case TestStop =>
      if th.PreStopCheck?
      then Some(Effect(if sh.stopped then PreUnlock else PreConnecting, sh))
      else None
    case PreConnect(ok) =>
      if !th.PreConnecting? then None
      else if ok then
        Some(Effect(PreSend(|sh.announced|), sh.(announced := sh.announced + [None])))
      else Some(Effect(PreUnlock, sh))
    case Send =>
      if th.PreSend? && |sh.pool| < sh.poolSize
      then Some(Effect(PreIncrement, sh.(pool := sh.pool + [th.conn])))
      else None
    case Discard =>
      if th.PreSend? && |sh.pool| >= sh.poolSize
      then Some(Effect(PreUnlock, sh.(closed := sh.closed + [th.conn])))
      else None
    case Increment =>
      if th.PreIncrement?
      then Some(Effect(PreUnlock, sh.(connCount := Wrap32(sh.connCount + 1))))
      else None
    case Unlock =>
      if th.PreUnlock? then Some(Effect(PreDone, sh.(lock := None))) else None
  }

  function Perform(sh: Shared, t: nat, th: Thread, op: Op): Option<Effect> {
    match op
    case Dial(d) => PerformDial(sh, th, d)
    case Pre(p) => PerformPre(sh, t, th, p)
  }

  /** The deferred function of `Dial` starts a `preDial` on every return. */
  function Spawned(th: Thread): seq<Thread> {
    if th.DialReturned? || th.DialFailed? then [PreLock] else []
  }

  /** The state once goroutine `t` has had its effect. */
  function Apply(s: State, t: nat, e: Effect): State
    requires t < |s.threads|
  {
    s.(shared := e.sh, threads := s.threads[t := e.th] + Spawned(e.th))
  }

  function Step(s: State, a: Action): Option<State> {
    match a
    case StartDial(dest) =>
      Some(s.(threads := s.threads + [DialSelect(dest)]))
    case Go(t, op) =>
      if t >= |s.threads| then None
      else
        match Perform(s.shared, t, s.threads[t], op) {
          case None => None
          case Some(e) =>
            Some(Apply(s, t, e))
        }
    case CloseStop =>
      if s.closer.NotCalled?
      then Some(s.(shared := s.shared.(stopped := true), closer := Draining(0)))
      else None
    case CloseTake =>
      if s.closer.Draining? && s.shared.pool != []
      then Some(s.(shared := s.shared.(pool := s.shared.pool[1..]),
                   closer := Closing(s.closer.drained + 1, s.shared.pool[0])))
      else None
    case CloseConn =>
      if s.closer.Closing?
      then Some(s.(shared := s.shared.(closed := s.shared.closed + [s.closer.conn]),
                   closer := Draining(s.closer.drained)))
      else None
  }

  // ---- The mutex ----

  ghost predicate LockInv(s: State) {
    && (s.shared.lock.Some? ==> s.shared.lock.value < |s.threads|)
    && (forall t :: 0 <= t < |s.threads| ==> (s.threads[t].HoldsLock() <==> s.shared.lock == Some(t)))
  }

  /** The goroutine inside the critical section, if any. */
  ghost function Holder(s: State): Thread
    requires LockInv(s)
  {
    if s.shared.lock.Some? then s.threads[s.shared.lock.value] else PreDone
  }

  lemma PerformKeepsLock(sh: Shared, t: nat, th: Thread, op: Op)
    requires Perform(sh, t, th, op).Some?
    requires th.HoldsLock() <==> sh.lock == Some(t)
    ensures var e := Perform(sh, t, th, op).value;
      && (e.th.HoldsLock() <==> e.sh.lock == Some(t))
      && (e.sh.lock == sh.lock || sh.lock == None || (sh.lock == Some(t) && e.sh.lock == None))
      && (sh.lock == None && e.sh.lock.Some? ==> e.sh.lock == Some(t))
  {
  }

  lemma StepKeepsLock(s: State, a: Action)
    requires LockInv(s) && Step(s, a).Some?
    ensures LockInv(Step(s, a).value)
  {
    if a.Go? {
      PerformKeepsLock(s.shared, a.t, s.threads[a.t], a.op);
    }
  }

  // ---- The counter ----

  function TookBy(th: Thread): nat {
    if th.DialTook? then 1 else 0
  }

  /** `Dial`s between their receive and their decrement. */
  ghost function Unsettled(s: State): nat {
    Sum(s.threads, TookBy)
  }

  ghost function Publishing(s: State): nat
    requires LockInv(s)
  {
    if Holder(s).PreIncrement? then 1 else 0
  }

  ghost predicate CounterInv(s: State)
    requires LockInv(s)
  {
    && s.shared.connCount == |s.shared.pool| + Unsettled(s) - Publishing(s) + s.closer.Drained()
    && s.shared.connCount <= s.shared.poolSize < 0x8000_0000
    && (Holder(s).Committed() ==> s.shared.connCount < s.shared.poolSize)
  }

  /** What the counter says beyond the pool, as far as one goroutine is responsible for it. */
  ghost function Excess(sh: Shared, th: Thread): int {
    sh.connCount - |sh.pool| - TookBy(th) + (if th.PreIncrement? then 1 else 0)
  }

  /** The counter moves with the pool, the taker and the publisher. */
  lemma DialBalances(sh: Shared, th: Thread, op: DialOp)
    requires PerformDial(sh, th, op).Some?
    requires -1 <= sh.connCount <= sh.poolSize < 0x8000_0000
    requires th.DialTook? ==> sh.connCount >= 0
    ensures var e := PerformDial(sh, th, op).value;
      && Excess(e.sh, e.th) == Excess(sh, th)
      && e.sh.connCount <= sh.connCount && e.sh.poolSize == sh.poolSize
      && !e.th.Committed()
  {
  }

  lemma PreBalances(sh: Shared, t: nat, th: Thread, op: PreOp)
    requires PerformPre(sh, t, th, op).Some?
    requires -1 <= sh.connCount <= sh.poolSize < 0x8000_0000
    requires th.Committed() ==> sh.connCount < sh.poolSize
    ensures var e := PerformPre(sh, t, th, op).value;
      && Excess(e.sh, e.th) == Excess(sh, th)
      && e.sh.connCount <= e.sh.poolSize == sh.poolSize
      && (e.th.Committed() ==> e.sh.connCount < e.sh.poolSize)
      && (e.sh.connCount > sh.connCount ==> th.PreIncrement?)
      && !e.th.DialTook?
  {
  }

  /** How a total over the goroutines moves when one of them does. */
  lemma ApplyMoves(s: State, t: nat, e: Effect, f: Thread -> nat)
    requires t < |s.threads| && f(PreLock) == 0
    ensures f(s.threads[t]) <= Sum(s.threads, f)
    ensures Sum(Apply(s, t, e).threads, f) == Sum(s.threads, f) - f(s.threads[t]) + f(e.th)
  {
    SumUpdate(s.threads, t, e.th, f);
    SumAppend(s.threads[t := e.th], PreLock, f);
    assert s.threads[t := e.th] + [] == s.threads[t := e.th];
  }

  lemma ApplyKeepsCounter(s: State, t: nat, e: Effect)
    requires LockInv(s) && CounterInv(s) && t < |s.threads| && LockInv(Apply(s, t, e))
    requires Excess(e.sh, e.th) == Excess(s.shared, s.threads[t])
    requires e.sh.connCount <= e.sh.poolSize == s.shared.poolSize
    requires e.th.Committed() ==> e.sh.connCount < e.sh.poolSize
    requires e.sh.connCount > s.shared.connCount ==> s.threads[t].PreIncrement?
    ensures CounterInv(Apply(s, t, e))
  {
    ApplyMoves(s, t, e, TookBy);
    assert s.threads[t].HoldsLock() <==> s.shared.lock == Some(t);
    assert Apply(s, t, e).threads[t].HoldsLock() <==> e.sh.lock == Some(t);
  }

  lemma TakerIsUnsettled(s: State, t: nat)
    requires t < |s.threads| && s.threads[t].DialTook?
    ensures Unsettled(s) >= 1
  {
    SumRemove(s.threads, t, TookBy);
  }

  lemma GoKeepsCounter(s: State, t: nat, op: Op)
    requires LockInv(s) && CounterInv(s) && Step(s, Go(t, op)).Some?
    ensures LockInv(Step(s, Go(t, op)).value) && CounterInv(Step(s, Go(t, op)).value)
  {
    StepKeepsLock(s, Go(t, op));
    if op.Dial? {
      if s.threads[t].DialTook? {
        TakerIsUnsettled(s, t);
      }
      DialBalances(s.shared, s.threads[t], op.dial);
    } else {
      PreBalances(s.shared, t, s.threads[t], op.pre);
    }
    ApplyKeepsCounter(s, t, Perform(s.shared, t, s.threads[t], op).value);
  }

  lemma StepKeepsCounter(s: State, a: Action)
    requires LockInv(s) && CounterInv(s) && Step(s, a).Some?
    ensures LockInv(Step(s, a).value) && CounterInv(Step(s, a).value)
  {
    match a
    case Go(t, op) => GoKeepsCounter(s, t, op);
    case StartDial(dest) => SumAppend(s.threads, DialSelect(dest), TookBy);
    case _ =>
  }

  // ---- Where every connection is ----

  /** Does a goroutine have connection `c`?  A returned `Dial` stands for its caller. */
  ghost function HeldBy(c: ConnId): Thread -> nat {
    (th: Thread) => if (th.DialTook? || th.DialReturned? || th.PreSend?) && th.conn == c then 1 else 0
  }

  ghost function Is(c: ConnId): ConnId -> nat {
    (d: ConnId) => if d == c then 1 else 0
  }

  function HeldByCloser(closer: Closer, c: ConnId): nat {
    if closer.Closing? && closer.conn == c then 1 else 0
  }

  /** How often `c` occurs in all places together: the pool, the goroutines, `Close`, the closed
      connections. */
  ghost function Places(s: State, c: ConnId): nat {
    Sum(s.shared.pool, Is(c)) + Sum(s.threads, HeldBy(c)) + HeldByCloser(s.closer, c)
    + Sum(s.shared.closed, Is(c))
  }

  function Once(sh: Shared, c: ConnId): nat {
    if c < |sh.announced| then 1 else 0
  }

  ghost predicate PlacesInv(s: State) {
    forall c: ConnId :: Places(s, c) == Once(s.shared, c)
  }

  /** What goroutine and shared fields say together about `c`, against what they should. */
  ghost function Held(sh: Shared, th: Thread, c: ConnId): int {
    Sum(sh.pool, Is(c)) + HeldBy(c)(th) + Sum(sh.closed, Is(c)) - Once(sh, c)
  }

  /** An operation moves at most one connection, or opens the next one. */
  lemma DialConserves(sh: Shared, th: Thread, op: DialOp, c: ConnId)
    requires PerformDial(sh, th, op).Some?
    ensures var e := PerformDial(sh, th, op).value; Held(e.sh, e.th, c) == Held(sh, th, c)
  {
  }

  lemma PreConserves(sh: Shared, t: nat, th: Thread, op: PreOp, c: ConnId)
    requires PerformPre(sh, t, th, op).Some?
    ensures var e := PerformPre(sh, t, th, op).value; Held(e.sh, e.th, c) == Held(sh, th, c)
  {
    if th.PreSend? {
      SumAppend(sh.pool, th.conn, Is(c));
      SumAppend(sh.closed, th.conn, Is(c));
    }
  }

  lemma GoConserves(s: State, t: nat, op: Op, c: ConnId)
    requires Step(s, Go(t, op)).Some?
    ensures var s' := Step(s, Go(t, op)).value;
      Places(s', c) - Once(s'.shared, c) == Places(s, c) - Once(s.shared, c)
  {
    ApplyMoves(s, t, Perform(s.shared, t, s.threads[t], op).value, HeldBy(c));
    match op
    case Dial(d) => DialConserves(s.shared, s.threads[t], d, c);
    case Pre(p) => PreConserves(s.shared, t, s.threads[t], p, c);
  }

  lemma StepConserves(s: State, a: Action, c: ConnId)
    requires Step(s, a).Some?
    ensures var s' := Step(s, a).value;
      Places(s', c) - Once(s'.shared, c) == Places(s, c) - Once(s.shared, c)
  {
    match a
    case Go(t, op) => GoConserves(s, t, op, c);
    case StartDial(dest) => SumAppend(s.threads, DialSelect(dest), HeldBy(c));
    case CloseConn => SumAppend(s.shared.closed, s.closer.conn, Is(c));
    case _ =>
  }

  lemma StepKeepsPlaces(s: State, a: Action)
    requires PlacesInv(s) && Step(s, a).Some?
    ensures PlacesInv(Step(s, a).value)
  {
    forall c: ConnId ensures Places(Step(s, a).value, c) == Once(Step(s, a).value.shared, c) {
      StepConserves(s, a, c);
    }
  }

  // ---- What every connection announced ----

  ghost predicate Anonymous(sh: Shared, c: ConnId) {
    c < |sh.announced| && sh.announced[c].None?
  }

  ghost predicate AnnouncedAs(sh: Shared, th: Thread) {
    match th
    case DialTook(_, c) => Anonymous(sh, c)
    case PreSend(c) => Anonymous(sh, c)
    case DialReturned(dest, c, headerSent) =>
      if headerSent then c < |sh.announced| && sh.announced[c] == Some(dest) else Anonymous(sh, c)
    case _ => true
  }

  ghost predicate PoolAnonymous(sh: Shared) {
    forall i :: 0 <= i < |sh.pool| ==> Anonymous(sh, sh.pool[i])
  }

  ghost predicate HeaderInv(s: State) {
    && PoolAnonymous(s.shared)
    && (forall t :: 0 <= t < |s.threads| ==> AnnouncedAs(s.shared, s.threads[t]))
  }

  lemma PerformKeepsHeaders(sh: Shared, t: nat, th: Thread, op: Op)
    requires Perform(sh, t, th, op).Some?
    requires PoolAnonymous(sh) && AnnouncedAs(sh, th)
    ensures var e := Perform(sh, t, th, op).value;
      PoolAnonymous(e.sh) && AnnouncedAs(e.sh, e.th) && sh.announced <= e.sh.announced
  {
  }

  lemma StepKeepsHeaders(s: State, a: Action)
    requires HeaderInv(s) && Step(s, a).Some?
    ensures HeaderInv(Step(s, a).value)
  {
    if a.Go? {
      PerformKeepsHeaders(s.shared, a.t, s.threads[a.t], a.op);
    }
  }

  // ---- Together ----

  ghost predicate Inv(s: State) {
    LockInv(s) && CounterInv(s) && PlacesInv(s) && HeaderInv(s)
  }

  lemma InvInductive()
    ensures Inductive(Step, Inv)
  {
    forall s, a | Inv(s) && Step(s, a).Some? ensures Inv(Step(s, a).value) {
      StepKeepsCounter(s, a);
      StepKeepsPlaces(s, a);
      StepKeepsHeaders(s, a);
    }
  }

  lemma RunKeepsInv(poolSize: nat, run: seq<Action>)
    requires poolSize < 0x8000_0000
    requires Legal(Step, Init(poolSize), run)
    ensures Inv(After(Step, Init(poolSize), run))
    ensures After(Step, Init(poolSize), run).shared.poolSize == poolSize
  {
    InvInductive();
    assert Inv(Init(poolSize));
    InvariantHolds(Step, Inv, Init(poolSize), run);
    SizeInductive(poolSize);
    InvariantHolds(Step, (x: State) => x.shared.poolSize == poolSize, Init(poolSize), run);
  }

  lemma SizeInductive(poolSize: nat)
    ensures Inductive(Step, (x: State) => x.shared.poolSize == poolSize)
  {
  }

  // ---- Main results, over every interleaving ----

  /** The counter is exactly the pool, plus the takers that have not settled, minus the publisher
      that has not counted, plus what `Close` drained; so it stays within [-1, PoolSize]. */
  lemma CounterIsExact(poolSize: nat, run: seq<Action>)
    requires poolSize < 0x8000_0000
    requires Legal(Step, Init(poolSize), run)
    ensures var s := After(Step, Init(poolSize), run);
      && LockInv(s)
      && s.shared.connCount == |s.shared.pool| + Unsettled(s) - Publishing(s) + s.closer.Drained()
      && -1 <= s.shared.connCount <= poolSize
      && |s.shared.pool| <= poolSize
  {
    RunKeepsInv(poolSize, run);
  }

  /** The branch that closes a connection because the pool is full is dead code. */
  lemma PoolIsNeverFullAtSend(poolSize: nat, run: seq<Action>, t: nat)
    requires poolSize < 0x8000_0000
    requires Legal(Step, Init(poolSize), run)
    ensures Step(After(Step, Init(poolSize), run), Go(t, Pre(Discard))).None?
  {
    RunKeepsInv(poolSize, run);
  }

  /** Every opened connection is in exactly one place, and no other connection is anywhere. */
  lemma EveryConnectionIsInOnePlace(poolSize: nat, run: seq<Action>, c: ConnId)
    requires poolSize < 0x8000_0000
    requires Legal(Step, Init(poolSize), run)
    ensures var s := After(Step, Init(poolSize), run);
      Sum(s.shared.pool, Is(c)) + Sum(s.threads, HeldBy(c)) + HeldByCloser(s.closer, c)
        + Sum(s.shared.closed, Is(c))
        == if c < |s.shared.announced| then 1 else 0
  {
    RunKeepsInv(poolSize, run);
    var s := After(Step, Init(poolSize), run);
    assert Places(s, c) == Once(s.shared, c);
  }

  ghost predicate Returned(s: State, t: nat, th: Thread) {
    th.DialReturned? && t < |s.threads| && s.threads[t] == th
  }

  lemma ReturnedInductive(t: nat, th: Thread)
    ensures Inductive(Step, (s: State) => Returned(s, t, th))
  {
  }

  lemma Occurs(xs: seq<ConnId>, c: ConnId)
    requires c in xs
    ensures Sum(xs, Is(c)) >= 1
  {
    var i :| 0 <= i < |xs| && xs[i] == c;
    SumRemove(xs, i, Is(c));
  }

  /** A connection handed to a caller belongs to that caller alone, and is neither pooled nor closed
      by the pool, now or at any later time. */
  lemma HandedOutOnce(poolSize: nat, run: seq<Action>, more: seq<Action>, t: nat, th: Thread, u: nat)
    requires poolSize < 0x8000_0000
    requires Legal(Step, Init(poolSize), run) && Returned(After(Step, Init(poolSize), run), t, th)
    requires Legal(Step, Init(poolSize), run + more)
    ensures var s := After(Step, Init(poolSize), run + more);
      && Returned(s, t, th)
      && th.conn !in s.shared.pool && th.conn !in s.shared.closed
      && HeldByCloser(s.closer, th.conn) == 0
      && (u < |s.threads| && u != t ==> HeldBy(th.conn)(s.threads[u]) == 0)
  {
    Split(Step, Init(poolSize), run, more);
    ReturnedInductive(t, th);
    InvariantHolds(Step, (s: State) => Returned(s, t, th), After(Step, Init(poolSize), run), more);
    RunKeepsInv(poolSize, run + more);
    var s := After(Step, Init(poolSize), run + more);
    assert Places(s, th.conn) <= 1;
    SumRemove(s.threads, t, HeldBy(th.conn));
    if u < |s.threads| && u != t {
      SumPair(s.threads, t, u, HeldBy(th.conn));
    }
    if th.conn in s.shared.pool {
      Occurs(s.shared.pool, th.conn);
    }
    if th.conn in s.shared.closed {
      Occurs(s.shared.closed, th.conn);
    }
  }

  /** A `Dial` that reports its header as sent got a connection dialled for its own destination; any
      other got one that announced nothing. */
  lemma HeaderSentTellsTheMode(poolSize: nat, run: seq<Action>, t: nat, th: Thread)
    requires poolSize < 0x8000_0000
    requires Legal(Step, Init(poolSize), run) && Returned(After(Step, Init(poolSize), run), t, th)
    ensures var s := After(Step, Init(poolSize), run);
      && th.conn < |s.shared.announced|
      && s.shared.announced[th.conn] == if th.headerSent then Some(th.dest) else None
  {
    RunKeepsInv(poolSize, run);
    var s := After(Step, Init(poolSize), run);
    assert AnnouncedAs(s.shared, s.threads[t]);
  }

  // ---- Replenishment ----

  function IsPreDial(th: Thread): nat {
    if th.PreLock? || th.HoldsLock() || th.PreDone? then 1 else 0
  }

  function IsFinishedDial(th: Thread): nat {
    if th.DialReturned? || th.DialFailed? then 1 else 0
  }

  ghost predicate Replenished(s: State) {
    Sum(s.threads, IsPreDial) == Sum(s.threads, IsFinishedDial)
  }

  /** An operation finishes a `Dial` at most once, and never turns one kind into the other. */
  lemma PerformFinishes(sh: Shared, t: nat, th: Thread, op: Op)
    requires Perform(sh, t, th, op).Some?
    ensures var e := Perform(sh, t, th, op).value;
      && IsPreDial(e.th) == IsPreDial(th) && IsFinishedDial(th) == 0
      && |Spawned(e.th)| == IsFinishedDial(e.th)
  {
  }

  lemma GoReplenishes(s: State, t: nat, op: Op)
    requires Replenished(s) && Step(s, Go(t, op)).Some?
    ensures Replenished(Step(s, Go(t, op)).value)
  {
    var e := Perform(s.shared, t, s.threads[t], op).value;
    var moved := s.threads[t := e.th];
    PerformFinishes(s.shared, t, s.threads[t], op);
    SumUpdate(s.threads, t, e.th, IsPreDial);
    SumUpdate(s.threads, t, e.th, IsFinishedDial);
    SumConcat(moved, Spawned(e.th), IsPreDial);
    SumConcat(moved, Spawned(e.th), IsFinishedDial);
    assert Sum([PreLock], IsPreDial) == IsPreDial(PreLock) + Sum([], IsPreDial);
    assert Sum([PreLock], IsFinishedDial) == IsFinishedDial(PreLock) + Sum([], IsFinishedDial);
  }

  /** Every `Dial` that returns, with a connection or an error, has started exactly one `preDial`. */
  lemma EveryReturnStartsAPreDial(poolSize: nat, run: seq<Action>)
    requires Legal(Step, Init(poolSize), run)
    ensures var s := After(Step, Init(poolSize), run);
      Sum(s.threads, IsPreDial) == Sum(s.threads, IsFinishedDial)
  {
    forall s, a | Replenished(s) && Step(s, a).Some? ensures Replenished(Step(s, a).value) {
      match a
      case Go(t, op) => GoReplenishes(s, t, op);
      case StartDial(dest) =>
        SumAppend(s.threads, DialSelect(dest), IsPreDial);
        SumAppend(s.threads, DialSelect(dest), IsFinishedDial);
      case _ =>
    }
    InvariantHolds(Step, Replenished, Init(poolSize), run);
  }

  // ---- After Close ----

  predicate IsDefault(a: Action) {
    a.Go? && a.op == Dial(SelectDefault)
  }

  predicate IsDialConnect(a: Action) {
    a.Go? && a.op.Dial? && a.op.dial.DialConnect?
  }

  predicate IsPreConnect(a: Action) {
    a.Go? && a.op.Pre? && a.op.pre.PreConnect?
  }

  predicate IsSend(a: Action) {
    a.Go? && a.op == Pre(Send)
  }

  ghost predicate Stopped(s: State) {
    LockInv(s) && s.shared.stopped
  }

  /** `Dial`s past the select that have not connected yet. */
  function ConnectingBy(th: Thread): nat {
    if th.DialConnecting? then 1 else 0
  }

  ghost function DialsLeft(s: State): nat {
    Sum(s.threads, ConnectingBy)
  }

  /** The one `preDial` that may have passed the stop test before the channel was closed. */
  ghost function SendsLeft(s: State): nat {
    if LockInv(s) && Holder(s).MaySend() then 1 else 0
  }

  ghost function PreConnectsLeft(s: State): nat {
    if LockInv(s) && Holder(s).PreConnecting? then 1 else 0
  }

  function One(b: bool): nat {
    if b then 1 else 0
  }

  lemma PerformWhenStopped(sh: Shared, t: nat, th: Thread, op: Op)
    requires sh.stopped && Perform(sh, t, th, op).Some?
    ensures var e := Perform(sh, t, th, op).value;
      && e.sh.stopped && op != Dial(SelectDefault)
      && (e.th.MaySend() ==> th.MaySend() && op != Pre(Send))
      && (op == Pre(Send) ==> th.MaySend())
      && !e.th.PreConnecting?
      && (IsPreConnect(Go(t, op)) ==> th.PreConnecting?)
      && ConnectingBy(e.th) + One(IsDialConnect(Go(t, op))) <= ConnectingBy(th)
  {
  }

  lemma StepWhenStopped(s: State, a: Action)
    requires Stopped(s) && Step(s, a).Some?
    ensures var s' := Step(s, a).value;
      && Stopped(s') && !IsDefault(a)
      && SendsLeft(s') + One(IsSend(a)) <= SendsLeft(s)
      && PreConnectsLeft(s') + One(IsPreConnect(a)) <= PreConnectsLeft(s)
  {
    StepKeepsLock(s, a);
    if a.Go? {
      PerformWhenStopped(s.shared, a.t, s.threads[a.t], a.op);
      PerformKeepsLock(s.shared, a.t, s.threads[a.t], a.op);
    }
  }

  lemma DialsWhenStopped(s: State, a: Action)
    requires Stopped(s) && Step(s, a).Some?
    ensures DialsLeft(Step(s, a).value) + One(IsDialConnect(a)) <= DialsLeft(s)
  {
    match a
    case Go(t, op) =>
      PerformWhenStopped(s.shared, t, s.threads[t], op);
      ApplyMoves(s, t, Perform(s.shared, t, s.threads[t], op).value, ConnectingBy);
    case StartDial(dest) => SumAppend(s.threads, DialSelect(dest), ConnectingBy);
    case _ =>
  }

  lemma StoppedInductive()
    ensures Inductive(Step, Stopped)
    ensures Spends(Step, Stopped, IsDefault, (s: State) => 0)
    ensures Spends(Step, Stopped, IsDialConnect, DialsLeft)
    ensures Spends(Step, Stopped, IsPreConnect, PreConnectsLeft)
    ensures Spends(Step, Stopped, IsSend, SendsLeft)
  {
    forall s, a | Stopped(s) && Step(s, a).Some?
      ensures var s' := Step(s, a).value;
        && Stopped(s') && !IsDefault(a)
        && SendsLeft(s') + One(IsSend(a)) <= SendsLeft(s)
        && PreConnectsLeft(s') + One(IsPreConnect(a)) <= PreConnectsLeft(s)
        && DialsLeft(s') + One(IsDialConnect(a)) <= DialsLeft(s)
    {
      StepWhenStopped(s, a);
      DialsWhenStopped(s, a);
    }
  }

  /** The stop channel is closed by `Close`, for good. */
  lemma {:induction false} StoppedByClose(s: State, run: seq<Action>)
    requires Legal(Step, s, run)
    ensures After(Step, s, run).shared.stopped <==> s.shared.stopped || CloseStop in run
    decreases |run|
  {
    if run != [] {
      StopStep(s, run[0]);
      StoppedByClose(Step(s, run[0]).value, run[1..]);
      assert CloseStop in run <==> run[0] == CloseStop || CloseStop in run[1..];
    }
  }

  lemma StopStep(s: State, a: Action)
    requires Step(s, a).Some?
    ensures Step(s, a).value.shared.stopped <==> s.shared.stopped || a == CloseStop
  {
  }

  /** Once the stop channel is closed, no `Dial` decides to connect, so only those that had already
      decided still do; of the `preDial`s at most one still connects, and at most one more connection
      ever enters the pool, because the mutex spans the stop test through the send. */
  lemma QuietAfterStop(poolSize: nat, run: seq<Action>, more: seq<Action>)
    requires poolSize < 0x8000_0000
    requires Legal(Step, Init(poolSize), run) && CloseStop in run
    requires Legal(Step, After(Step, Init(poolSize), run), more)
    ensures Count(more, IsDefault) == 0
    ensures Count(more, IsDialConnect) <= Sum(After(Step, Init(poolSize), run).threads, ConnectingBy)
    ensures Count(more, IsPreConnect) <= 1
    ensures Count(more, IsSend) <= 1
  {
    RunKeepsInv(poolSize, run);
    StoppedByClose(Init(poolSize), run);
    StoppedInductive();
    var s := After(Step, Init(poolSize), run);
    BudgetBound(Step, Stopped, IsDefault, (s: State) => 0, s, more);
    BudgetBound(Step, Stopped, IsDialConnect, DialsLeft, s, more);
    BudgetBound(Step, Stopped, IsPreConnect, PreConnectsLeft, s, more);
    BudgetBound(Step, Stopped, IsSend, SendsLeft, s, more);
  }
}
