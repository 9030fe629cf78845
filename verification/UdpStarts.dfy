/** The goroutine that client/udp.go starts for a new source stores the session in the table and sends
    the first datagram into its queue without taking the session's mutex.  When is it too late? */
module UdpStarts {
  import opened Bytes
  import opened Runs
  import opened UdpModel
  import opened UdpOwnership
  import opened UdpSessions
  import opened UdpResults

  // ---- More that every step keeps ----

  predicate Holds(r: Reader, i: nat) {
    (r.Checking? || r.Sending? || r.Releasing?) && r.sid == i
  }

  /** A session's mutex, when a listener has it, is held by the session's own listener. */
  ghost predicate HolderOk(s: State) {
    forall i :: 0 <= i < |s.sessions| && s.sessions[i].mu.ByReader? ==>
      s.sessions[i].listener < |s.readers| && Holds(s.readers[s.sessions[i].listener], i)
  }

  /** The idle timeout of a session is that of its listener. */
  ghost predicate TimedOk(timeouts: seq<int>, s: State) {
    && s.timeouts == timeouts
    && (forall i :: 0 <= i < |s.sessions| ==>
          && s.sessions[i].listener < |timeouts|
          && s.sessions[i].idle == IdleTimeout(timeouts[s.sessions[i].listener]))
  }

  /** A datagram that waits for its session came through a configured listener. */
  ghost predicate ListenersOk(timeouts: seq<int>, s: State) {
    && |s.readers| == |timeouts|
    && (forall k :: 0 <= k < |s.starters| && s.starters[k].Connecting? && s.starters[k].p.what.FromClient? ==>
          s.starters[k].p.what.listener < |timeouts|)
  }

  /** A first send into session `i` is still to come. */
  ghost predicate Pending(s: State, i: nat) {
    exists k :: 0 <= k < |s.starters| && s.starters[k].FirstSend? && s.starters[k].sid == i
  }

  /** A session found in the table after its health check has ended still awaits its first send. */
  ghost predicate LateOk(s: State) {
    forall key :: key in s.table && s.table[key] < |s.sessions| && s.sessions[s.table[key]].health.Over? ==>
      Pending(s, s.table[key])
  }

  ghost predicate StartInv(timeouts: seq<int>, s: State) {
    Inv(s) && HolderOk(s) && TimedOk(timeouts, s) && ListenersOk(timeouts, s) && LateOk(s)
  }

  /** Same listeners, same configuration, same locks; sessions that appear are unlocked. */
  ghost predicate SameLocks(s: State, s': State) {
    && s'.readers == s.readers && s'.timeouts == s.timeouts && |s.sessions| <= |s'.sessions|
    && (forall i :: 0 <= i < |s.sessions| ==>
          s'.sessions[i].mu == s.sessions[i].mu && s'.sessions[i].listener == s.sessions[i].listener)
    && (forall i :: |s.sessions| <= i < |s'.sessions| ==> s'.sessions[i].mu.Free?)
  }

  lemma HolderFrame(s: State, s': State)
    requires HolderOk(s) && SameLocks(s, s')
    ensures HolderOk(s')
  {
  }

  lemma StarterSameLocks(s: State, k: nat, op: StarterOp)
    requires StarterStep(s, k, op).Some?
    ensures SameLocks(s, StarterStep(s, k, op).value)
  {
  }

  lemma ProcSameLocks(s: State, i: nat, op: ProcOp)
    requires ProcStep(s, i, op).Some?
    ensures SameLocks(s, ProcStep(s, i, op).value)
  {
  }

  lemma RemoteSameLocks(s: State, i: nat, op: RemoteOp)
    requires RemoteStep(s, i, op).Some?
    ensures SameLocks(s, RemoteStep(s, i, op).value)
  {
  }

  lemma HealthKeepsHolder(s: State, i: nat, op: HealthOp)
    requires HealthStep(s, i, op).Some? && HolderOk(s)
    ensures HolderOk(HealthStep(s, i, op).value)
  {
    HealthTouches(s, i, op);
    HealthSame(s, i, op);
  }

  lemma HealthSame(s: State, i: nat, op: HealthOp)
    requires HealthStep(s, i, op).Some?
    ensures var s' := HealthStep(s, i, op).value;
      && s'.timeouts == s.timeouts && s'.readers == s.readers && s'.starters == s.starters
      && (s'.sessions[i].mu.ByReader? ==> s.sessions[i].mu.ByReader?)
  {
  }

  /** Listener `l` goes from one state to another around session `i`, locked or not. */
  lemma ReaderHolder(s: State, l: nat, r: Reader, i: nat, x: Session)
    requires HolderOk(s) && l < |s.readers| && i < |s.sessions| && s.sessions[i].listener == x.listener == l
    requires s.readers[l].Found? || Holds(s.readers[l], i)
    requires x.mu.ByReader? ==> Holds(r, i)
    ensures HolderOk(SetReader(SetSession(s, i, x), l, r))
  {
  }

  /** Listener `l` moves on without a lock. */
  lemma ReaderNoHolder(s: State, s': State, l: nat, r: Reader)
    requires HolderOk(s) && l < |s.readers| && s'.sessions == s.sessions && s'.readers == s.readers[l := r]
    requires forall i :: Holds(s.readers[l], i) ==> Holds(r, i)
    ensures HolderOk(s')
  {
  }

  lemma ReaderKeepsHolder(s: State, l: nat, op: ReaderOp)
    requires ReaderStep(s, l, op).Some? && LinksOk(s) && HolderOk(s)
    ensures HolderOk(ReaderStep(s, l, op).value)
  {
    var r := s.readers[l];
    assert ReaderOk(s.sessions, l, r);
    match op
    case RLock => ReaderHolder(s, l, Checking(r.p, r.sid), r.sid, s.sessions[r.sid].(mu := ByReader));
    case RSend =>
      if !s.sessions[r.sid].queueClosed {
        ReaderHolder(s, l, Releasing(r.sid), r.sid, Enqueue(s.sessions[r.sid], r.p));
      }
    case RUnlock => ReaderHolder(s, l, Idle, r.sid, s.sessions[r.sid].(mu := Free));
    case _ => ReaderNoHolder(s, ReaderStep(s, l, op).value, l, ReaderStep(s, l, op).value.readers[l]);
  }

  lemma StepKeepsHolder(s: State, a: Action)
    requires Step(s, a).Some? && LinksOk(s) && HolderOk(s)
    ensures HolderOk(Step(s, a).value)
  {
    var s' := Step(s, a).value;
    match a
    case AReader(l, op) => ReaderKeepsHolder(s, l, op);
    case AHealth(i, op) => HealthKeepsHolder(s, i, op);
    case AStarter(k, op) => StarterSameLocks(s, k, op); HolderFrame(s, s');
    case AProc(i, op) => ProcSameLocks(s, i, op); HolderFrame(s, s');
    case ARemote(i, op) => RemoteSameLocks(s, i, op); HolderFrame(s, s');
    case AWorker(w, op) => HolderFrame(s, s');
    case Tick(_) => HolderFrame(s, s');
  }

  lemma TimedFrame(timeouts: seq<int>, s: State, s': State)
    requires TimedOk(timeouts, s) && Extends(s, s')
    requires |s'.sessions| == |s.sessions| && s'.timeouts == s.timeouts
    ensures TimedOk(timeouts, s')
  {
    forall i | 0 <= i < |s.sessions|
      ensures s'.sessions[i].listener == s.sessions[i].listener && s'.sessions[i].idle == s.sessions[i].idle
    {
      assert Successor(s.sessions[i], s'.sessions[i]);
    }
  }

  lemma StarterKeepsTimed(timeouts: seq<int>, s: State, k: nat, op: StarterOp)
    requires StarterStep(s, k, op).Some? && TimedOk(timeouts, s)
    ensures TimedOk(timeouts, StarterStep(s, k, op).value)
  {
  }

  lemma ReaderSameTimeouts(s: State, l: nat, op: ReaderOp)
    requires ReaderStep(s, l, op).Some?
    ensures var s' := ReaderStep(s, l, op).value;
      s'.timeouts == s.timeouts && |s'.sessions| == |s.sessions| && s'.table == s.table
  {
  }

  lemma StepKeepsTimed(timeouts: seq<int>, s: State, a: Action)
    requires Step(s, a).Some? && TimedOk(timeouts, s)
    ensures TimedOk(timeouts, Step(s, a).value)
  {
    var s' := Step(s, a).value;
    StepExtends(s, a);
    match a
    case AReader(l, op) => ReaderSameTimeouts(s, l, op); TimedFrame(timeouts, s, s');
    case AStarter(k, op) => StarterKeepsTimed(timeouts, s, k, op);
    case AProc(i, op) => ProcSameLocks(s, i, op); ProcTouches(s, i, op); TimedFrame(timeouts, s, s');
    case ARemote(i, op) => RemoteSameLocks(s, i, op); RemoteTouches(s, i, op); TimedFrame(timeouts, s, s');
    case AHealth(i, op) => HealthSame(s, i, op); HealthTouches(s, i, op); TimedFrame(timeouts, s, s');
    case AWorker(w, op) => TimedFrame(timeouts, s, s');
    case Tick(_) => TimedFrame(timeouts, s, s');
  }

  lemma ReaderKeepsListeners(timeouts: seq<int>, s: State, l: nat, op: ReaderOp)
    requires ReaderStep(s, l, op).Some? && LinksOk(s) && ListenersOk(timeouts, s)
    ensures ListenersOk(timeouts, ReaderStep(s, l, op).value)
  {
    assert ReaderOk(s.sessions, l, s.readers[l]);
  }

  lemma StarterKeepsListeners(timeouts: seq<int>, s: State, k: nat, op: StarterOp)
    requires StarterStep(s, k, op).Some? && ListenersOk(timeouts, s)
    ensures ListenersOk(timeouts, StarterStep(s, k, op).value)
  {
  }

  lemma RemoteSameStarters(s: State, i: nat, op: RemoteOp)
    requires RemoteStep(s, i, op).Some?
    ensures RemoteStep(s, i, op).value.starters == s.starters && RemoteStep(s, i, op).value.panic == s.panic
  {
  }

  lemma StepKeepsListeners(timeouts: seq<int>, s: State, a: Action)
    requires Step(s, a).Some? && LinksOk(s) && ListenersOk(timeouts, s)
    ensures ListenersOk(timeouts, Step(s, a).value)
  {
    match a
    case AReader(l, op) => ReaderKeepsListeners(timeouts, s, l, op);
    case AStarter(k, op) => StarterKeepsListeners(timeouts, s, k, op);
    case AProc(i, op) => ProcSameLocks(s, i, op); ProcSameStart(s, i, op);
    case ARemote(i, op) => RemoteSameLocks(s, i, op); RemoteSameStarters(s, i, op);
    case AHealth(i, op) => HealthSame(s, i, op);
    case AWorker(w, op) =>
    case Tick(_) =>
  }

  // ---- Late stores ----

  /** First sends stay pending, the table gains nothing, and no health check has ended. */
  ghost predicate SameEnds(s: State, s': State) {
    && |s'.sessions| == |s.sessions|
    && (forall k :: 0 <= k < |s.starters| ==> k < |s'.starters| && s'.starters[k] == s.starters[k])
    && (forall key :: key in s'.table ==> key in s.table && s'.table[key] == s.table[key])
    && (forall i :: 0 <= i < |s.sessions| ==> (s'.sessions[i].health.Over? <==> s.sessions[i].health.Over?))
  }

  lemma LateFrame(s: State, s': State)
    requires LateOk(s) && SameEnds(s, s')
    ensures LateOk(s')
  {
    forall key | key in s'.table && s'.table[key] < |s'.sessions| && s'.sessions[s'.table[key]].health.Over?
      ensures Pending(s', s'.table[key])
    {
      var k :| 0 <= k < |s.starters| && s.starters[k].FirstSend? && s.starters[k].sid == s.table[key];
      assert s'.starters[k] == s.starters[k];
    }
  }

  lemma ReaderSameEnds(s: State, l: nat, op: ReaderOp)
    requires ReaderStep(s, l, op).Some?
    ensures SameEnds(s, ReaderStep(s, l, op).value)
  {
  }

  lemma RemoteSameEnds(s: State, i: nat, op: RemoteOp)
    requires RemoteStep(s, i, op).Some?
    ensures SameEnds(s, RemoteStep(s, i, op).value)
  {
  }

  lemma ProcSameEnds(s: State, i: nat, op: ProcOp)
    requires ProcStep(s, i, op).Some?
    ensures SameEnds(s, ProcStep(s, i, op).value)
  {
  }

  lemma HealthKeepsLate(s: State, i: nat, op: HealthOp)
    requires HealthStep(s, i, op).Some? && LateOk(s) && TableOk(s)
    ensures LateOk(HealthStep(s, i, op).value)
  {
    var s' := HealthStep(s, i, op).value;
    if op.HRemove? {
      assert forall key :: key in s'.table ==> KeyOf(s.sessions[s.table[key]]) == key;
      forall key | key in s'.table && s'.sessions[s'.table[key]].health.Over? ensures Pending(s', s'.table[key]) {
        assert Pending(s, s.table[key]);
      }
    } else {
      LateFrame(s, s');
    }
  }

  /** A first send that is still pending when the health check has ended stays pending. */
  lemma StarterKeepsPending(s: State, k: nat, op: StarterOp, i: nat)
    requires StarterStep(s, k, op).Some? && Pending(s, i) && i < |s.sessions| && s.sessions[i].queueClosed
    ensures Pending(StarterStep(s, k, op).value, i)
  {
    var j :| 0 <= j < |s.starters| && s.starters[j].FirstSend? && s.starters[j].sid == i;
    assert StarterStep(s, k, op).value.starters[j] == s.starters[j];
  }

  lemma StarterKeepsLate(s: State, k: nat, op: StarterOp)
    requires StarterStep(s, k, op).Some? && LateOk(s) && SessionsOk(s)
    requires TableOk(s)
    ensures LateOk(StarterStep(s, k, op).value)
  {
    var s' := StarterStep(s, k, op).value;
    forall key | key in s'.table && s'.table[key] < |s'.sessions| && s'.sessions[s'.table[key]].health.Over?
      ensures Pending(s', s'.table[key])
    {
      var i := s'.table[key];
      if key in s.table && s.table[key] == i {
        assert SessionOk(s.sessions[i], i, s.now);
        StarterKeepsPending(s, k, op, i);
      } else {
        assert s'.starters[k].FirstSend? && s'.starters[k].sid == i;
      }
    }
  }

  lemma StepKeepsLate(s: State, a: Action)
    requires Step(s, a).Some? && LateOk(s) && SessionsOk(s) && TableOk(s)
    ensures LateOk(Step(s, a).value)
  {
    var s' := Step(s, a).value;
    match a
    case AReader(l, op) => ReaderSameEnds(s, l, op); LateFrame(s, s');
    case AStarter(k, op) => StarterKeepsLate(s, k, op);
    case AProc(i, op) => ProcSameEnds(s, i, op); LateFrame(s, s');
    case ARemote(i, op) => RemoteSameEnds(s, i, op); LateFrame(s, s');
    case AHealth(i, op) => HealthKeepsLate(s, i, op);
    case AWorker(w, op) => LateFrame(s, s');
    case Tick(_) => LateFrame(s, s');
  }

  lemma StartInvInductive(timeouts: seq<int>)
    ensures Inductive(Step, (s: State) => StartInv(timeouts, s))
  {
    InvInductive();
    forall s: State, a: Action | StartInv(timeouts, s) && Step(s, a).Some?
      ensures StartInv(timeouts, Step(s, a).value)
    {
      StepKeepsHolder(s, a);
      StepKeepsTimed(timeouts, s, a);
      StepKeepsListeners(timeouts, s, a);
      StepKeepsLate(s, a);
    }
  }

  lemma StartHolds(timeouts: seq<int>, cpus: nat, now: int, run: seq<Action>, s: State)
    requires Reaches(timeouts, cpus, now, run, s)
    ensures StartInv(timeouts, s)
  {
    InitHolds(timeouts, cpus, now);
    StartInvInductive(timeouts);
    InvariantHolds(Step, (s: State) => StartInv(timeouts, s), Init(timeouts, cpus, now), run);
  }

  // ---- When a first send can panic at once ----

  /** Steps in which no time passes. */
  function InstantStep(s: State, a: Action): Option<State> {
    if a.Tick? then None else Step(s, a)
  }

  /** The health check has found the session idle, or would find it idle now. */
  predicate Overdue(now: int, x: Session) {
    match x.health
    case Polling(_) => now > x.lastRecv + x.idle
    case Sleeping(until) => now > x.lastRecv + x.idle && now >= until
    case _ => true
  }

  /** Session `i` is not overdue, and no first send has panicked on it. */
  ghost predicate InTime(s: State, i: nat) {
    && Inv(s) && i < |s.sessions| && s.sessions[i].idle > 0
    && !Overdue(s.now, s.sessions[i])
  }

  lemma RemoteInTime(s: State, j: nat, op: RemoteOp, i: nat)
    requires RemoteStep(s, j, op).Some? && i < |s.sessions| && !Overdue(s.now, s.sessions[i])
    ensures var s' := RemoteStep(s, j, op).value; i < |s'.sessions| && !Overdue(s'.now, s'.sessions[i])
  {
    RemoteTouches(s, j, op);
  }

  lemma HealthInTime(s: State, j: nat, op: HealthOp, i: nat)
    requires HealthStep(s, j, op).Some? && i < |s.sessions| && s.sessions[i].idle > 0
    requires !Overdue(s.now, s.sessions[i])
    ensures var s' := HealthStep(s, j, op).value; i < |s'.sessions| && !Overdue(s'.now, s'.sessions[i])
  {
    HealthTouches(s, j, op);
  }

  lemma StarterUntimed(s: State, k: nat, op: StarterOp, i: nat)
    requires StarterStep(s, k, op).Some? && i < |s.sessions|
    ensures Untimed(s, StarterStep(s, k, op).value, i)
  {
  }

  lemma WorkerUntimed(s: State, w: nat, op: WorkerOp, i: nat)
    requires WorkerStep(s, w, op).Some?
    ensures Untimed(s, WorkerStep(s, w, op).value, i)
  {
  }

  lemma InstantKeepsTime(s: State, a: Action, i: nat)
    requires InstantStep(s, a).Some? && i < |s.sessions| && s.sessions[i].idle > 0
    requires !Overdue(s.now, s.sessions[i])
    ensures var s' := InstantStep(s, a).value; i < |s'.sessions| && !Overdue(s'.now, s'.sessions[i])
  {
    StepExtends(s, a);
    match a
    case AReader(l, op) => ReaderUntimed(s, i, l, op);
    case AStarter(k, op) => StarterUntimed(s, k, op, i);
    case AProc(j, op) => ProcUntimed(s, i, j, op);
    case ARemote(j, op) => RemoteInTime(s, j, op, i);
    case AHealth(j, op) => HealthInTime(s, j, op, i);
    case AWorker(w, op) => WorkerUntimed(s, w, op, i);
  }

  lemma InTimeIsSafe(s: State, i: nat, more: seq<Action>)
    requires InTime(s, i) && Legal(InstantStep, s, more)
    ensures After(InstantStep, s, more).panic != Some(StarterSend(i))
  {
    InvInductive();
    forall t: State, a: Action | InTime(t, i) && InstantStep(t, a).Some? ensures InTime(InstantStep(t, a).value, i) {
      StepExtends(t, a);
      assert Successor(t.sessions[i], Step(t, a).value.sessions[i]);
      InstantKeepsTime(t, a, i);
    }
    InvariantHolds(InstantStep, (t: State) => InTime(t, i), s, more);
    var t := After(InstantStep, s, more);
    assert SessionOk(t.sessions[i], i, t.now);
  }

  /** The health check of session `i` can go on to close the queue. */
  ghost predicate Ripe(s: State, i: nat) {
    Inv(s) && HolderOk(s) && s.panic.None? && i < |s.sessions| && Overdue(s.now, s.sessions[i])
  }

  /** The first send of starter `k` is still to come, and its session is overdue. */
  ghost predicate Late(s: State, k: nat, i: nat) {
    Ripe(s, i) && k < |s.starters| && s.starters[k].FirstSend? && s.starters[k].sid == i
  }

  /** The step of each goroutine that brings the close of the queue nearer. */
  function HealthNext(h: Health): HealthOp {
    match h
    case Sleeping(_) => HWake
    case Polling(_) => HPoll
    case Locking => HLock
    case Flagging => HFlag
    case _ => HClose
  }

  function ReaderNext(r: Reader): ReaderOp {
    if r.Checking? then RCheck else if r.Sending? then RSend else RUnlock
  }

  function ProcNext(r: Proc): ProcOp {
    if r.Writing? then PWrite else if r.Recycling? then PPut else PTake
  }

  function HealthLeft(h: Health): nat {
    match h
    case Sleeping(_) => 5
    case Polling(_) => 4
    case Locking => 3
    case Flagging => 2
    case Closing => 1
    case _ => 0
  }

  function ReaderLeft(s: State, x: Session): nat {
    if !x.mu.ByReader? || x.listener >= |s.readers| then 0
    else
      match s.readers[x.listener]
      case Checking(_, _) => 3
      case Sending(_, _) => 2
      case _ => 1
  }

  function ProcLeft(x: Session): nat {
    if |x.queue| < INBOUND_QUEUE_SIZE then 0
    else 3 * |x.queue| + (if x.proc.Writing? then 2 else if x.proc.Recycling? then 1 else 0)
  }

  /** What the detour leaves alone. */
  predicate SameStart(s: State, s': State, i: nat) {
    && s'.starters == s.starters && s'.now == s.now && s'.panic == s.panic
    && i < |s.sessions| && i < |s'.sessions|
    && s'.sessions[i].lastRecv == s.sessions[i].lastRecv && s'.sessions[i].idle == s.sessions[i].idle
  }

  /** The health check goes on, unless it waits for the mutex. */
  lemma HealthNearer(s: State, i: nat)
    requires i < |s.sessions| && QueueOk(s.sessions[i]) && Overdue(s.now, s.sessions[i])
    requires !s.sessions[i].queueClosed && (s.sessions[i].health.Locking? ==> s.sessions[i].mu.Free?)
    ensures var step := HealthStep(s, i, HealthNext(s.sessions[i].health));
      && step.Some? && SameStart(s, step.value, i)
      && Overdue(s.now, step.value.sessions[i]) && !step.value.sessions[i].health.Over?
      && HealthLeft(step.value.sessions[i].health) < HealthLeft(s.sessions[i].health)
  {
  }

  /** The listener that has the mutex goes on, unless it waits for the queue. */
  lemma ReaderNearer(s: State, l: nat, i: nat)
    requires i < |s.sessions| && l < |s.readers| && Holds(s.readers[l], i) && ReaderOk(s.sessions, l, s.readers[l])
    requires s.readers[l].Sending? ==> |s.sessions[i].queue| < INBOUND_QUEUE_SIZE
    ensures var step := ReaderStep(s, l, ReaderNext(s.readers[l]));
      && step.Some? && SameStart(s, step.value, i)
      && step.value.sessions[i].health == s.sessions[i].health
      && ReaderLeft(step.value, step.value.sessions[i]) < ReaderLeft(s, s.sessions[i])
  {
  }

  lemma ProcSameStart(s: State, i: nat, op: ProcOp)
    requires ProcStep(s, i, op).Some?
    ensures var s' := ProcStep(s, i, op).value;
      SameStart(s, s', i) && s'.sessions[i].health == s.sessions[i].health
  {
  }

  /** The goroutine that empties a full queue goes on. */
  lemma ProcNearer(s: State, i: nat)
    requires i < |s.sessions| && s.sessions[i].queue != [] && !s.sessions[i].proc.Drained?
    ensures ProcStep(s, i, ProcNext(s.sessions[i].proc)).Some?
  {
  }

  lemma ProcFalls(s: State, i: nat)
    requires i < |s.sessions| && |s.sessions[i].queue| >= INBOUND_QUEUE_SIZE
    requires ProcStep(s, i, ProcNext(s.sessions[i].proc)).Some?
    ensures ProcLeft(ProcStep(s, i, ProcNext(s.sessions[i].proc)).value.sessions[i]) < ProcLeft(s.sessions[i])
  {
    var x := s.sessions[i];
    if x.proc.Writing? {
      assert ProcStep(s, i, PWrite).Some?;
    } else if x.proc.Recycling? {
      assert ProcStep(s, i, PPut).Some?;
    } else {
      assert ProcStep(s, i, PTake).value.sessions[i].queue == x.queue[1..];
    }
  }

  lemma SendPanics(s: State, k: nat, i: nat)
    requires Late(s, k, i) && s.sessions[i].queueClosed
    ensures Step(s, AStarter(k, SSend)) == Some(s.(panic := Some(StarterSend(i))))
  {
  }

  /** Session `i` is overdue still, and fewer steps are left. */
  ghost predicate Closer(s: State, s': State, i: nat) {
    && SameStart(s, s', i)
    && Overdue(s.now, s'.sessions[i]) && !s'.sessions[i].health.Over?
    && var x := s.sessions[i]; var x' := s'.sessions[i];
    || HealthLeft(x'.health) < HealthLeft(x.health)
    || (x'.health == x.health && ReaderLeft(s', x') < ReaderLeft(s, x))
    || (x'.health == x.health && ReaderLeft(s', x') == ReaderLeft(s, x) && ProcLeft(x') < ProcLeft(x))
  }

  /** What brings the close nearer: the next step of the health check; if it waits for the mutex, of
      the listener that has it; if that waits for the queue, of the goroutine that empties it. */
  lemma OneStepCloser(s: State, i: nat) returns (a: Action)
    requires Ripe(s, i) && !s.sessions[i].queueClosed
    ensures InstantStep(s, a).Some? && Closer(s, InstantStep(s, a).value, i)
  {
    var x := s.sessions[i];
    var l := x.listener;
    assert SessionOk(x, i, s.now);
    if !x.health.Locking? || !x.mu.ByReader? {
      HealthNearer(s, i);
      a := AHealth(i, HealthNext(x.health));
    } else {
      assert ReaderOk(s.sessions, l, s.readers[l]);
      if s.readers[l].Sending? && |x.queue| >= INBOUND_QUEUE_SIZE {
        a := AProc(i, ProcNext(x.proc));
        ProcNearer(s, i);
        ProcSameStart(s, i, ProcNext(x.proc));
        ProcFalls(s, i);
        ProcSameLocks(s, i, ProcNext(x.proc));
      } else {
        ReaderNearer(s, l, i);
        a := AReader(l, ReaderNext(s.readers[l]));
      }
    }
  }

  lemma StillRipe(s: State, a: Action, i: nat)
    requires Ripe(s, i) && InstantStep(s, a).Some? && Closer(s, InstantStep(s, a).value, i)
    ensures var s' := InstantStep(s, a).value; Ripe(s', i) && Successor(s.sessions[i], s'.sessions[i])
  {
    InvInductive();
    StepKeepsHolder(s, a);
    StepExtends(s, a);
  }

  /** The queue of session `i` has been closed, and its key not deleted since. */
  ghost predicate ClosedFrom(s: State, s': State, i: nat) {
    && Ripe(s', i) && s'.sessions[i].queueClosed && s'.now == s.now && s'.starters == s.starters
    && i < |s.sessions| && Successor(s.sessions[i], s'.sessions[i])
    && (!s.sessions[i].queueClosed ==> !s'.sessions[i].health.Over?)
  }

  lemma ClosedFromTrans(s: State, t: State, s': State, i: nat)
    requires SameStart(s, t, i) && Successor(s.sessions[i], t.sessions[i]) && ClosedFrom(t, s', i)
    requires t.sessions[i].queueClosed ==> s' == t && !t.sessions[i].health.Over?
    ensures ClosedFrom(s, s', i)
  {
  }

  /** The queue of an overdue session can be closed without any time passing. */
  lemma WayToClose(s: State, i: nat) returns (more: seq<Action>)
    requires Ripe(s, i)
    ensures Legal(InstantStep, s, more) && ClosedFrom(s, After(InstantStep, s, more), i)
    ensures s.sessions[i].queueClosed ==> more == []
    decreases HealthLeft(s.sessions[i].health), ReaderLeft(s, s.sessions[i]), ProcLeft(s.sessions[i])
  {
    if s.sessions[i].queueClosed {
      more := [];
    } else {
      var a := OneStepCloser(s, i);
      StillRipe(s, a, i);
      var rest := WayToClose(InstantStep(s, a).value, i);
      ClosedFromTrans(s, InstantStep(s, a).value, After(InstantStep, InstantStep(s, a).value, rest), i);
      Cons(InstantStep, s, a, rest);
      more := [a] + rest;
    }
  }

  /** From every late state the first send can be made to panic without any time passing. */
  lemma WayToPanic(s: State, k: nat, i: nat) returns (more: seq<Action>)
    requires Late(s, k, i)
    ensures Legal(InstantStep, s, more)
    ensures var s' := After(InstantStep, s, more);
      && s'.panic == Some(StarterSend(i)) && s'.now == s.now && s'.starters == s.starters
      && i < |s'.sessions| && Successor(s.sessions[i], s'.sessions[i])
  {
    more := WayToClose(s, i);
    var s' := After(InstantStep, s, more);
    SendPanics(s', k, i);
    Cons(InstantStep, s', AStarter(k, SSend), []);
    Split(InstantStep, s, more, [AStarter(k, SSend)]);
    more := more + [AStarter(k, SSend)];
  }

  lemma IdleIsPositive(timeouts: seq<int>, s: State, i: nat)
    requires TimedOk(timeouts, s) && i < |s.sessions|
    ensures s.sessions[i].idle > 0
  {
  }

  /** In every reachable state with a first send still to come: that send can panic before any more
      time passes if and only if the session's health check has found it idle, or is due and would
      find it idle now.  Nothing else matters, neither who has the mutex nor how full the queue is. */
  lemma FirstSendCanPanicIff(
    timeouts: seq<int>, cpus: nat, now: int, run: seq<Action>, s: State, k: nat, i: nat)
    requires Reaches(timeouts, cpus, now, run, s) && s.panic.None?
    requires k < |s.starters| && s.starters[k].FirstSend? && s.starters[k].sid == i
    ensures i < |s.sessions|
    ensures (exists more ::
               Legal(InstantStep, s, more) && After(InstantStep, s, more).panic == Some(StarterSend(i))) <==>
            Overdue(s.now, s.sessions[i])
  {
    StartHolds(timeouts, cpus, now, run, s);
    assert StarterOk(s.sessions, s.starters[k]);
    if Overdue(s.now, s.sessions[i]) {
      var more := WayToPanic(s, k, i);
    } else {
      IdleIsPositive(timeouts, s, i);
      forall more | Legal(InstantStep, s, more)
        ensures After(InstantStep, s, more).panic != Some(StarterSend(i))
      {
        InTimeIsSafe(s, i, more);
      }
    }
  }

  // ---- How long a first send may take ----

  /** A datagram from a new source, and the session opened for it. */
  function Opening(l: nat, src: Addr, data: seq<Byte>): seq<Action> {
    [AReader(l, RGet(Fresh)), AReader(l, RReceive(src, data)), AReader(l, RLoad), AStarter(0, SConnect(true))]
  }

  /** The state after it. */
  function Opened(s: State, l: nat, src: Addr, data: seq<Byte>): State
    requires l < |s.timeouts|
  {
    var kept := Take(data, BUFFER_SIZE);
    var empty: seq<Byte> := seq(BUFFER_SIZE, _ => 0);
    s.(starters := [Storing(Packet(|kept|, 0, FromClient(l, src, kept)), 0)],
       sessions := [NewSession(l, src, IdleTimeout(s.timeouts[l]), s.now)],
       mem := [kept + empty[|kept|..]])
  }

  lemma OpeningRuns(timeouts: seq<int>, cpus: nat, now: int, l: nat, src: Addr, data: seq<Byte>)
    requires l < |timeouts|
    ensures var s := Init(timeouts, cpus, now);
      Legal(Step, s, Opening(l, src, data)) && After(Step, s, Opening(l, src, data)) == Opened(s, l, src, data)
  {
    var run := Opening(l, src, data);
    var s0 := Init(timeouts, cpus, now);
    var s1 := Step(s0, run[0]).value;
    assert s1.readers[l] == Receiving(0) && s1.mem == [seq(BUFFER_SIZE, _ => 0)];
    var s2 := Step(s1, run[1]).value;
    var kept := Take(data, BUFFER_SIZE);
    var p := Packet(|kept|, 0, FromClient(l, src, kept));
    assert s2.readers[l] == Received(p);
    var s3 := Step(s2, run[2]).value;
    assert s3.readers == s0.readers && s3.starters == [Connecting(p)];
    var s4 := Step(s3, run[3]).value;
    assert s4 == Opened(s0, l, src, data);
    Cons(Step, s3, run[3], []);
    Cons(Step, s2, run[2], run[3..]);
    Cons(Step, s1, run[1], run[2..]);
    Cons(Step, s0, run[0], run[1..]);
  }

  lemma {:induction false} InstantIsLegal(s: State, run: seq<Action>)
    requires Legal(InstantStep, s, run)
    ensures Legal(Step, s, run) && After(Step, s, run) == After(InstantStep, s, run)
    decreases |run|
  {
    if run != [] {
      InstantIsLegal(InstantStep(s, run[0]).value, run[1..]);
    }
  }

  /** The first send of the datagram `bytes` from `src` on listener `l` has panicked, `delay` after
      its session was created. */
  ghost predicate PanickedAfter(s: State, l: nat, src: Addr, bytes: seq<Byte>, delay: int) {
    && s.panic.Some? && s.panic.value.StarterSend? && s.panic.value.sid < |s.sessions|
    && var i := s.panic.value.sid;
    && s.sessions[i].listener == l && s.sessions[i].src == src && s.now == s.sessions[i].created + delay
    && exists k :: 0 <= k < |s.starters| && s.starters[k].FirstSend? && s.starters[k].sid == i
                   && s.starters[k].p.what == FromClient(l, src, bytes)
  }

  /** A run in which the first send is delayed by `delay` and panics. */
  lemma DelayedSendPanics(
    timeouts: seq<int>, cpus: nat, now: int, l: nat, src: Addr, data: seq<Byte>, delay: nat)
    returns (run: seq<Action>, s: State)
    requires l < |timeouts| && delay > IdleTimeout(timeouts[l])
    ensures Reaches(timeouts, cpus, now, run, s) && PanickedAfter(s, l, src, Take(data, BUFFER_SIZE), delay)
  {
    var s0 := Init(timeouts, cpus, now);
    OpeningRuns(timeouts, cpus, now, l, src, data);
    var s1 := Opened(s0, l, src, data);
    var wait := [AStarter(0, SStore), Tick(delay)];
    var s2 := Step(s1, wait[0]).value;
    assert s2.starters[0] == FirstSend(s1.starters[0].p, 0);
    assert s2.sessions[0].health == Polling(now + IdleTimeout(timeouts[l]));
    var s3 := Step(s2, wait[1]).value;
    Cons(Step, s2, wait[1], []);
    Cons(Step, s1, wait[0], wait[1..]);
    Split(Step, s0, Opening(l, src, data), wait);
    run := Opening(l, src, data) + wait;
    StartHolds(timeouts, cpus, now, run, s3);
    var more := WayToPanic(s3, 0, 0);
    InstantIsLegal(s3, more);
    Split(Step, s0, run, more);
    run := run + more;
    s := After(InstantStep, s3, more);
    assert s.starters[0].p.what == FromClient(l, src, Take(data, BUFFER_SIZE));
  }

  /** The boundary, for every configuration, listener, source, datagram and delay: a first send that
      comes `delay` after its session was created panics in some run if and only if the delay exceeds
      the listener's idle timeout. */
  lemma PanicAfterDelayIff(
    timeouts: seq<int>, cpus: nat, now: int, l: nat, src: Addr, data: seq<Byte>, delay: nat)
    requires l < |timeouts|
    ensures (exists run, s ::
               Reaches(timeouts, cpus, now, run, s) && PanickedAfter(s, l, src, Take(data, BUFFER_SIZE), delay)) <==>
            delay > IdleTimeout(timeouts[l])
  {
    if delay > IdleTimeout(timeouts[l]) {
      var run, s := DelayedSendPanics(timeouts, cpus, now, l, src, data, delay);
    } else {
      forall run, s | Reaches(timeouts, cpus, now, run, s)
        ensures !PanickedAfter(s, l, src, Take(data, BUFFER_SIZE), delay)
      {
        StartHolds(timeouts, cpus, now, run, s);
        if s.panic.Some? {
          OnlyALateFirstSendPanics(timeouts, cpus, now, run, s);
        }
      }
    }
  }
}
