/** A listener of client/udp.go that finds a session flagged as closed drops its datagram and does not
    return the buffer.  When does that happen, and when can the datagram still be sent? */
module UdpDrops {
  import opened Bytes
  import opened Runs
  import opened Tally
  import opened UdpModel
  import opened UdpOwnership
  import opened UdpSessions
  import opened UdpResults
  import opened UdpStarts
  import opened UdpStranded

  // ---- Lost buffers ----

  lemma ReaderLoses(s: State, l: nat, op: ReaderOp)
    requires ReaderStep(s, l, op).Some?
    ensures s.lost <= ReaderStep(s, l, op).value.lost
  {
  }

  lemma StarterLoses(s: State, k: nat, op: StarterOp)
    requires StarterStep(s, k, op).Some?
    ensures StarterStep(s, k, op).value.lost == s.lost
  {
  }

  lemma ProcLoses(s: State, i: nat, op: ProcOp)
    requires ProcStep(s, i, op).Some?
    ensures ProcStep(s, i, op).value.lost == s.lost && ProcStep(s, i, op).value.readers == s.readers
  {
  }

  lemma RemoteLoses(s: State, i: nat, op: RemoteOp)
    requires RemoteStep(s, i, op).Some?
    ensures RemoteStep(s, i, op).value.lost == s.lost
  {
  }

  lemma HealthLoses(s: State, i: nat, op: HealthOp)
    requires HealthStep(s, i, op).Some?
    ensures HealthStep(s, i, op).value.lost == s.lost
  {
  }

  lemma StepLoses(s: State, a: Action)
    requires Step(s, a).Some?
    ensures s.lost <= Step(s, a).value.lost
  {
    match a
    case AReader(l, op) => ReaderLoses(s, l, op);
    case AStarter(k, op) => StarterLoses(s, k, op);
    case AProc(i, op) => ProcLoses(s, i, op);
    case ARemote(i, op) => RemoteLoses(s, i, op);
    case AHealth(i, op) => HealthLoses(s, i, op);
    case AWorker(w, op) =>
    case Tick(_) =>
  }

  lemma LostOnlyGrows(s: State, more: seq<Action>)
    requires Legal(Step, s, more)
    ensures s.lost <= After(Step, s, more).lost
  {
    forall t: State, a: Action | s.lost <= t.lost && Step(t, a).Some? ensures s.lost <= Step(t, a).value.lost {
      StepLoses(t, a);
    }
    InvariantHolds(Step, (t: State) => s.lost <= t.lost, s, more);
  }

  /** A lost buffer is lost once and for ever: in every continuation it is still lost, and neither the
      pool nor any goroutine or queue has it. */
  lemma LostForEver(timeouts: seq<int>, cpus: nat, now: int, run: seq<Action>, s: State, b: nat, more: seq<Action>)
    requires Reaches(timeouts, cpus, now, run, s) && b in s.lost && Legal(Step, s, more)
    ensures var s' := After(Step, s, more);
      && s.lost <= s'.lost
      && Sum(s'.lost, BareW(b)) == Weight(s', b, Content(s', b)) == 1
      && b !in s'.free
  {
    LostOnlyGrows(s, more);
    var s' := After(Step, s, more);
    Split(Step, Init(timeouts, cpus, now), run, more);
    ReachedHolds(timeouts, cpus, now, run + more, s');
    var k :| 0 <= k < |s'.lost| && s'.lost[k] == b;
    SumRemove(s'.lost, k, BareW(b));
    assert Weight(s', b, Content(s', b)) <= 1;
    if b in s'.free {
      var f :| 0 <= f < |s'.free| && s'.free[f] == b;
      SumRemove(s'.free, f, BareW(b));
    }
  }

  // ---- A datagram in a listener's hand ----

  /** Packet `p` is in the queue of session `i`. */
  predicate Queued(s: State, p: Packet, i: nat) {
    i < |s.sessions| && p in s.sessions[i].queue
  }

  /** Some continuation sends `p` into the queue of session `i`. */
  ghost predicate CanBeQueued(s: State, p: Packet, i: nat) {
    exists more :: Legal(Step, s, more) && Queued(After(Step, s, more), p, i)
  }

  /** Listener `l` has `p` in hand and will find its session flagged, or has lost it. */
  ghost predicate Fated(s: State, l: nat, p: Packet, i: nat) {
    && l < |s.readers| && i < |s.sessions|
    && (|| (s.readers[l] == Found(p, i) && (s.sessions[i].closed || s.sessions[i].health.Flagging?))
        || (s.readers[l] == Checking(p, i) && s.sessions[i].closed)
        || p.buf in s.lost)
  }

  lemma OwnStepFated(s: State, l: nat, op: ReaderOp, p: Packet, i: nat)
    requires Fated(s, l, p, i) && ReaderStep(s, l, op).Some? && QueueOk(s.sessions[i])
    ensures Fated(ReaderStep(s, l, op).value, l, p, i)
  {
    ReaderLoses(s, l, op);
    ReaderExtends(s, l, op);
  }

  lemma OtherStepFated(s: State, m: nat, op: ReaderOp, l: nat, p: Packet, i: nat)
    requires Fated(s, l, p, i) && ReaderStep(s, m, op).Some? && m != l
    ensures Fated(ReaderStep(s, m, op).value, l, p, i)
  {
    ReaderLoses(s, m, op);
    ReaderUntimed(s, i, m, op);
    ReaderExtends(s, m, op);
  }

  /** A step that leaves the listeners alone. */
  lemma FatedFrame(s: State, s': State, l: nat, p: Packet, i: nat)
    requires Fated(s, l, p, i) && s'.readers == s.readers && Extends(s, s') && s.lost <= s'.lost
    requires s.sessions[i].health.Flagging? ==> s'.sessions[i].health.Flagging? || s'.sessions[i].closed
    ensures Fated(s', l, p, i)
  {
    assert Successor(s.sessions[i], s'.sessions[i]);
  }

  lemma HealthFated(s: State, j: nat, op: HealthOp, l: nat, p: Packet, i: nat)
    requires Fated(s, l, p, i) && HealthStep(s, j, op).Some?
    ensures Fated(HealthStep(s, j, op).value, l, p, i)
  {
    HealthTouches(s, j, op);
    HealthSame(s, j, op);
    HealthLoses(s, j, op);
    FatedFrame(s, HealthStep(s, j, op).value, l, p, i);
  }

  lemma RemoteFated(s: State, j: nat, op: RemoteOp, l: nat, p: Packet, i: nat)
    requires Fated(s, l, p, i) && RemoteStep(s, j, op).Some?
    ensures Fated(RemoteStep(s, j, op).value, l, p, i)
  {
    RemoteTouches(s, j, op);
    RemoteSameLocks(s, j, op);
    RemoteLoses(s, j, op);
    FatedFrame(s, RemoteStep(s, j, op).value, l, p, i);
  }

  lemma ProcFated(s: State, j: nat, op: ProcOp, l: nat, p: Packet, i: nat)
    requires Fated(s, l, p, i) && ProcStep(s, j, op).Some?
    ensures Fated(ProcStep(s, j, op).value, l, p, i)
  {
    ProcTouches(s, j, op);
    ProcLoses(s, j, op);
    FatedFrame(s, ProcStep(s, j, op).value, l, p, i);
  }

  lemma StarterFated(s: State, k: nat, op: StarterOp, l: nat, p: Packet, i: nat)
    requires Fated(s, l, p, i) && StarterStep(s, k, op).Some?
    ensures Fated(StarterStep(s, k, op).value, l, p, i)
  {
    StarterExtends(s, k, op);
    StarterSameLocks(s, k, op);
    StarterUntimed(s, k, op, i);
    StarterLoses(s, k, op);
    FatedFrame(s, StarterStep(s, k, op).value, l, p, i);
  }

  lemma StepFated(s: State, a: Action, l: nat, p: Packet, i: nat)
    requires Fated(s, l, p, i) && SessionsOk(s) && Step(s, a).Some?
    ensures Fated(Step(s, a).value, l, p, i)
  {
    match a
    case AReader(m, op) =>
      if m == l {
        assert SessionOk(s.sessions[i], i, s.now);
        OwnStepFated(s, l, op, p, i);
      } else {
        OtherStepFated(s, m, op, l, p, i);
      }
    case AStarter(k, op) => StarterFated(s, k, op, l, p, i);
    case AProc(j, op) => ProcFated(s, j, op, l, p, i);
    case ARemote(j, op) => RemoteFated(s, j, op, l, p, i);
    case AHealth(j, op) => HealthFated(s, j, op, l, p, i);
    case AWorker(w, op) => FatedFrame(s, Step(s, a).value, l, p, i);
    case Tick(_) => FatedFrame(s, Step(s, a).value, l, p, i);
  }

  /** A packet in a listener's hand, or whose buffer is lost, is in no queue. */
  lemma FatedIsNotQueued(s: State, l: nat, p: Packet, i: nat)
    requires Fated(s, l, p, i) && OwnInv(s)
    ensures !Queued(s, p, i)
  {
    var b := p.buf;
    var bytes := Content(s, b);
    assert Weight(s, b, bytes) <= 1;
    if Queued(s, p, i) {
      var k :| 0 <= k < |s.sessions[i].queue| && s.sessions[i].queue[k] == p;
      SumRemove(s.sessions[i].queue, k, PacketW(b, bytes));
      SumRemove(s.sessions, i, SessionW(b, bytes));
      if b in s.lost {
        var f :| 0 <= f < |s.lost| && s.lost[f] == b;
        SumRemove(s.lost, f, BareW(b));
      } else {
        SumRemove(s.readers, l, ReaderW(b, bytes));
      }
    }
  }

  lemma FatedStays(s: State, l: nat, p: Packet, i: nat, more: seq<Action>)
    requires Inv(s) && Fated(s, l, p, i) && Legal(Step, s, more)
    ensures var s' := After(Step, s, more); Fated(s', l, p, i) && !Queued(s', p, i)
  {
    InvInductive();
    var inv := (t: State) => Inv(t) && Fated(t, l, p, i);
    forall t: State, a: Action | inv(t) && Step(t, a).Some? ensures inv(Step(t, a).value) {
      StepFated(t, a, l, p, i);
    }
    InvariantHolds(Step, inv, s, more);
    FatedIsNotQueued(After(Step, s, more), l, p, i);
  }

  /** Listener `l` has locked session `i`, saw it open and has `p` to send. */
  ghost predicate AboutToSend(s: State, l: nat, p: Packet, i: nat) {
    Inv(s) && s.panic.None? && l < |s.readers| && i < |s.sessions| && s.readers[l] == Sending(p, i)
  }

  lemma SendGoes(s: State, l: nat, p: Packet, i: nat)
    requires AboutToSend(s, l, p, i) && |s.sessions[i].queue| < INBOUND_QUEUE_SIZE
    ensures var step := Step(s, AReader(l, RSend)); step.Some? && Queued(step.value, p, i)
  {
    assert ReaderOk(s.sessions, l, s.readers[l]);
    var s' := Step(s, AReader(l, RSend)).value;
    assert s'.sessions[i].queue[|s.sessions[i].queue|] == p;
  }

  lemma DrainGoes(s: State, l: nat, p: Packet, i: nat)
    requires AboutToSend(s, l, p, i) && |s.sessions[i].queue| >= INBOUND_QUEUE_SIZE
    ensures var step := Step(s, AProc(i, ProcNext(s.sessions[i].proc)));
      && step.Some? && AboutToSend(step.value, l, p, i)
      && ProcLeft(step.value.sessions[i]) < ProcLeft(s.sessions[i])
  {
    assert SessionOk(s.sessions[i], i, s.now);
    assert ReaderOk(s.sessions, l, s.readers[l]);
    ProcNearer(s, i);
    ProcSameStart(s, i, ProcNext(s.sessions[i].proc));
    ProcLoses(s, i, ProcNext(s.sessions[i].proc));
    ProcFalls(s, i);
    InvInductive();
  }

  lemma WayToSend(s: State, l: nat, p: Packet, i: nat) returns (more: seq<Action>)
    requires AboutToSend(s, l, p, i)
    ensures Legal(Step, s, more) && Queued(After(Step, s, more), p, i)
    decreases ProcLeft(s.sessions[i])
  {
    if |s.sessions[i].queue| < INBOUND_QUEUE_SIZE {
      SendGoes(s, l, p, i);
      Cons(Step, s, AReader(l, RSend), []);
      more := [AReader(l, RSend)];
    } else {
      var a := AProc(i, ProcNext(s.sessions[i].proc));
      DrainGoes(s, l, p, i);
      var rest := WayToSend(Step(s, a).value, l, p, i);
      Cons(Step, s, a, rest);
      more := [a] + rest;
    }
  }

  lemma WayFromCheck(s: State, l: nat, p: Packet, i: nat) returns (more: seq<Action>)
    requires Inv(s) && s.panic.None? && l < |s.readers| && s.readers[l] == Checking(p, i)
    requires i < |s.sessions| && !s.sessions[i].closed
    ensures Legal(Step, s, more) && Queued(After(Step, s, more), p, i)
  {
    InvInductive();
    var s' := Step(s, AReader(l, RCheck)).value;
    assert s' == SetReader(s, l, Sending(p, i));
    var rest := WayToSend(s', l, p, i);
    Cons(Step, s, AReader(l, RCheck), rest);
    more := [AReader(l, RCheck)] + rest;
  }

  /** Unless the health check is about to set the flag, the mutex of an open session is free for its
      listener. */
  lemma LockIsFree(s: State, l: nat, p: Packet, i: nat)
    requires Inv(s) && HolderOk(s) && l < |s.readers| && s.readers[l] == Found(p, i)
    requires i < |s.sessions| && !s.sessions[i].closed && !s.sessions[i].health.Flagging?
    ensures s.sessions[i].mu.Free?
  {
    assert SessionOk(s.sessions[i], i, s.now);
    assert ReaderOk(s.sessions, l, s.readers[l]);
  }

  lemma WayFromFound(s: State, l: nat, p: Packet, i: nat) returns (more: seq<Action>)
    requires Inv(s) && HolderOk(s) && s.panic.None? && l < |s.readers| && s.readers[l] == Found(p, i)
    requires i < |s.sessions| && !s.sessions[i].closed && !s.sessions[i].health.Flagging?
    ensures Legal(Step, s, more) && Queued(After(Step, s, more), p, i)
  {
    LockIsFree(s, l, p, i);
    InvInductive();
    var s' := Step(s, AReader(l, RLock)).value;
    assert s'.readers[l] == Checking(p, i) && !s'.sessions[i].closed;
    var rest := WayFromCheck(s', l, p, i);
    Cons(Step, s, AReader(l, RLock), rest);
    more := [AReader(l, RLock)] + rest;
  }

  /** Listener `l` is still before the check with `p` in hand, or the buffer is lost. */
  predicate Drops(s: State, l: nat, p: Packet, i: nat) {
    (l < |s.readers| && (s.readers[l] == Found(p, i) || s.readers[l] == Checking(p, i))) || p.buf in s.lost
  }

  lemma FatedDrops(s: State, l: nat, p: Packet, i: nat)
    requires Inv(s) && Fated(s, l, p, i)
    ensures !CanBeQueued(s, p, i)
    ensures forall more :: Legal(Step, s, more) ==> Drops(After(Step, s, more), l, p, i)
  {
    forall more | Legal(Step, s, more)
      ensures Drops(After(Step, s, more), l, p, i) && !Queued(After(Step, s, more), p, i)
    {
      FatedStays(s, l, p, i, more);
    }
  }

  /** In every reachable state, for a listener that has found a session for its datagram: the datagram
      can still get into the session's queue if and only if the session is not flagged and its health
      check is not about to flag it.  Otherwise, in every continuation, the listener either is still at
      the lock or the check, or has lost the buffer. */
  lemma FoundIsQueuedIff(
    timeouts: seq<int>, cpus: nat, now: int, run: seq<Action>, s: State, l: nat, p: Packet, i: nat)
    requires Reaches(timeouts, cpus, now, run, s) && s.panic.None?
    requires l < |s.readers| && s.readers[l] == Found(p, i)
    ensures i < |s.sessions|
    ensures CanBeQueued(s, p, i) <==> !s.sessions[i].closed && !s.sessions[i].health.Flagging?
    ensures CanBeQueued(s, p, i) || forall more :: Legal(Step, s, more) ==> Drops(After(Step, s, more), l, p, i)
  {
    StartHolds(timeouts, cpus, now, run, s);
    assert ReaderOk(s.sessions, l, s.readers[l]);
    if !s.sessions[i].closed && !s.sessions[i].health.Flagging? {
      var more := WayFromFound(s, l, p, i);
    } else {
      FatedDrops(s, l, p, i);
    }
  }

  /** The same once it has locked the session. */
  lemma CheckedIsQueuedIff(
    timeouts: seq<int>, cpus: nat, now: int, run: seq<Action>, s: State, l: nat, p: Packet, i: nat)
    requires Reaches(timeouts, cpus, now, run, s) && s.panic.None?
    requires l < |s.readers| && s.readers[l] == Checking(p, i)
    ensures i < |s.sessions|
    ensures CanBeQueued(s, p, i) <==> !s.sessions[i].closed
    ensures CanBeQueued(s, p, i) || forall more :: Legal(Step, s, more) ==> Drops(After(Step, s, more), l, p, i)
  {
    StartHolds(timeouts, cpus, now, run, s);
    assert ReaderOk(s.sessions, l, s.readers[l]);
    if !s.sessions[i].closed {
      var more := WayFromCheck(s, l, p, i);
    } else {
      FatedDrops(s, l, p, i);
    }
  }

  // ---- A datagram in a starter's hand ----

  /** Starter `k` has `p` to send into a queue that is closed. */
  ghost predicate TooLate(s: State, k: nat, p: Packet, i: nat) {
    && k < |s.starters| && s.starters[k] == FirstSend(p, i)
    && i < |s.sessions| && s.sessions[i].queueClosed
  }

  lemma ReaderTooLate(s: State, l: nat, op: ReaderOp, k: nat, p: Packet, i: nat)
    requires TooLate(s, k, p, i) && ReaderStep(s, l, op).Some?
    ensures TooLate(ReaderStep(s, l, op).value, k, p, i)
  {
    ReaderExtends(s, l, op);
  }

  lemma StarterTooLate(s: State, j: nat, op: StarterOp, k: nat, p: Packet, i: nat)
    requires TooLate(s, k, p, i) && StarterStep(s, j, op).Some?
    ensures TooLate(StarterStep(s, j, op).value, k, p, i)
  {
    StarterExtends(s, j, op);
  }

  lemma StepTooLate(s: State, a: Action, k: nat, p: Packet, i: nat)
    requires TooLate(s, k, p, i) && Step(s, a).Some?
    ensures TooLate(Step(s, a).value, k, p, i)
  {
    StepExtends(s, a);
    match a
    case AReader(l, op) => ReaderTooLate(s, l, op, k, p, i);
    case AStarter(j, op) => StarterTooLate(s, j, op, k, p, i);
    case AProc(j, op) => ProcSameStart(s, j, op);
    case ARemote(j, op) => RemoteSameStarters(s, j, op);
    case AHealth(j, op) => HealthSame(s, j, op);
    case AWorker(w, op) =>
    case Tick(_) =>
  }

  lemma TooLateIsNotQueued(s: State, k: nat, p: Packet, i: nat)
    requires TooLate(s, k, p, i) && OwnInv(s)
    ensures !Queued(s, p, i)
  {
    var b := p.buf;
    var bytes := Content(s, b);
    assert Weight(s, b, bytes) <= 1;
    if Queued(s, p, i) {
      var j :| 0 <= j < |s.sessions[i].queue| && s.sessions[i].queue[j] == p;
      SumRemove(s.sessions[i].queue, j, PacketW(b, bytes));
      SumRemove(s.sessions, i, SessionW(b, bytes));
      SumRemove(s.starters, k, StarterW(b, bytes));
    }
  }

  lemma TooLateStays(s: State, k: nat, p: Packet, i: nat, more: seq<Action>)
    requires Inv(s) && TooLate(s, k, p, i) && Legal(Step, s, more)
    ensures !Queued(After(Step, s, more), p, i)
  {
    InvInductive();
    var inv := (t: State) => Inv(t) && TooLate(t, k, p, i);
    forall t: State, a: Action | inv(t) && Step(t, a).Some? ensures inv(Step(t, a).value) {
      StepTooLate(t, a, k, p, i);
    }
    InvariantHolds(Step, inv, s, more);
    TooLateIsNotQueued(After(Step, s, more), k, p, i);
  }

  ghost predicate FirstToSend(s: State, k: nat, p: Packet, i: nat) {
    && Inv(s) && s.panic.None? && k < |s.starters| && s.starters[k] == FirstSend(p, i)
    && i < |s.sessions| && !s.sessions[i].queueClosed
  }

  lemma FirstDrainGoes(s: State, k: nat, p: Packet, i: nat)
    requires FirstToSend(s, k, p, i) && |s.sessions[i].queue| >= INBOUND_QUEUE_SIZE
    ensures var step := Step(s, AProc(i, ProcNext(s.sessions[i].proc)));
      && step.Some? && FirstToSend(step.value, k, p, i)
      && ProcLeft(step.value.sessions[i]) < ProcLeft(s.sessions[i])
  {
    assert SessionOk(s.sessions[i], i, s.now);
    ProcNearer(s, i);
    ProcSameStart(s, i, ProcNext(s.sessions[i].proc));
    ProcKeepsQueueOpen(s, i, ProcNext(s.sessions[i].proc));
    ProcFalls(s, i);
    InvInductive();
  }

  lemma ProcKeepsQueueOpen(s: State, i: nat, op: ProcOp)
    requires ProcStep(s, i, op).Some?
    ensures ProcStep(s, i, op).value.sessions[i].queueClosed == s.sessions[i].queueClosed
  {
  }

  lemma FirstSendGoes(s: State, k: nat, p: Packet, i: nat)
    requires FirstToSend(s, k, p, i) && |s.sessions[i].queue| < INBOUND_QUEUE_SIZE
    ensures var step := Step(s, AStarter(k, SSend)); step.Some? && Queued(step.value, p, i)
  {
    var s' := Step(s, AStarter(k, SSend)).value;
    assert s'.sessions[i].queue[|s.sessions[i].queue|] == p;
  }

  lemma WayToFirstSend(s: State, k: nat, p: Packet, i: nat) returns (more: seq<Action>)
    requires FirstToSend(s, k, p, i)
    ensures Legal(Step, s, more) && Queued(After(Step, s, more), p, i)
    decreases ProcLeft(s.sessions[i])
  {
    if |s.sessions[i].queue| < INBOUND_QUEUE_SIZE {
      FirstSendGoes(s, k, p, i);
      Cons(Step, s, AStarter(k, SSend), []);
      more := [AStarter(k, SSend)];
    } else {
      var a := AProc(i, ProcNext(s.sessions[i].proc));
      FirstDrainGoes(s, k, p, i);
      var rest := WayToFirstSend(Step(s, a).value, k, p, i);
      Cons(Step, s, a, rest);
      more := [a] + rest;
    }
  }

  /** A first send can still get into the queue if and only if the queue is not closed; the flag does not
      matter, since nobody tests it on this path. */
  lemma FirstSendIsQueuedIff(
    timeouts: seq<int>, cpus: nat, now: int, run: seq<Action>, s: State, k: nat, p: Packet, i: nat)
    requires Reaches(timeouts, cpus, now, run, s) && s.panic.None?
    requires k < |s.starters| && s.starters[k] == FirstSend(p, i)
    ensures i < |s.sessions|
    ensures CanBeQueued(s, p, i) <==> !s.sessions[i].queueClosed
  {
    StartHolds(timeouts, cpus, now, run, s);
    assert StarterOk(s.sessions, s.starters[k]);
    if !s.sessions[i].queueClosed {
      var more := WayToFirstSend(s, k, p, i);
    } else {
      forall more | Legal(Step, s, more) ensures !Queued(After(Step, s, more), p, i) {
        TooLateStays(s, k, p, i, more);
      }
    }
  }

  // ---- A run that loses a buffer ----

  /** A datagram for a session that is in the table and flagged. */
  function Dropped(l: nat, src: Addr, data: seq<Byte>): seq<Action> {
    [AReader(l, RGet(Fresh)), AReader(l, RReceive(src, data))] + [AReader(l, RLoad), AReader(l, RLock)]
    + [AReader(l, RCheck)]
  }

  lemma ReceiveRuns(s: State, l: nat, src: Addr, data: seq<Byte>)
    requires s.panic.None? && l < |s.readers| && s.readers[l].Idle?
    ensures var run := [AReader(l, RGet(Fresh)), AReader(l, RReceive(src, data))];
      && Legal(Step, s, run)
      && var s' := After(Step, s, run);
      && s'.panic.None? && l < |s'.readers| && s'.readers[l].Received?
      && s'.readers[l].p.buf == |s.mem| && s'.readers[l].p.what.FromClient? && s'.readers[l].p.what.src == src
      && s'.sessions == s.sessions && s'.table == s.table && s'.lost == s.lost
  {
    var s1 := Step(s, AReader(l, RGet(Fresh))).value;
    var s2 := Step(s1, AReader(l, RReceive(src, data))).value;
    Twice(Step, s, AReader(l, RGet(Fresh)), s1, AReader(l, RReceive(src, data)), s2);
  }

  lemma LockRuns(s: State, l: nat, i: nat)
    requires s.panic.None? && l < |s.readers| && s.readers[l].Received? && s.readers[l].p.what.FromClient?
    requires var key := Key(l, s.readers[l].p.what.src); key in s.table && s.table[key] == i
    requires i < |s.sessions| && s.sessions[i].mu.Free?
    ensures var run := [AReader(l, RLoad), AReader(l, RLock)];
      && Legal(Step, s, run)
      && var s' := After(Step, s, run);
      && s'.panic.None? && l < |s'.readers| && s'.readers[l] == Checking(s.readers[l].p, i)
      && i < |s'.sessions| && s'.sessions[i].closed == s.sessions[i].closed && s'.lost == s.lost
  {
    var s1 := Step(s, AReader(l, RLoad)).value;
    var s2 := Step(s1, AReader(l, RLock)).value;
    Twice(Step, s, AReader(l, RLoad), s1, AReader(l, RLock), s2);
  }

  lemma DroppedRuns(s: State, l: nat, src: Addr, data: seq<Byte>)
    requires s.panic.None? && l < |s.readers| && s.readers[l].Idle? && Key(l, src) in s.table
    requires var i := s.table[Key(l, src)]; i < |s.sessions| && s.sessions[i].closed && s.sessions[i].mu.Free?
    ensures Legal(Step, s, Dropped(l, src, data))
    ensures After(Step, s, Dropped(l, src, data)).lost == s.lost + [|s.mem|]
  {
    var r1 := [AReader(l, RGet(Fresh)), AReader(l, RReceive(src, data))];
    var r2 := [AReader(l, RLoad), AReader(l, RLock)];
    ReceiveRuns(s, l, src, data);
    var s1 := After(Step, s, r1);
    LockRuns(s1, l, s.table[Key(l, src)]);
    var s2 := After(Step, s1, r2);
    Split(Step, s, r1, r2);
    EndedSessionDrops(s2, l);
    Cons(Step, s2, AReader(l, RCheck), []);
    Split(Step, s, r1 + r2, [AReader(l, RCheck)]);
  }

  /** For every configuration, listener, source and datagrams there is a run that loses a buffer. */
  lemma BufferLossIsReachable(
    timeouts: seq<int>, cpus: nat, now: int, l: nat, src: Addr, data: seq<Byte>, again: seq<Byte>)
    requires l < |timeouts|
    ensures var run := StoreAfterEnd(l, src, data, IdleTimeout(timeouts[l]) + 1) + Dropped(l, src, again);
      && Legal(Step, Init(timeouts, cpus, now), run)
      && After(Step, Init(timeouts, cpus, now), run).lost != []
  {
    var first := StoreAfterEnd(l, src, data, IdleTimeout(timeouts[l]) + 1);
    StoreAfterEndIsReachable(timeouts, cpus, now, l, src, data);
    DroppedRuns(After(Step, Init(timeouts, cpus, now), first), l, src, again);
    Split(Step, Init(timeouts, cpus, now), first, Dropped(l, src, again));
  }
}
