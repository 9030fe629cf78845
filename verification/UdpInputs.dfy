/** The UDP sessions of client/udp.go against their inputs: the datagrams that clients and remote ends
    have sent, and the passing of time, as the actions of the run say. */
module UdpInputs {
  import opened Bytes
  import opened Runs
  import opened Tally
  import opened UdpModel
  import opened UdpOwnership
  import opened UdpSessions
  import opened UdpResults

  // ---- Buffers have 64 KiB ----

  ghost predicate MemOk(s: State) {
    forall b :: 0 <= b < |s.mem| ==> |s.mem[b]| == 65536
  }

  lemma ReaderKeepsMem(s: State, l: nat, op: ReaderOp)
    requires ReaderStep(s, l, op).Some? && MemOk(s)
    ensures MemOk(ReaderStep(s, l, op).value)
  {
  }

  lemma RemoteKeepsMem(s: State, i: nat, op: RemoteOp)
    requires RemoteStep(s, i, op).Some? && MemOk(s)
    ensures MemOk(RemoteStep(s, i, op).value)
  {
  }

  lemma HealthKeepsMem(s: State, i: nat, op: HealthOp)
    requires HealthStep(s, i, op).Some?
    ensures HealthStep(s, i, op).value.mem == s.mem
  {
  }

  lemma StepKeepsMem(s: State, a: Action)
    requires Step(s, a).Some? && MemOk(s)
    ensures MemOk(Step(s, a).value)
  {
    match a
    case AReader(l, op) => ReaderKeepsMem(s, l, op);
    case ARemote(i, op) => RemoteKeepsMem(s, i, op);
    case AHealth(i, op) => HealthKeepsMem(s, i, op);
    case AStarter(k, op) =>
    case AProc(i, op) =>
    case AWorker(w, op) =>
    case Tick(_) =>
  }

  lemma MemInductive()
    ensures Inductive(Step, MemOk)
  {
    forall s, a | MemOk(s) && Step(s, a).Some? ensures MemOk(Step(s, a).value) {
      StepKeepsMem(s, a);
    }
  }

  // ---- From the remote end ----

  /** What an action adds to the replies of session `i`: a datagram, cut to the buffer. */
  function ReplyOf(i: nat, a: Action): seq<Datagram> {
    if a.ARemote? && a.i == i && a.mop.MReceive? then [FromRemote(i, Take(a.mop.data, 65536))] else []
  }

  function ReadBy(s: State, i: nat): seq<Datagram> {
    if i < |s.sessions| then s.sessions[i].log.read else []
  }

  lemma RemoteReads(s: State, j: nat, op: RemoteOp, i: nat)
    requires RemoteStep(s, j, op).Some? && MemOk(s)
    ensures ReadBy(RemoteStep(s, j, op).value, i) == ReadBy(s, i) + ReplyOf(i, ARemote(j, op))
  {
  }

  lemma ReaderReadsNothing(s: State, l: nat, op: ReaderOp, i: nat)
    requires ReaderStep(s, l, op).Some?
    ensures ReadBy(ReaderStep(s, l, op).value, i) == ReadBy(s, i)
  {
  }

  lemma HealthReadsNothing(s: State, j: nat, op: HealthOp, i: nat)
    requires HealthStep(s, j, op).Some?
    ensures ReadBy(HealthStep(s, j, op).value, i) == ReadBy(s, i)
  {
    HealthTouches(s, j, op);
    HealthSparesTraffic(s, j, op);
  }

  lemma ProcReadsNothing(s: State, j: nat, op: ProcOp, i: nat)
    requires ProcStep(s, j, op).Some?
    ensures ReadBy(ProcStep(s, j, op).value, i) == ReadBy(s, i)
  {
  }

  lemma StarterReadsNothing(s: State, k: nat, op: StarterOp, i: nat)
    requires StarterStep(s, k, op).Some?
    ensures ReadBy(StarterStep(s, k, op).value, i) == ReadBy(s, i)
  {
  }

  lemma StepReads(s: State, a: Action, i: nat)
    requires Step(s, a).Some? && MemOk(s)
    ensures ReadBy(Step(s, a).value, i) == ReadBy(s, i) + ReplyOf(i, a)
  {
    match a
    case AReader(l, op) => ReaderReadsNothing(s, l, op, i);
    case ARemote(j, op) => RemoteReads(s, j, op, i);
    case AHealth(j, op) => HealthReadsNothing(s, j, op, i);
    case AStarter(k, op) => StarterReadsNothing(s, k, op, i);
    case AProc(j, op) => ProcReadsNothing(s, j, op, i);
    case AWorker(w, op) =>
    case Tick(_) =>
  }

  /** What a session has read is what its remote end has sent, in order, each datagram cut to 65536
      bytes. */
  lemma ReadIsWhatWasSent(timeouts: seq<int>, cpus: nat, now: int, run: seq<Action>, s: State, i: nat)
    requires Reaches(timeouts, cpus, now, run, s) && i < |s.sessions|
    ensures s.sessions[i].log.read == Collect(run, a => ReplyOf(i, a))
  {
    MemInductive();
    forall t: State, a: Action | MemOk(t) && Step(t, a).Some?
      ensures ReadBy(Step(t, a).value, i) == ReadBy(t, i) + ReplyOf(i, a)
    {
      StepReads(t, a, i);
    }
    Recorded(Step, MemOk, (t: State) => ReadBy(t, i), a => ReplyOf(i, a), Init(timeouts, cpus, now), run);
  }

  // ---- From the clients ----

  /** The action receives datagram `d` on a listener. */
  predicate Receives(d: Datagram, a: Action) {
    a.AReader? && a.rop.RReceive? && FromClient(a.l, a.rop.src, Take(a.rop.data, 65536)) == d
  }

  function Same(d: Datagram, e: Datagram): nat {
    if d == e then 1 else 0
  }

  function ReaderHas(r: Reader, d: Datagram): nat {
    if r.Received? || r.Found? || r.Checking? || r.Sending? then Same(d, r.p.what) else 0
  }

  function StarterHas(r: Starter, d: Datagram): nat {
    if r.Finished? then 0 else Same(d, r.p.what)
  }

  ghost function ReaderH(d: Datagram): Reader -> nat { (r: Reader) => ReaderHas(r, d) }
  ghost function StarterH(d: Datagram): Starter -> nat { (r: Starter) => StarterHas(r, d) }
  ghost function IsH(d: Datagram): Datagram -> nat { (e: Datagram) => Same(d, e) }
  ghost function QueuedH(d: Datagram): Session -> nat { (x: Session) => Sum(x.log.enqueued, IsH(d)) }

  /** How often `d` is in a listener's or a starter's hand, was sent into a queue, or was given up. */
  ghost function Accounted(s: State, d: Datagram): nat {
    Sum(s.readers, ReaderH(d)) + Sum(s.starters, StarterH(d)) + Sum(s.sessions, QueuedH(d))
    + Sum(s.log.dropped, IsH(d))
  }

  /** Session `i` has become `x`. */
  lemma QueueMoves(s: State, s': State, i: nat, d: Datagram)
    requires i < |s.sessions| == |s'.sessions| && s'.sessions == s.sessions[i := s'.sessions[i]]
    ensures Sum(s'.sessions, QueuedH(d)) ==
            Sum(s.sessions, QueuedH(d)) - Sum(s.sessions[i].log.enqueued, IsH(d))
            + Sum(s'.sessions[i].log.enqueued, IsH(d))
  {
    SumUpdate(s.sessions, i, s'.sessions[i], QueuedH(d));
  }

  lemma ReaderSends(s: State, l: nat, d: Datagram)
    requires ReaderStep(s, l, RSend).Some? && !s.sessions[s.readers[l].sid].queueClosed
    ensures Accounted(ReaderStep(s, l, RSend).value, d) == Accounted(s, d)
  {
    var r := s.readers[l];
    var s' := ReaderStep(s, l, RSend).value;
    SumUpdate(s.readers, l, Releasing(r.sid), ReaderH(d));
    SumAppend(s.sessions[r.sid].log.enqueued, r.p.what, IsH(d));
    QueueMoves(s, s', r.sid, d);
  }

  lemma ReaderChecks(s: State, l: nat, d: Datagram)
    requires ReaderStep(s, l, RCheck).Some?
    ensures Accounted(ReaderStep(s, l, RCheck).value, d) == Accounted(s, d)
  {
    var r := s.readers[l];
    var s' := ReaderStep(s, l, RCheck).value;
    SumUpdate(s.readers, l, s'.readers[l], ReaderH(d));
    SumAppend(s.log.dropped, r.p.what, IsH(d));
  }

  lemma ReaderLoads(s: State, l: nat, d: Datagram)
    requires ReaderStep(s, l, RLoad).Some?
    ensures Accounted(ReaderStep(s, l, RLoad).value, d) == Accounted(s, d)
  {
    var s' := ReaderStep(s, l, RLoad).value;
    SumUpdate(s.readers, l, s'.readers[l], ReaderH(d));
    SumAppend(s.starters, Connecting(s.readers[l].p), StarterH(d));
  }

  /** Locking and unlocking. */
  lemma ReaderLocks(s: State, l: nat, op: ReaderOp, d: Datagram)
    requires ReaderStep(s, l, op).Some? && (op.RLock? || op.RUnlock?)
    ensures Accounted(ReaderStep(s, l, op).value, d) == Accounted(s, d)
  {
    var s' := ReaderStep(s, l, op).value;
    SumUpdate(s.readers, l, s'.readers[l], ReaderH(d));
    QueueMoves(s, s', s.readers[l].sid, d);
  }

  /** Getting a buffer, and reading into it. */
  lemma ReaderTakesIn(s: State, l: nat, op: ReaderOp, d: Datagram)
    requires ReaderStep(s, l, op).Some? && (op.RGet? || op.RReceive? || op.RError?) && MemOk(s)
    ensures Accounted(ReaderStep(s, l, op).value, d) == Accounted(s, d) + if Receives(d, AReader(l, op)) then 1 else 0
  {
    var s' := ReaderStep(s, l, op).value;
    SumUpdate(s.readers, l, s'.readers[l], ReaderH(d));
  }

  lemma ReaderAccounts(s: State, l: nat, op: ReaderOp, d: Datagram)
    requires ReaderStep(s, l, op).Some? && MemOk(s)
    ensures Accounted(ReaderStep(s, l, op).value, d) == Accounted(s, d) + if Receives(d, AReader(l, op)) then 1 else 0
  {
    match op
    case RSend =>
      if !s.sessions[s.readers[l].sid].queueClosed {
        ReaderSends(s, l, d);
      }
    case RCheck => ReaderChecks(s, l, d);
    case RLoad => ReaderLoads(s, l, d);
    case RLock => ReaderLocks(s, l, op, d);
    case RUnlock => ReaderLocks(s, l, op, d);
    case RGet(_) => ReaderTakesIn(s, l, op, d);
    case RReceive(_, _) => ReaderTakesIn(s, l, op, d);
    case RError => ReaderTakesIn(s, l, op, d);
  }

  lemma StarterConnects(s: State, k: nat, ok: bool, d: Datagram)
    requires StarterStep(s, k, SConnect(ok)).Some?
    ensures Accounted(StarterStep(s, k, SConnect(ok)).value, d) == Accounted(s, d)
  {
    var s' := StarterStep(s, k, SConnect(ok)).value;
    SumUpdate(s.starters, k, s'.starters[k], StarterH(d));
    if ok {
      SumAppend(s.sessions, s'.sessions[|s.sessions|], QueuedH(d));
    } else {
      SumAppend(s.log.dropped, s.starters[k].p.what, IsH(d));
    }
  }

  lemma StarterAccounts(s: State, k: nat, op: StarterOp, d: Datagram)
    requires StarterStep(s, k, op).Some?
    ensures Accounted(StarterStep(s, k, op).value, d) == Accounted(s, d)
  {
    var r := s.starters[k];
    var s' := StarterStep(s, k, op).value;
    if op.SConnect? {
      StarterConnects(s, k, op.ok, d);
    } else if op.SStore? || !s.sessions[r.sid].queueClosed {
      SumUpdate(s.starters, k, s'.starters[k], StarterH(d));
      SumAppend(s.sessions[r.sid].log.enqueued, r.p.what, IsH(d));
      QueueMoves(s, s', r.sid, d);
    }
  }

  /** The goroutines of a session do not receive from clients. */
  ghost predicate SameInbound(s: State, s': State) {
    && s'.readers == s.readers && s'.starters == s.starters && s'.log.dropped == s.log.dropped
    && |s'.sessions| == |s.sessions|
    && (forall i :: 0 <= i < |s.sessions| ==> s'.sessions[i].log.enqueued == s.sessions[i].log.enqueued)
  }

  lemma {:induction false} SameQueues(xs: seq<Session>, ys: seq<Session>, d: Datagram)
    requires |xs| == |ys| && forall i :: 0 <= i < |xs| ==> ys[i].log.enqueued == xs[i].log.enqueued
    ensures Sum(ys, QueuedH(d)) == Sum(xs, QueuedH(d))
  {
    if xs != [] {
      assert ys[0].log.enqueued == xs[0].log.enqueued;
      SameQueues(xs[1..], ys[1..], d);
    }
  }

  lemma ProcSameInbound(s: State, i: nat, op: ProcOp)
    requires ProcStep(s, i, op).Some?
    ensures SameInbound(s, ProcStep(s, i, op).value)
  {
  }

  lemma RemoteSameInbound(s: State, i: nat, op: RemoteOp)
    requires RemoteStep(s, i, op).Some?
    ensures SameInbound(s, RemoteStep(s, i, op).value)
  {
  }

  lemma HealthSameInbound(s: State, i: nat, op: HealthOp)
    requires HealthStep(s, i, op).Some?
    ensures SameInbound(s, HealthStep(s, i, op).value)
  {
  }

  lemma WorkerAccounts(s: State, w: nat, op: WorkerOp, d: Datagram)
    requires WorkerStep(s, w, op).Some?
    ensures Accounted(WorkerStep(s, w, op).value, d) == Accounted(s, d)
  {
  }

  /** A step that changes nothing of all that. */
  lemma SameAccounts(s: State, s': State, d: Datagram)
    requires SameInbound(s, s')
    ensures Accounted(s', d) == Accounted(s, d)
  {
    SameQueues(s.sessions, s'.sessions, d);
  }

  lemma StepAccounts(s: State, a: Action, d: Datagram)
    requires Step(s, a).Some? && MemOk(s)
    ensures Accounted(Step(s, a).value, d) == Accounted(s, d) + if Receives(d, a) then 1 else 0
  {
    match a
    case AReader(l, op) => ReaderAccounts(s, l, op, d);
    case AStarter(k, op) => StarterAccounts(s, k, op, d);
    case AProc(i, op) =>
      ProcSameInbound(s, i, op);
      SameAccounts(s, Step(s, a).value, d);
    case ARemote(i, op) =>
      RemoteSameInbound(s, i, op);
      SameAccounts(s, Step(s, a).value, d);
    case AHealth(i, op) =>
      HealthSameInbound(s, i, op);
      SameAccounts(s, Step(s, a).value, d);
    case AWorker(w, op) => WorkerAccounts(s, w, op, d);
    case Tick(_) =>
  }

  /** Datagrams from clients are conserved: each that was received, cut to 65536 bytes, is in the hand
      of a listener or a starter, was sent into a session's queue, or was given up, as often as it was
      received. */
  lemma ReceivedAreAccounted(timeouts: seq<int>, cpus: nat, now: int, run: seq<Action>, s: State, d: Datagram)
    requires Reaches(timeouts, cpus, now, run, s)
    ensures Sum(s.readers, ReaderH(d)) + Sum(s.starters, StarterH(d)) + Sum(s.sessions, QueuedH(d))
            + Sum(s.log.dropped, IsH(d)) == Count(run, a => Receives(d, a))
  {
    MemInductive();
    forall t: State, a: Action | MemOk(t) && Step(t, a).Some?
      ensures Accounted(Step(t, a).value, d) == Accounted(t, d) + if Receives(d, a) then 1 else 0
    {
      StepAccounts(t, a, d);
    }
    SumNothing(Init(timeouts, cpus, now).readers, ReaderH(d));
    Counted(Step, MemOk, a => Receives(d, a), (t: State) => Accounted(t, d), Init(timeouts, cpus, now), run);
    assert Accounted(s, d) == Count(run, a => Receives(d, a));
  }

  /** A datagram is given up because its session could not be opened, or with its buffer. */
  predicate FailsToOpen(a: Action) {
    a.AStarter? && a.sop == SConnect(false)
  }

  function GivenUp(s: State): int {
    |s.log.dropped| - |s.lost|
  }

  lemma ReaderGivesUp(s: State, l: nat, op: ReaderOp)
    requires ReaderStep(s, l, op).Some?
    ensures GivenUp(ReaderStep(s, l, op).value) == GivenUp(s)
  {
  }

  lemma RemoteGivesUp(s: State, i: nat, op: RemoteOp)
    requires RemoteStep(s, i, op).Some?
    ensures GivenUp(RemoteStep(s, i, op).value) == GivenUp(s)
  {
  }

  lemma HealthGivesUp(s: State, i: nat, op: HealthOp)
    requires HealthStep(s, i, op).Some?
    ensures GivenUp(HealthStep(s, i, op).value) == GivenUp(s)
  {
  }

  lemma StepGivesUp(s: State, a: Action)
    requires Step(s, a).Some?
    ensures GivenUp(Step(s, a).value) == GivenUp(s) + if FailsToOpen(a) then 1 else 0
  {
    match a
    case AReader(l, op) => ReaderGivesUp(s, l, op);
    case ARemote(i, op) => RemoteGivesUp(s, i, op);
    case AHealth(i, op) => HealthGivesUp(s, i, op);
    case AStarter(k, op) =>
    case AProc(i, op) =>
    case AWorker(w, op) =>
    case Tick(_) =>
  }

  lemma GivenUpForAReason(timeouts: seq<int>, cpus: nat, now: int, run: seq<Action>, s: State)
    requires Reaches(timeouts, cpus, now, run, s)
    ensures |s.log.dropped| == |s.lost| + Count(run, FailsToOpen)
  {
    forall t: State, a: Action | Step(t, a).Some?
      ensures GivenUp(Step(t, a).value) == GivenUp(t) + if FailsToOpen(a) then 1 else 0
    {
      StepGivesUp(t, a);
    }
    Counted(Step, (t: State) => true, FailsToOpen, GivenUp, Init(timeouts, cpus, now), run);
  }

  // ---- Time ----

  /** When the remote loop of session `i` last began a read, if the run starts at `now` and the last
      time before was `last`. */
  function LastStamp(now: int, last: int, run: seq<Action>, i: nat): int
    decreases |run|
  {
    if run == [] then last
    else
      match run[0]
      case Tick(dt) => LastStamp(now + dt, last, run[1..], i)
      case _ => LastStamp(now, if run[0] == ARemote(i, MStamp) then now else last, run[1..], i)
  }

  function Elapsed(run: seq<Action>): nat {
    if run == [] then 0 else (if run[0].Tick? then run[0].dt else 0) + Elapsed(run[1..])
  }

  lemma RemoteStamps(s: State, j: nat, op: RemoteOp, i: nat)
    requires RemoteStep(s, j, op).Some? && i < |s.sessions|
    ensures var s' := RemoteStep(s, j, op).value;
      && i < |s'.sessions| && s'.now == s.now && s'.sessions[i].created == s.sessions[i].created
      && s'.sessions[i].lastRecv == if j == i && op == MStamp then s.now else s.sessions[i].lastRecv
  {
  }

  lemma HealthStamps(s: State, j: nat, op: HealthOp, i: nat)
    requires HealthStep(s, j, op).Some? && i < |s.sessions|
    ensures var s' := HealthStep(s, j, op).value;
      && i < |s'.sessions| && s'.now == s.now && s'.sessions[i].created == s.sessions[i].created
      && s'.sessions[i].lastRecv == s.sessions[i].lastRecv
  {
  }

  lemma StarterStamps(s: State, k: nat, op: StarterOp, i: nat)
    requires StarterStep(s, k, op).Some? && i < |s.sessions|
    ensures Untimed(s, StarterStep(s, k, op).value, i)
  {
  }

  lemma WorkerStamps(s: State, w: nat, op: WorkerOp, i: nat)
    requires WorkerStep(s, w, op).Some?
    ensures Untimed(s, WorkerStep(s, w, op).value, i)
  {
  }

  lemma StepStamps(s: State, a: Action, i: nat)
    requires Step(s, a).Some? && i < |s.sessions|
    ensures var s' := Step(s, a).value;
      && i < |s'.sessions| && s'.sessions[i].created == s.sessions[i].created
      && s'.now == s.now + (if a.Tick? then a.dt else 0)
      && s'.sessions[i].lastRecv == if a == ARemote(i, MStamp) then s.now else s.sessions[i].lastRecv
  {
    StepExtends(s, a);
    match a
    case AReader(l, op) => ReaderUntimed(s, i, l, op);
    case AStarter(k, op) => StarterStamps(s, k, op, i);
    case AProc(j, op) => ProcUntimed(s, i, j, op);
    case ARemote(j, op) => RemoteStamps(s, j, op, i);
    case AHealth(j, op) => HealthStamps(s, j, op, i);
    case AWorker(w, op) => WorkerStamps(s, w, op, i);
    case Tick(_) =>
  }

  /** The stamp that the health check compares with is the time at which the remote loop last began a
      read, and the clock is the sum of the ticks. */
  lemma {:induction false} StampIsLastRead(s: State, more: seq<Action>, i: nat)
    requires Legal(Step, s, more) && i < |s.sessions|
    ensures var s' := After(Step, s, more);
      && s'.now == s.now + Elapsed(more)
      && i < |s'.sessions| && s'.sessions[i].created == s.sessions[i].created
      && s'.sessions[i].lastRecv == LastStamp(s.now, s.sessions[i].lastRecv, more, i)
    decreases |more|
  {
    if more != [] {
      StepStamps(s, more[0], i);
      StampIsLastRead(Step(s, more[0]).value, more[1..], i);
    }
  }

  /** A session is created, and first stamped, when its connection is made; it belongs to the source
      and the listener of the datagram it was opened for, and has that listener's timeout. */
  lemma SessionsStartNow(s: State, k: nat, more: seq<Action>)
    requires Step(s, AStarter(k, SConnect(true))).Some? && Legal(Step, s, [AStarter(k, SConnect(true))] + more)
    ensures var s' := After(Step, s, [AStarter(k, SConnect(true))] + more); var i := |s.sessions|;
      && i < |s'.sessions| && s'.sessions[i].created == s.now
      && s'.sessions[i].lastRecv == LastStamp(s.now, s.now, more, i)
      && var d := s.starters[k].p.what;
      && d.FromClient? && KeyOf(s'.sessions[i]) == Key(d.listener, d.src)
      && d.listener < |s.timeouts|
      && s'.sessions[i].idle ==
         (if s.timeouts[d.listener] < 1 then 30 else s.timeouts[d.listener]) * 1_000_000_000
  {
    var a := AStarter(k, SConnect(true));
    var s1 := Step(s, a).value;
    assert ([a] + more)[1..] == more;
    Cons(Step, s, a, more);
    StampIsLastRead(s1, more, |s.sessions|);
    SessionsOnlyAdvance(s1, more);
    assert Successor(s1.sessions[|s.sessions|], After(Step, s1, more).sessions[|s.sessions|]);
  }

  /** A poll of session `i`. */
  predicate IsPoll(i: nat, a: Action) {
    a == AHealth(i, HPoll)
  }

  ghost function PollP(i: nat): Action -> bool { a => IsPoll(i, a) }

  /** When the next poll of a session can come at the earliest. */
  function NextPoll(now: int, h: Health): int {
    if h.Sleeping? && h.until > now then h.until else now
  }

  lemma PollSets(s: State, i: nat)
    requires HealthStep(s, i, HPoll).Some?
    ensures var h := s.sessions[i].health; var h' := HealthStep(s, i, HPoll).value.sessions[i].health;
      h.Polling? && (h' == Locking || h' == Sleeping(s.now + s.sessions[i].idle))
  {
  }

  lemma WakeSets(s: State, i: nat)
    requires HealthStep(s, i, HWake).Some?
    ensures var h := s.sessions[i].health; var h' := HealthStep(s, i, HWake).value.sessions[i].health;
      h.Sleeping? && h.until <= s.now && h'.Polling?
  {
  }

  lemma ReapGoesOn(s: State, i: nat, op: HealthOp)
    requires HealthStep(s, i, op).Some? && !op.HPoll? && !op.HWake?
    ensures s.sessions[i].health.Reaping() && HealthStep(s, i, op).value.sessions[i].health.Reaping()
  {
  }

  /** What an operation of the health check makes of its own state. */
  lemma OwnPolls(s: State, i: nat, op: HealthOp)
    requires HealthStep(s, i, op).Some?
    ensures var h := s.sessions[i].health; var h' := HealthStep(s, i, op).value.sessions[i].health;
      && (h.Reaping() ==> h'.Reaping() && !op.HPoll?)
      && (!h'.Reaping() && !op.HPoll? ==> NextPoll(s.now, h') == NextPoll(s.now, h))
      && (op.HPoll? ==> h.Polling? && (h'.Reaping() || h' == Sleeping(s.now + s.sessions[i].idle)))
  {
    if op.HPoll? {
      PollSets(s, i);
    } else if op.HWake? {
      WakeSets(s, i);
    } else {
      ReapGoesOn(s, i, op);
    }
  }

  lemma HealthPolls(s: State, j: nat, op: HealthOp, i: nat)
    requires HealthStep(s, j, op).Some? && i < |s.sessions|
    ensures var s' := HealthStep(s, j, op).value; var h := s.sessions[i].health; var h' := s'.sessions[i].health;
      && (h.Reaping() ==> h'.Reaping() && !IsPoll(i, AHealth(j, op)))
      && (!h'.Reaping() && !IsPoll(i, AHealth(j, op)) ==> NextPoll(s.now, h') == NextPoll(s.now, h))
      && (IsPoll(i, AHealth(j, op)) ==>
            h.Polling? && (h'.Reaping() || NextPoll(s.now, h') == s.now + s.sessions[i].idle))
  {
    HealthTouches(s, j, op);
    OwnPolls(s, j, op);
  }

  lemma StepPolls(s: State, a: Action, i: nat)
    requires Step(s, a).Some? && i < |s.sessions|
    ensures var s' := Step(s, a).value;
      && i < |s'.sessions| && s'.sessions[i].idle == s.sessions[i].idle
      && var h := s.sessions[i].health; var h' := s'.sessions[i].health;
      && s.now <= s'.now
      && (h.Reaping() ==> h'.Reaping() && !IsPoll(i, a))
      && (!h'.Reaping() && !IsPoll(i, a) ==> NextPoll(s'.now, h') >= NextPoll(s.now, h))
      && (IsPoll(i, a) ==>
            h.Polling? && s'.now == s.now && (h'.Reaping() || NextPoll(s'.now, h') == s.now + s.sessions[i].idle))
  {
    StepExtends(s, a);
    assert Successor(s.sessions[i], Step(s, a).value.sessions[i]);
    match a
    case AReader(l, op) => ReaderUntimed(s, i, l, op);
    case AStarter(k, op) => StarterStamps(s, k, op, i);
    case AProc(j, op) => ProcUntimed(s, i, j, op);
    case ARemote(j, op) => RemotePolls(s, j, op, i);
    case AHealth(j, op) => HealthPolls(s, j, op, i);
    case AWorker(w, op) => WorkerStamps(s, w, op, i);
    case Tick(_) =>
  }

  lemma RemotePolls(s: State, j: nat, op: RemoteOp, i: nat)
    requires RemoteStep(s, j, op).Some? && i < |s.sessions|
    ensures var s' := RemoteStep(s, j, op).value; s'.now == s.now && s'.sessions[i].health == s.sessions[i].health
  {
  }

  /** The earliest time of the `n`-th of polls that start at `first` and are `idle` apart. */
  function Apart(first: int, idle: nat, n: nat): int
    decreases n
  {
    if n <= 1 then first else Apart(first + idle, idle, n - 1)
  }

  lemma {:induction false} ApartIs(first: int, idle: nat, n: nat)
    requires n > 0
    ensures Apart(first, idle, n) == first + (n - 1) * idle
    decreases n
  {
    if n > 1 {
      ApartIs(first + idle, idle, n - 1);
    }
  }

  lemma {:induction false} ApartMonotone(first: int, later: int, idle: nat, n: nat)
    requires first <= later
    ensures Apart(first, idle, n) <= Apart(later, idle, n)
    decreases n
  {
    if n > 1 {
      ApartMonotone(first + idle, later + idle, idle, n - 1);
    }
  }

  /** One step earlier: a poll at `first`, or no poll and a later start. */
  lemma OneMorePoll(first: int, next: int, idle: nat, n: nat, poll: bool, end: int)
    requires n > 0 ==> Apart(next, idle, n) <= end
    requires if poll then first <= end && (n > 0 ==> next == first + idle) else n > 0 ==> first <= next
    ensures n > 0 || poll ==> Apart(first, idle, n + if poll then 1 else 0) <= end
  {
    if !poll && n > 0 {
      ApartMonotone(first, next, idle, n);
    }
  }

  /** Polls are at least one timeout apart: the last of `n` polls does not come before `n - 1` timeouts have
      passed since the first could come. */
  lemma {:induction false} PollsAreSpaced(s: State, more: seq<Action>, i: nat)
    requires Legal(Step, s, more) && i < |s.sessions|
    ensures var n := Count(more, PollP(i)); var s' := After(Step, s, more);
      && s.now <= s'.now
      && (n > 0 ==>
            && !s.sessions[i].health.Reaping()
            && Apart(NextPoll(s.now, s.sessions[i].health), s.sessions[i].idle, n) <= s'.now)
    decreases |more|
  {
    if more != [] {
      var s1 := Step(s, more[0]).value;
      StepPolls(s, more[0], i);
      PollsAreSpaced(s1, more[1..], i);
      OneMorePoll(NextPoll(s.now, s.sessions[i].health), NextPoll(s1.now, s1.sessions[i].health), s.sessions[i].idle,
                  Count(more[1..], PollP(i)), IsPoll(i, more[0]), After(Step, s, more).now);
    }
  }

  // ---- Capacities ----

  ghost predicate QueuesOk(s: State) {
    |s.outbound| <= 65536 && forall i :: 0 <= i < |s.sessions| ==> |s.sessions[i].queue| <= 1024
  }

  lemma ReaderKeepsQueues(s: State, l: nat, op: ReaderOp)
    requires ReaderStep(s, l, op).Some? && QueuesOk(s)
    ensures QueuesOk(ReaderStep(s, l, op).value)
  {
  }

  lemma ProcKeepsQueues(s: State, i: nat, op: ProcOp)
    requires ProcStep(s, i, op).Some? && QueuesOk(s)
    ensures QueuesOk(ProcStep(s, i, op).value)
  {
  }

  lemma RemoteKeepsQueues(s: State, i: nat, op: RemoteOp)
    requires RemoteStep(s, i, op).Some? && QueuesOk(s)
    ensures QueuesOk(RemoteStep(s, i, op).value)
  {
  }

  lemma HealthKeepsQueues(s: State, i: nat, op: HealthOp)
    requires HealthStep(s, i, op).Some? && QueuesOk(s)
    ensures QueuesOk(HealthStep(s, i, op).value)
  {
  }

  lemma StarterKeepsQueues(s: State, k: nat, op: StarterOp)
    requires StarterStep(s, k, op).Some? && QueuesOk(s)
    ensures QueuesOk(StarterStep(s, k, op).value)
  {
  }

  lemma StepKeepsQueues(s: State, a: Action)
    requires Step(s, a).Some? && QueuesOk(s)
    ensures QueuesOk(Step(s, a).value)
  {
    match a
    case AReader(l, op) => ReaderKeepsQueues(s, l, op);
    case AStarter(k, op) => StarterKeepsQueues(s, k, op);
    case AProc(i, op) => ProcKeepsQueues(s, i, op);
    case ARemote(i, op) => RemoteKeepsQueues(s, i, op);
    case AHealth(i, op) => HealthKeepsQueues(s, i, op);
    case AWorker(w, op) =>
    case Tick(_) =>
  }

  /** The queues hold up to 1024 and 65536 datagrams, and a listener that has seen its session open, or
      a session with a reply, waits exactly while its queue is full. */
  lemma SendersWaitIffFull(timeouts: seq<int>, cpus: nat, now: int, run: seq<Action>, s: State)
    requires Reaches(timeouts, cpus, now, run, s) && s.panic.None?
    ensures |s.outbound| <= 65536
    ensures forall i :: 0 <= i < |s.sessions| ==>
      && |s.sessions[i].queue| <= 1024
      && (s.sessions[i].remote.Pushing? ==> (Step(s, ARemote(i, MPush)).None? <==> |s.outbound| == 65536))
    ensures forall l :: 0 <= l < |s.readers| && s.readers[l].Sending? ==>
      && s.readers[l].sid < |s.sessions|
      && (Step(s, AReader(l, RSend)).None? <==> |s.sessions[s.readers[l].sid].queue| == 1024)
  {
    forall t: State, a: Action | QueuesOk(t) && Step(t, a).Some? ensures QueuesOk(Step(t, a).value) {
      StepKeepsQueues(t, a);
    }
    InvariantHolds(Step, QueuesOk, Init(timeouts, cpus, now), run);
    ReachedHolds(timeouts, cpus, now, run, s);
    assert forall l :: 0 <= l < |s.readers| ==> ReaderOk(s.sessions, l, s.readers[l]);
  }

  // ---- The table ----

  /** Steps that neither store nor delete. */
  function TablelessStep(s: State, a: Action): Option<State> {
    if (a.AStarter? && a.sop.SStore?) || (a.ARemote? && a.mop.MUnlist?) || (a.AHealth? && a.hop.HRemove?) then None
    else Step(s, a)
  }

  lemma ReaderTableless(s: State, l: nat, op: ReaderOp)
    requires ReaderStep(s, l, op).Some?
    ensures ReaderStep(s, l, op).value.table == s.table
  {
  }

  lemma RemoteTableless(s: State, i: nat, op: RemoteOp)
    requires RemoteStep(s, i, op).Some? && !op.MUnlist?
    ensures RemoteStep(s, i, op).value.table == s.table
  {
  }

  lemma HealthTableless(s: State, i: nat, op: HealthOp)
    requires HealthStep(s, i, op).Some? && !op.HRemove?
    ensures HealthStep(s, i, op).value.table == s.table
  {
  }

  lemma TablelessKeeps(s: State, a: Action)
    requires TablelessStep(s, a).Some?
    ensures TablelessStep(s, a).value.table == s.table
  {
    match a
    case AReader(l, op) => ReaderTableless(s, l, op);
    case ARemote(i, op) => RemoteTableless(s, i, op);
    case AHealth(i, op) => HealthTableless(s, i, op);
    case AStarter(k, op) =>
    case AProc(i, op) =>
    case AWorker(w, op) =>
    case Tick(_) =>
  }

  /** The session stored last is the one that is found: until the table changes again, a listener that
      looks the key up gets that session. */
  lemma LastStoreIsFound(s: State, k: nat, more: seq<Action>, l: nat)
    requires Step(s, AStarter(k, SStore)).Some?
    requires Legal(TablelessStep, Step(s, AStarter(k, SStore)).value, more)
    ensures var s' := After(TablelessStep, Step(s, AStarter(k, SStore)).value, more);
      var i := s.starters[k].sid; var key := KeyOf(s.sessions[i]);
      && key in s'.table && s'.table[key] == i
      && (s'.panic.None? && l < |s'.readers| && s'.readers[l].Received? && s'.readers[l].p.what.FromClient?
          && Key(l, s'.readers[l].p.what.src) == key ==>
            Step(s', AReader(l, RLoad)) == Some(SetReader(s', l, Found(s'.readers[l].p, i))))
  {
    var s1 := Step(s, AStarter(k, SStore)).value;
    forall t: State, a: Action | t.table == s1.table && TablelessStep(t, a).Some?
      ensures TablelessStep(t, a).value.table == s1.table
    {
      TablelessKeeps(t, a);
    }
    InvariantHolds(TablelessStep, (t: State) => t.table == s1.table, s1, more);
  }
}
