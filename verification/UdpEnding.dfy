/** Every session of client/udp.go can come to its end: all three goroutines return, and everything that was
    sent into its queue has been written to the remote end. */
module UdpEnding {
  import opened Bytes
  import opened Runs
  import opened Tally
  import opened UdpModel
  import opened UdpOwnership
  import opened UdpSessions
  import opened UdpResults
  import opened UdpStarts
  import opened UdpStranded

  // ---- processInboundQueue ----

  /** What the inbound goroutine does next once the queue is closed. */
  function DrainNext(x: Session): ProcOp {
    match x.proc
    case Writing(_) => PWrite
    case Recycling(_) => PPut
    case _ => if x.queue == [] then PExit else PTake
  }

  function DrainLeft(x: Session): nat {
    match x.proc
    case Writing(_) => 3 * |x.queue| + 3
    case Recycling(_) => 3 * |x.queue| + 2
    case Waiting => 3 * |x.queue| + 1
    case Drained => 0
  }

  /** Nothing but the inbound goroutine has changed. */
  predicate OnlyProc(s: State, s': State, i: nat) {
    && i < |s.sessions| && i < |s'.sessions| && s'.panic == s.panic && s'.workers == s.workers
    && s'.sessions[i].health == s.sessions[i].health && s'.sessions[i].remote == s.sessions[i].remote
    && s'.sessions[i].closed == s.sessions[i].closed && s'.sessions[i].queueClosed == s.sessions[i].queueClosed
  }

  lemma DrainGoes(s: State, i: nat)
    requires i < |s.sessions| && s.sessions[i].queueClosed && !s.sessions[i].proc.Drained?
    ensures ProcStep(s, i, DrainNext(s.sessions[i])).Some?
  {
  }

  lemma ProcOnly(s: State, i: nat, op: ProcOp)
    requires ProcStep(s, i, op).Some?
    ensures OnlyProc(s, ProcStep(s, i, op).value, i)
  {
  }

  lemma TakeFalls(s: State, i: nat)
    requires i < |s.sessions| && s.sessions[i].proc.Waiting? && s.sessions[i].queue != []
    ensures var x' := ProcStep(s, i, PTake).value.sessions[i];
      x'.proc.Writing? && |x'.queue| == |s.sessions[i].queue| - 1
  {
  }

  lemma OthersFall(s: State, i: nat, op: ProcOp)
    requires ProcStep(s, i, op).Some? && !op.PTake?
    ensures var x, x' := s.sessions[i], ProcStep(s, i, op).value.sessions[i];
      && x'.queue == x.queue
      && match op case PWrite => x'.proc.Recycling? case PPut => x'.proc.Waiting? case _ => x'.proc.Drained?
  {
  }

  lemma DrainFalls(s: State, i: nat)
    requires i < |s.sessions| && ProcStep(s, i, DrainNext(s.sessions[i])).Some? && !s.sessions[i].proc.Drained?
    ensures var s' := ProcStep(s, i, DrainNext(s.sessions[i])).value;
      i < |s'.sessions| && DrainLeft(s'.sessions[i]) < DrainLeft(s.sessions[i])
  {
    ProcTouches(s, i, DrainNext(s.sessions[i]));
    if DrainNext(s.sessions[i]).PTake? {
      TakeFalls(s, i);
    } else {
      OthersFall(s, i, DrainNext(s.sessions[i]));
    }
  }

  lemma WayToDrain(s: State, i: nat) returns (more: seq<Action>)
    requires i < |s.sessions| && s.sessions[i].queueClosed && s.panic.None?
    ensures Legal(Step, s, more)
    ensures var s' := After(Step, s, more); OnlyProc(s, s', i) && s'.sessions[i].proc.Drained?
    decreases DrainLeft(s.sessions[i])
  {
    if s.sessions[i].proc.Drained? {
      more := [];
    } else {
      var op := DrainNext(s.sessions[i]);
      DrainGoes(s, i);
      ProcOnly(s, i, op);
      DrainFalls(s, i);
      var rest := WayToDrain(ProcStep(s, i, op).value, i);
      Cons(Step, s, AProc(i, op), rest);
      more := [AProc(i, op)] + rest;
    }
  }

  // ---- handleRemote ----

  function EndNext(r: Remote): RemoteOp {
    match r
    case Looping => MCheck
    case Getting => MGet(Fresh)
    case Stamping(_) => MStamp
    case Reading(_, _) => MError
    case Pushing(_) => MPush
    case Marking(_) => MMark
    case Unlisting(_) => MUnlist
    case HangingUp(_) => MHangUp
    case _ => MReturn
  }

  function EndLeft(r: Remote): nat {
    match r
    case Getting => 7
    case Stamping(_) => 6
    case Reading(_, _) => 5
    case Marking(_) => 4
    case Unlisting(_) => 3
    case HangingUp(_) => 2
    case Returning(_) => 1
    case Pushing(_) => 2
    case Looping => 1
    case Gone => 0
  }

  /** Nothing but the remote loop has changed. */
  predicate OnlyRemote(s: State, s': State, i: nat) {
    && i < |s.sessions| && i < |s'.sessions| && s'.panic == s.panic && s'.workers == s.workers
    && s'.sessions[i].health == s.sessions[i].health && s'.sessions[i].proc == s.sessions[i].proc
    && s'.sessions[i].closed && s'.sessions[i].queueClosed == s.sessions[i].queueClosed
  }

  lemma RemoteOnly(s: State, i: nat, op: RemoteOp)
    requires RemoteStep(s, i, op).Some? && s.sessions[i].closed
    ensures OnlyRemote(s, RemoteStep(s, i, op).value, i)
  {
  }

  lemma EndGoes(s: State, i: nat)
    requires i < |s.sessions| && s.sessions[i].closed && !s.sessions[i].remote.Gone?
    requires s.sessions[i].remote.Pushing? ==> |s.outbound| < OUTBOUND_QUEUE_SIZE
    ensures RemoteStep(s, i, EndNext(s.sessions[i].remote)).Some?
  {
  }

  lemma LateFalls(s: State, i: nat)
    requires i < |s.sessions|
    requires var r := s.sessions[i].remote; r.Unlisting? || r.HangingUp? || r.Returning?
    requires RemoteStep(s, i, EndNext(s.sessions[i].remote)).Some?
    ensures var r := s.sessions[i].remote; var r' := RemoteStep(s, i, EndNext(r)).value.sessions[i].remote;
      if r.Unlisting? then r'.HangingUp? else if r.HangingUp? then r'.Returning? else r'.Gone?
  {
  }

  lemma LoopFalls(s: State, i: nat)
    requires i < |s.sessions| && s.sessions[i].closed && s.sessions[i].remote.Looping?
    ensures RemoteStep(s, i, MCheck).value.sessions[i].remote.Gone?
  {
  }

  lemma PushFalls(s: State, i: nat)
    requires i < |s.sessions| && s.sessions[i].remote.Pushing? && RemoteStep(s, i, MPush).Some?
    ensures RemoteStep(s, i, MPush).value.sessions[i].remote.Looping?
  {
  }

  lemma EndFalls(s: State, i: nat)
    requires i < |s.sessions| && s.sessions[i].closed && !s.sessions[i].remote.Gone?
    requires RemoteStep(s, i, EndNext(s.sessions[i].remote)).Some?
    ensures var s' := RemoteStep(s, i, EndNext(s.sessions[i].remote)).value;
      i < |s'.sessions| && EndLeft(s'.sessions[i].remote) < EndLeft(s.sessions[i].remote)
  {
    var r := s.sessions[i].remote;
    RemoteTouches(s, i, EndNext(r));
    if r.Getting? {
      GetGoes(s, i);
    } else if r.Stamping? {
      StampGoes(s, i);
    } else if r.Reading? {
      ErrorGoes(s, i);
    } else if r.Marking? {
      MarkGoes(s, i);
    } else if r.Looping? {
      LoopFalls(s, i);
    } else if r.Pushing? {
      PushFalls(s, i);
    } else {
      LateFalls(s, i);
    }
  }

  function WorkLeft(r: Worker): nat {
    match r
    case Replying(_) => 2
    case Tidying(_) => 1
    case Resting => 0
  }

  function WorkNext(r: Worker): WorkerOp {
    match r
    case Replying(_) => WWrite
    case Tidying(_) => WPut
    case Resting => WTake
  }

  lemma WorkGoes(s: State)
    requires s.workers != [] && s.outbound != []
    ensures var step := WorkerStep(s, 0, WorkNext(s.workers[0]));
      && step.Some? && step.value.sessions == s.sessions && step.value.panic == s.panic
      && |step.value.workers| == |s.workers|
      && 3 * |step.value.outbound| + WorkLeft(step.value.workers[0]) < 3 * |s.outbound| + WorkLeft(s.workers[0])
  {
  }

  /** The remote loop of a flagged session can return; a worker makes room in the outbound queue if
      there is a reply to push. */
  lemma WayToReturn(s: State, i: nat) returns (more: seq<Action>)
    requires i < |s.sessions| && s.sessions[i].closed && s.panic.None? && s.workers != []
    ensures Legal(Step, s, more)
    ensures var s' := After(Step, s, more);
      && s'.panic.None? && i < |s'.sessions| && s'.sessions[i].remote.Gone?
      && s'.sessions[i].health == s.sessions[i].health && s'.sessions[i].proc == s.sessions[i].proc
    decreases EndLeft(s.sessions[i].remote), 3 * |s.outbound| + WorkLeft(s.workers[0])
  {
    var r := s.sessions[i].remote;
    if r.Gone? {
      more := [];
    } else {
      var a;
      if r.Pushing? && |s.outbound| >= OUTBOUND_QUEUE_SIZE {
        WorkGoes(s);
        a := AWorker(0, WorkNext(s.workers[0]));
      } else {
        EndGoes(s, i);
        EndFalls(s, i);
        RemoteOnly(s, i, EndNext(r));
        a := ARemote(i, EndNext(r));
      }
      var rest := WayToReturn(Step(s, a).value, i);
      Cons(Step, s, a, rest);
      more := [a] + rest;
    }
  }

  // ---- healthCheck ----

  lemma WayToOver(s: State, i: nat) returns (more: seq<Action>)
    requires i < |s.sessions| && s.sessions[i].health.HasClosed() && s.panic.None?
    ensures Legal(Step, s, more)
    ensures var s' := After(Step, s, more);
      && s'.panic.None? && i < |s'.sessions| && s'.sessions[i].health.Over? && s'.workers == s.workers
    decreases RemoveLeft(s.sessions[i].health), s.sessions[i].health.Removing?
  {
    if s.sessions[i].health.Over? {
      more := [];
    } else {
      var a := AHealth(i, RemoveNext(s.sessions[i].health));
      RemoveGoes(s, i);
      RemoveKeepsWorkers(s, i);
      var rest := WayToOver(Step(s, a).value, i);
      Cons(Step, s, a, rest);
      more := [a] + rest;
    }
  }

  lemma RemoveKeepsWorkers(s: State, i: nat)
    requires i < |s.sessions| && s.sessions[i].health.HasClosed() && !s.sessions[i].health.Over?
    ensures var step := HealthStep(s, i, RemoveNext(s.sessions[i].health));
      && step.Some? && step.value.workers == s.workers
      && (s.sessions[i].health.Removing? ==> step.value.sessions[i].health.Over?)
  {
  }

  // ---- Together ----

  lemma {:induction false} WorkersStay(s: State, run: seq<Action>)
    requires Legal(Step, s, run)
    ensures |After(Step, s, run).workers| == |s.workers|
    decreases |run|
  {
    if run != [] {
      WorkerCount(s, run[0]);
      WorkersStay(Step(s, run[0]).value, run[1..]);
    }
  }

  lemma WorkerCount(s: State, a: Action)
    requires Step(s, a).Some?
    ensures |Step(s, a).value.workers| == |s.workers|
  {
  }

  /** All three goroutines of session `i` have returned, and its queue has been written out. */
  predicate Ended(s: State, i: nat) {
    && i < |s.sessions|
    && s.sessions[i].health.Over? && s.sessions[i].remote.Gone? && s.sessions[i].proc.Drained?
    && s.sessions[i].log.written == s.sessions[i].log.enqueued
  }

  /** The queue gets closed, if it is not yet. */
  lemma FirstPart(timeouts: seq<int>, s: State, i: nat) returns (more: seq<Action>)
    requires StartInv(timeouts, s) && s.panic.None? && i < |s.sessions|
    ensures Legal(Step, s, more)
    ensures var s' := After(Step, s, more);
      && Inv(s') && s'.panic.None? && i < |s'.sessions| && s'.sessions[i].health.HasClosed()
      && |s'.workers| == |s.workers|
  {
    more := [];
    if !s.sessions[i].health.HasClosed() {
      more := WayToReap(s, i);
    }
    InvInductive();
    InvariantHolds(Step, Inv, s, more);
    WorkersStay(s, more);
  }

  /** And the goroutines return. */
  lemma SecondPart(s: State, i: nat) returns (more: seq<Action>)
    requires Inv(s) && s.panic.None? && i < |s.sessions| && s.sessions[i].health.HasClosed() && s.workers != []
    ensures Legal(Step, s, more) && Ended(After(Step, s, more), i)
  {
    InvInductive();
    var a := WayToOver(s, i);
    var s1 := After(Step, s, a);
    InvariantHolds(Step, Inv, s, a);
    assert SessionOk(s1.sessions[i], i, s1.now);
    var b := WayToDrain(s1, i);
    var s2 := After(Step, s1, b);
    InvariantHolds(Step, Inv, s1, b);
    assert SessionOk(s2.sessions[i], i, s2.now);
    var c := WayToReturn(s2, i);
    var s3 := After(Step, s2, c);
    InvariantHolds(Step, Inv, s2, c);
    assert SessionOk(s3.sessions[i], i, s3.now);
    DrainedIsWritten(s3.sessions[i]);
    Split(Step, s1, b, c);
    Split(Step, s, a, b + c);
    more := a + (b + c);
  }

  lemma DrainedIsWritten(x: Session)
    requires HistoryOk(x) && QueueOk(x) && x.proc.Drained?
    ensures x.log.written == x.log.enqueued
  {
    assert x.log.written + [] + [] == x.log.written;
  }

  /** Nothing gets stuck: from every reachable state, if there is a worker, session `i` can end, with all
      its goroutines returned and every datagram that was queued for it written to the remote end. */
  lemma EverySessionCanEnd(timeouts: seq<int>, cpus: nat, now: int, run: seq<Action>, s: State, i: nat)
    requires Reaches(timeouts, cpus, now, run, s) && s.panic.None? && i < |s.sessions| && cpus > 0
    ensures exists more :: Legal(Step, s, more) && Ended(After(Step, s, more), i)
  {
    StartHolds(timeouts, cpus, now, run, s);
    WorkersStay(Init(timeouts, cpus, now), run);
    var first := FirstPart(timeouts, s, i);
    var second := SecondPart(After(Step, s, first), i);
    Split(Step, s, first, second);
    assert Legal(Step, s, first + second) && Ended(After(Step, s, first + second), i);
  }

  // ---- Network calls ----

  /** A listener's buffer is allocated. */
  lemma ListenerHasBuffer(s: State, l: nat)
    requires OwnInv(s) && l < |s.readers| && s.readers[l].Receiving?
    ensures s.readers[l].buf < |s.mem|
  {
    var b := s.readers[l].buf;
    SumRemove(s.readers, l, ReaderW(b, Content(s, b)));
    assert Weight(s, b, Content(s, b)) == Allocated(s, b);
  }

  lemma SessionHasBuffer(s: State, i: nat)
    requires OwnInv(s) && i < |s.sessions| && s.sessions[i].remote.Reading?
    ensures s.sessions[i].remote.buf < |s.mem|
  {
    var b := s.sessions[i].remote.buf;
    SumRemove(s.sessions, i, SessionW(b, Content(s, b)));
    assert Weight(s, b, Content(s, b)) == Allocated(s, b);
  }

  /** Whatever the network does is taken: in every reachable state a blocked read of a listener or of a
      session, also of one that is flagged or hung up, can return any datagram or an error, and the
      opening of a session can succeed or fail.  And any pooled buffer can be used again. */
  lemma NetworkCallsCanReturn(
    timeouts: seq<int>, cpus: nat, now: int, run: seq<Action>, s: State, src: Addr, data: seq<Byte>, ok: bool)
    requires Reaches(timeouts, cpus, now, run, s) && s.panic.None?
    ensures forall l :: 0 <= l < |s.readers| && s.readers[l].Receiving? ==>
      Step(s, AReader(l, RReceive(src, data))).Some? && Step(s, AReader(l, RError)).Some?
    ensures forall i :: 0 <= i < |s.sessions| && s.sessions[i].remote.Reading? ==>
      Step(s, ARemote(i, MReceive(data))).Some? && Step(s, ARemote(i, MError)).Some?
    ensures forall k :: 0 <= k < |s.starters| && s.starters[k].Connecting? ==>
      Step(s, AStarter(k, SConnect(ok))).Some?
    ensures forall l, f :: 0 <= l < |s.readers| && 0 <= f < |s.free| && s.readers[l].Idle? ==>
      && Step(s, AReader(l, RGet(Recycled(f)))).Some?
      && Step(s, AReader(l, RGet(Recycled(f)))).value.readers[l] == Receiving(s.free[f])
  {
    StartHolds(timeouts, cpus, now, run, s);
    forall l | 0 <= l < |s.readers| && s.readers[l].Receiving?
      ensures Step(s, AReader(l, RReceive(src, data))).Some? && Step(s, AReader(l, RError)).Some?
    {
      ListenerHasBuffer(s, l);
    }
    forall i | 0 <= i < |s.sessions| && s.sessions[i].remote.Reading?
      ensures Step(s, ARemote(i, MReceive(data))).Some? && Step(s, ARemote(i, MError)).Some?
    {
      SessionHasBuffer(s, i);
    }
    forall k | 0 <= k < |s.starters| && s.starters[k].Connecting? ensures Step(s, AStarter(k, SConnect(ok))).Some? {
      assert StarterOk(s.sessions, s.starters[k]);
    }
  }
}
