/** Linear ownership of the UDP buffers.

    For one buffer, every holder weighs one; a holder that believes the buffer to contain a certain
    datagram weighs two if it does not.  The total weight of every allocated buffer is exactly one in
    every reachable state, which says at once that it has exactly one holder, that nobody returns
    it twice or uses it after returning it, and that nobody else's read has overwritten it. */
module UdpOwnership {
  import opened Bytes
  import opened Runs
  import opened Tally
  import opened UdpModel

  function Bare(buf: nat, b: nat): nat {
    if buf == b then 1 else 0
  }

  function Loaded(p: Packet, b: nat, bytes: seq<Byte>): nat {
    if p.buf != b then 0
    else if p.n <= |bytes| && bytes[..p.n] == p.what.bytes then 1
    else 2
  }

  function ReaderWeight(r: Reader, b: nat, bytes: seq<Byte>): nat {
    match r
    case Receiving(buf) => Bare(buf, b)
    case Received(p) => Loaded(p, b, bytes)
    case Found(p, _) => Loaded(p, b, bytes)
    case Checking(p, _) => Loaded(p, b, bytes)
    case Sending(p, _) => Loaded(p, b, bytes)
    case _ => 0
  }

  function StarterWeight(r: Starter, b: nat, bytes: seq<Byte>): nat {
    if r.Finished? then 0 else Loaded(r.p, b, bytes)
  }

  function ProcWeight(r: Proc, b: nat, bytes: seq<Byte>): nat {
    match r
    case Writing(p) => Loaded(p, b, bytes)
    case Recycling(buf) => Bare(buf, b)
    case _ => 0
  }

  function RemoteWeight(r: Remote, b: nat, bytes: seq<Byte>): nat {
    if r.Looping? || r.Getting? || r.Gone? then 0
    else if r.Pushing? then Loaded(r.p, b, bytes)
    else Bare(r.buf, b)
  }

  function WorkerWeight(r: Worker, b: nat, bytes: seq<Byte>): nat {
    match r
    case Resting => 0
    case Replying(o) => Loaded(o.p, b, bytes)
    case Tidying(buf) => Bare(buf, b)
  }

  ghost function SessionWeight(x: Session, b: nat, bytes: seq<Byte>): nat {
    Sum(x.queue, PacketW(b, bytes)) + ProcWeight(x.proc, b, bytes) + RemoteWeight(x.remote, b, bytes)
  }

  ghost function PacketW(b: nat, bytes: seq<Byte>): Packet -> nat { (p: Packet) => Loaded(p, b, bytes) }
  ghost function ReaderW(b: nat, bytes: seq<Byte>): Reader -> nat { (r: Reader) => ReaderWeight(r, b, bytes) }
  ghost function StarterW(b: nat, bytes: seq<Byte>): Starter -> nat { (r: Starter) => StarterWeight(r, b, bytes) }
  ghost function SessionW(b: nat, bytes: seq<Byte>): Session -> nat { (x: Session) => SessionWeight(x, b, bytes) }
  ghost function WorkerW(b: nat, bytes: seq<Byte>): Worker -> nat { (r: Worker) => WorkerWeight(r, b, bytes) }
  ghost function OutboundW(b: nat, bytes: seq<Byte>): Outbound -> nat { (o: Outbound) => Loaded(o.p, b, bytes) }
  ghost function BareW(b: nat): nat -> nat { (buf: nat) => Bare(buf, b) }

  ghost function Weight(s: State, b: nat, bytes: seq<Byte>): nat {
    Sum(s.readers, ReaderW(b, bytes)) + Sum(s.starters, StarterW(b, bytes))
    + Sum(s.sessions, SessionW(b, bytes)) + Sum(s.workers, WorkerW(b, bytes))
    + Sum(s.outbound, OutboundW(b, bytes)) + Sum(s.free, BareW(b)) + Sum(s.lost, BareW(b))
  }

  function Content(s: State, b: nat): seq<Byte> {
    if b < |s.mem| then s.mem[b] else []
  }

  function Allocated(s: State, b: nat): nat {
    if b < |s.mem| then 1 else 0
  }

  ghost predicate OwnInv(s: State) {
    forall b: nat :: Weight(s, b, Content(s, b)) == Allocated(s, b)
  }

  // ---- How the updates move the weight ----

  lemma ReaderMoves(s: State, l: nat, r: Reader, b: nat, bytes: seq<Byte>)
    requires l < |s.readers|
    ensures Weight(SetReader(s, l, r), b, bytes) ==
            Weight(s, b, bytes) - ReaderWeight(s.readers[l], b, bytes) + ReaderWeight(r, b, bytes)
    ensures ReaderWeight(s.readers[l], b, bytes) <= Weight(s, b, bytes)
  {
    SumUpdate(s.readers, l, r, ReaderW(b, bytes));
  }

  lemma StarterMoves(s: State, k: nat, r: Starter, b: nat, bytes: seq<Byte>)
    requires k < |s.starters|
    ensures Weight(SetStarter(s, k, r), b, bytes) ==
            Weight(s, b, bytes) - StarterWeight(s.starters[k], b, bytes) + StarterWeight(r, b, bytes)
    ensures StarterWeight(s.starters[k], b, bytes) <= Weight(s, b, bytes)
  {
    SumUpdate(s.starters, k, r, StarterW(b, bytes));
  }

  lemma SessionMoves(s: State, i: nat, x: Session, b: nat, bytes: seq<Byte>)
    requires i < |s.sessions|
    ensures Weight(SetSession(s, i, x), b, bytes) ==
            Weight(s, b, bytes) - SessionWeight(s.sessions[i], b, bytes) + SessionWeight(x, b, bytes)
    ensures SessionWeight(s.sessions[i], b, bytes) <= Weight(s, b, bytes)
  {
    SumUpdate(s.sessions, i, x, SessionW(b, bytes));
  }

  lemma WorkerMoves(s: State, w: nat, r: Worker, b: nat, bytes: seq<Byte>)
    requires w < |s.workers|
    ensures Weight(SetWorker(s, w, r), b, bytes) ==
            Weight(s, b, bytes) - WorkerWeight(s.workers[w], b, bytes) + WorkerWeight(r, b, bytes)
    ensures WorkerWeight(s.workers[w], b, bytes) <= Weight(s, b, bytes)
  {
    SumUpdate(s.workers, w, r, WorkerW(b, bytes));
  }

  lemma PutMoves(s: State, buf: nat, b: nat, bytes: seq<Byte>)
    ensures Weight(Put(s, buf), b, bytes) == Weight(s, b, bytes) + Bare(buf, b)
  {
    SumAppend(s.free, buf, BareW(b));
  }

  /** A new buffer comes from nowhere, a recycled one from the pool. */
  lemma GetMoves(s: State, from: Source, b: nat, bytes: seq<Byte>)
    requires CanGet(s, from)
    ensures Weight(Get(s, from), b, bytes) + Bare(Got(s, from), b) ==
            Weight(s, b, bytes) + if from.Fresh? then Bare(|s.mem|, b) else 0
  {
    if from.Recycled? {
      SumRemove(s.free, from.i, BareW(b));
    }
  }

  lemma EnqueueMoves(x: Session, p: Packet, b: nat, bytes: seq<Byte>)
    ensures SessionWeight(Enqueue(x, p), b, bytes) == SessionWeight(x, b, bytes) + Loaded(p, b, bytes)
  {
    SumAppend(x.queue, p, PacketW(b, bytes));
  }

  /** A buffer nobody holds weighs nothing, whatever it contains. */
  lemma Reweigh(s: State, b: nat, bytes: seq<Byte>, other: seq<Byte>)
    requires Weight(s, b, bytes) == 0
    ensures Weight(s, b, other) == 0
  {
    SumZero(s.readers, ReaderW(b, bytes), ReaderW(b, other));
    SumZero(s.starters, StarterW(b, bytes), StarterW(b, other));
    forall x | SessionW(b, bytes)(x) == 0 ensures SessionW(b, other)(x) == 0 {
      SumZero(x.queue, PacketW(b, bytes), PacketW(b, other));
    }
    SumZero(s.sessions, SessionW(b, bytes), SessionW(b, other));
    SumZero(s.workers, WorkerW(b, bytes), WorkerW(b, other));
    SumZero(s.outbound, OutboundW(b, bytes), OutboundW(b, other));
  }

  // ---- Steps that read nothing into a buffer ----

  /** Holders change, contents do not, and at most one buffer is new. */
  ghost predicate Conserves(s: State, s': State, b: nat, bytes: seq<Byte>) {
    && s.mem <= s'.mem
    && |s'.mem| <= |s.mem| + 1
    && Weight(s', b, bytes) == Weight(s, b, bytes) + (if b == |s.mem| < |s'.mem| then 1 else 0)
  }

  /** A listener's step on the session whose mutex it takes, holds or gives back. */
  lemma ReaderSessionMoves(s: State, l: nat, r: Reader, i: nat, x: Session, b: nat, bytes: seq<Byte>)
    requires l < |s.readers| && i < |s.sessions|
    requires ReaderWeight(r, b, bytes) + SessionWeight(x, b, bytes) ==
             ReaderWeight(s.readers[l], b, bytes) + SessionWeight(s.sessions[i], b, bytes)
    ensures Weight(SetReader(SetSession(s, i, x), l, r), b, bytes) == Weight(s, b, bytes)
  {
    SessionMoves(s, i, x, b, bytes);
    ReaderMoves(SetSession(s, i, x), l, r, b, bytes);
  }

  lemma StarterSessionMoves(s: State, k: nat, r: Starter, i: nat, x: Session, b: nat, bytes: seq<Byte>)
    requires k < |s.starters| && i < |s.sessions|
    requires StarterWeight(r, b, bytes) + SessionWeight(x, b, bytes) ==
             StarterWeight(s.starters[k], b, bytes) + SessionWeight(s.sessions[i], b, bytes)
    ensures Weight(SetStarter(SetSession(s, i, x), k, r), b, bytes) == Weight(s, b, bytes)
  {
    SessionMoves(s, i, x, b, bytes);
    StarterMoves(SetSession(s, i, x), k, r, b, bytes);
  }

  lemma LoadMoves(s: State, l: nat, b: nat, bytes: seq<Byte>)
    requires ReaderStep(s, l, RLoad).Some?
    ensures Conserves(s, ReaderStep(s, l, RLoad).value, b, bytes)
  {
    ReaderMoves(s, l, ReaderStep(s, l, RLoad).value.readers[l], b, bytes);
    SumAppend(s.starters, Connecting(s.readers[l].p), StarterW(b, bytes));
  }

  lemma CheckMoves(s: State, l: nat, b: nat, bytes: seq<Byte>)
    requires ReaderStep(s, l, RCheck).Some? && Weight(s, b, bytes) <= 1
    ensures Conserves(s, ReaderStep(s, l, RCheck).value, b, bytes)
  {
    var r := s.readers[l];
    if s.sessions[r.sid].closed {
      ReaderMoves(s, l, Releasing(r.sid), b, bytes);
      SumAppend(s.lost, r.p.buf, BareW(b));
    } else {
      ReaderMoves(s, l, Sending(r.p, r.sid), b, bytes);
    }
  }

  lemma ReaderConserves(s: State, l: nat, op: ReaderOp, b: nat, bytes: seq<Byte>)
    requires ReaderStep(s, l, op).Some? && !op.RReceive? && Weight(s, b, bytes) <= 1
    ensures Conserves(s, ReaderStep(s, l, op).value, b, bytes)
  {
    var r := s.readers[l];
    match op
    case RGet(from) =>
      GetMoves(s, from, b, bytes);
      ReaderMoves(Get(s, from), l, Receiving(Got(s, from)), b, bytes);
    case RError =>
      PutMoves(s, r.buf, b, bytes);
      ReaderMoves(Put(s, r.buf), l, Idle, b, bytes);
    case RLoad => LoadMoves(s, l, b, bytes);
    case RLock =>
      ReaderSessionMoves(s, l, Checking(r.p, r.sid), r.sid, s.sessions[r.sid].(mu := ByReader), b, bytes);
    case RCheck => CheckMoves(s, l, b, bytes);
    case RSend =>
      EnqueueMoves(s.sessions[r.sid], r.p, b, bytes);
      ReaderSessionMoves(s, l, Releasing(r.sid), r.sid, Enqueue(s.sessions[r.sid], r.p), b, bytes);
    case RUnlock =>
      ReaderSessionMoves(s, l, Idle, r.sid, s.sessions[r.sid].(mu := Free), b, bytes);
  }

  lemma ConnectMoves(s: State, k: nat, ok: bool, b: nat, bytes: seq<Byte>)
    requires StarterStep(s, k, SConnect(ok)).Some? && Weight(s, b, bytes) <= 1
    ensures Conserves(s, StarterStep(s, k, SConnect(ok)).value, b, bytes)
  {
    var s' := StarterStep(s, k, SConnect(ok)).value;
    StarterMoves(s, k, s'.starters[k], b, bytes);
    if ok {
      SumAppend(s.sessions, s'.sessions[|s.sessions|], SessionW(b, bytes));
    } else {
      PutMoves(SetStarter(s, k, Finished), s.starters[k].p.buf, b, bytes);
    }
  }

  lemma StarterConserves(s: State, k: nat, op: StarterOp, b: nat, bytes: seq<Byte>)
    requires StarterStep(s, k, op).Some? && Weight(s, b, bytes) <= 1
    ensures Conserves(s, StarterStep(s, k, op).value, b, bytes)
  {
    var r := s.starters[k];
    match op
    case SConnect(ok) => ConnectMoves(s, k, ok, b, bytes);
    case SStore =>
      var x := s.sessions[r.sid];
      StarterSessionMoves(s, k, FirstSend(r.p, r.sid), r.sid, x.(lateStore := x.deleted), b, bytes);
    case SSend =>
      EnqueueMoves(s.sessions[r.sid], r.p, b, bytes);
      StarterSessionMoves(s, k, Finished, r.sid, Enqueue(s.sessions[r.sid], r.p), b, bytes);
  }

  lemma ProcConserves(s: State, i: nat, op: ProcOp, b: nat, bytes: seq<Byte>)
    requires ProcStep(s, i, op).Some? && Weight(s, b, bytes) <= 1
    ensures Conserves(s, ProcStep(s, i, op).value, b, bytes)
  {
    var x' := ProcStep(s, i, op).value.sessions[i];
    SessionMoves(s, i, x', b, bytes);
    if op.PPut? {
      PutMoves(SetSession(s, i, x'), s.sessions[i].proc.buf, b, bytes);
    }
  }

  /** Nothing but session `i`, the table and the record of panics has changed. */
  ghost predicate OnlySession(s: State, s': State, i: nat) {
    && i < |s.sessions| == |s'.sessions|
    && s'.sessions == s.sessions[i := s'.sessions[i]]
    && s' == s.(sessions := s'.sessions, table := s'.table, panic := s'.panic)
  }

  lemma SessionConserves(s: State, s': State, i: nat, b: nat, bytes: seq<Byte>)
    requires OnlySession(s, s', i)
    requires SessionWeight(s'.sessions[i], b, bytes) == SessionWeight(s.sessions[i], b, bytes)
    ensures Conserves(s, s', b, bytes)
  {
    SessionMoves(s, i, s'.sessions[i], b, bytes);
    assert s.mem == s'.mem;
  }

  /** The operations of `handleRemote` that keep hold of the same buffer, or of none. */
  predicate Keeping(op: RemoteOp) {
    op.MCheck? || op.MStamp? || op.MError? || op.MMark? || op.MUnlist? || op.MHangUp?
  }

  lemma RemoteKeeps(s: State, i: nat, op: RemoteOp, b: nat, bytes: seq<Byte>)
    requires RemoteStep(s, i, op).Some? && Keeping(op)
    ensures Conserves(s, RemoteStep(s, i, op).value, b, bytes)
  {
    var s' := RemoteStep(s, i, op).value;
    assert OnlySession(s, s', i);
    assert s'.sessions[i].queue == s.sessions[i].queue && s'.sessions[i].proc == s.sessions[i].proc;
    SessionConserves(s, s', i, b, bytes);
  }

  lemma RemoteConserves(s: State, i: nat, op: RemoteOp, b: nat, bytes: seq<Byte>)
    requires RemoteStep(s, i, op).Some? && !op.MReceive? && Weight(s, b, bytes) <= 1
    ensures Conserves(s, RemoteStep(s, i, op).value, b, bytes)
  {
    if Keeping(op) {
      RemoteKeeps(s, i, op, b, bytes);
    } else if op.MGet? {
      RemoteGets(s, i, op.from, b, bytes);
    } else if op.MPush? {
      RemotePushes(s, i, b, bytes);
    } else {
      RemoteReturns(s, i, b, bytes);
    }
  }

  lemma RemoteReturns(s: State, i: nat, b: nat, bytes: seq<Byte>)
    requires RemoteStep(s, i, MReturn).Some?
    ensures Conserves(s, RemoteStep(s, i, MReturn).value, b, bytes)
  {
    var x' := s.sessions[i].(remote := Gone);
    SessionMoves(s, i, x', b, bytes);
    PutMoves(SetSession(s, i, x'), s.sessions[i].remote.buf, b, bytes);
  }

  lemma RemoteGets(s: State, i: nat, from: Source, b: nat, bytes: seq<Byte>)
    requires RemoteStep(s, i, MGet(from)).Some?
    ensures Conserves(s, RemoteStep(s, i, MGet(from)).value, b, bytes)
  {
    GetMoves(s, from, b, bytes);
    SessionMoves(Get(s, from), i, s.sessions[i].(remote := Stamping(Got(s, from))), b, bytes);
  }

  lemma RemotePushes(s: State, i: nat, b: nat, bytes: seq<Byte>)
    requires RemoteStep(s, i, MPush).Some?
    ensures Conserves(s, RemoteStep(s, i, MPush).value, b, bytes)
  {
    var x := s.sessions[i];
    SessionMoves(s, i, x.(remote := Looping), b, bytes);
    SumAppend(s.outbound, Outbound(x.remote.p, x.src, x.listener), OutboundW(b, bytes));
  }

  lemma HealthConserves(s: State, i: nat, op: HealthOp, b: nat, bytes: seq<Byte>)
    requires HealthStep(s, i, op).Some?
    ensures Conserves(s, HealthStep(s, i, op).value, b, bytes)
  {
    var s' := HealthStep(s, i, op).value;
    assert OnlySession(s, s', i);
    SessionConserves(s, s', i, b, bytes);
  }

  lemma WorkerConserves(s: State, w: nat, op: WorkerOp, b: nat, bytes: seq<Byte>)
    requires WorkerStep(s, w, op).Some? && Weight(s, b, bytes) <= 1
    ensures Conserves(s, WorkerStep(s, w, op).value, b, bytes)
  {
    var r' := WorkerStep(s, w, op).value.workers[w];
    WorkerMoves(s, w, r', b, bytes);
    if op.WPut? {
      PutMoves(SetWorker(s, w, r'), s.workers[w].buf, b, bytes);
    }
  }

  // ---- Steps that read into a buffer ----

  /** A read by a listener leaves every buffer's weight as it was, under the new contents. */
  lemma ReaderReceives(s: State, l: nat, op: ReaderOp, b: nat)
    requires ReaderStep(s, l, op).Some? && op.RReceive? && OwnInv(s)
    ensures var s' := ReaderStep(s, l, op).value;
      |s'.mem| == |s.mem| && Weight(s', b, Content(s', b)) == Allocated(s', b)
  {
    var s' := ReaderStep(s, l, op).value;
    var bytes, bytes' := Content(s, b), Content(s', b);
    var buf := s.readers[l].buf;
    ReaderMoves(s, l, Idle, b, bytes);
    if b == buf {
      Reweigh(SetReader(s, l, Idle), b, bytes, bytes');
    }
    ReaderMoves(SetReader(s, l, Idle), l, s'.readers[l], b, bytes');
    assert SetReader(SetReader(s, l, Idle), l, s'.readers[l]).readers == s'.readers;
    var kept := Filled(s, buf, op.data);
    assert b == buf ==> bytes'[..|kept|] == kept;
  }

  lemma RemoteReceives(s: State, i: nat, op: RemoteOp, b: nat)
    requires RemoteStep(s, i, op).Some? && op.MReceive? && OwnInv(s)
    ensures var s' := RemoteStep(s, i, op).value;
      |s'.mem| == |s.mem| && Weight(s', b, Content(s', b)) == Allocated(s', b)
  {
    var s' := RemoteStep(s, i, op).value;
    var bytes, bytes' := Content(s, b), Content(s', b);
    var x := s.sessions[i];
    var empty := x.(remote := Looping);
    SessionMoves(s, i, empty, b, bytes);
    if b == x.remote.buf {
      Reweigh(SetSession(s, i, empty), b, bytes, bytes');
    }
    SessionMoves(SetSession(s, i, empty), i, s'.sessions[i], b, bytes');
    assert SetSession(SetSession(s, i, empty), i, s'.sessions[i]).sessions == s'.sessions;
    var kept := Filled(s, x.remote.buf, op.data);
    assert b == x.remote.buf ==> bytes'[..|kept|] == kept;
  }

  // ---- Together ----

  /** The contents under which to weigh buffer `b` across a step that reads nothing. */
  function Weighed(s: State, s': State, b: nat): seq<Byte> {
    if b < |s.mem| then s.mem[b] else Content(s', b)
  }

  lemma WeightBefore(s: State, s': State, b: nat)
    requires OwnInv(s)
    ensures Weight(s, b, Weighed(s, s', b)) == Allocated(s, b)
  {
    assert Weight(s, b, Content(s, b)) == Allocated(s, b);
    if b >= |s.mem| {
      Reweigh(s, b, [], Content(s', b));
    }
  }

  lemma QuietStepKeepsOwnership(s: State, a: Action, b: nat)
    requires OwnInv(s) && Step(s, a).Some?
    requires !(a.AReader? && a.rop.RReceive?) && !(a.ARemote? && a.mop.MReceive?)
    ensures Weight(Step(s, a).value, b, Content(Step(s, a).value, b)) == Allocated(Step(s, a).value, b)
  {
    var bytes := Weighed(s, Step(s, a).value, b);
    WeightBefore(s, Step(s, a).value, b);
    match a
    case AReader(l, op) => ReaderConserves(s, l, op, b, bytes);
    case AStarter(k, op) => StarterConserves(s, k, op, b, bytes);
    case AProc(i, op) => ProcConserves(s, i, op, b, bytes);
    case ARemote(i, op) => RemoteConserves(s, i, op, b, bytes);
    case AHealth(i, op) => HealthConserves(s, i, op, b, bytes);
    case AWorker(w, op) => WorkerConserves(s, w, op, b, bytes);
    case Tick(_) =>
  }

  lemma StepKeepsOwnership(s: State, a: Action)
    requires OwnInv(s) && Step(s, a).Some?
    ensures OwnInv(Step(s, a).value)
  {
    var s' := Step(s, a).value;
    forall b: nat ensures Weight(s', b, Content(s', b)) == Allocated(s', b) {
      if a.AReader? && a.rop.RReceive? {
        ReaderReceives(s, a.l, a.rop, b);
      } else if a.ARemote? && a.mop.MReceive? {
        RemoteReceives(s, a.i, a.mop, b);
      } else {
        QuietStepKeepsOwnership(s, a, b);
      }
    }
  }
}
