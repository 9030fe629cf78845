/** The UDP session table of client/udp.go: one `UdpListen` loop per listener, a starter goroutine per
    new source, three goroutines per session (`processInboundQueue`, `handleRemote`, `healthCheck`),
    the outbound workers, and buffers recycled through one pool.

    Every lock, channel, map, flag, pool and network operation is one atomic step.  Buffers have an
    identity and contents, so a buffer that is recycled too early would corrupt what another
    goroutine is about to send. */
module UdpModel {
  import opened Bytes
  import opened Runs

  const BUFFER_SIZE: nat := 65536
  const INBOUND_QUEUE_SIZE: nat := 1024
  const OUTBOUND_QUEUE_SIZE: nat := 65536
  const SECOND: nat := 1_000_000_000

  type Addr = nat

  /** A datagram with its origin: read from a client on a listener, or from the remote end of a
      session. */
  datatype Datagram =
    | FromClient(listener: nat, src: Addr, bytes: seq<Byte>)
    | FromRemote(session: nat, bytes: seq<Byte>)

  /** `InboundData`: a length and a buffer.  `what` records which datagram was read into it. */
  datatype Packet = Packet(n: nat, buf: nat, what: Datagram)

  /** `OutboundData`. */
  datatype Outbound = Outbound(p: Packet, src: Addr, listener: nat)

  /** A `UdpListen` loop, by what it does next. */
  datatype Reader =
    | Idle
    | Receiving(buf: nat)
    | Received(p: Packet)
    | Found(p: Packet, sid: nat)     // about to lock the session
    | Checking(p: Packet, sid: nat)  // holds the session's mutex
    | Sending(p: Packet, sid: nat)   // holds the session's mutex and saw it open
    | Releasing(sid: nat)

  datatype Starter =
    | Connecting(p: Packet)
    | Storing(p: Packet, sid: nat)
    | FirstSend(p: Packet, sid: nat)
    | Finished

  /** `processInboundQueue`. */
  datatype Proc = Waiting | Writing(p: Packet) | Recycling(buf: nat) | Drained

  /** `handleRemote`. */
  datatype Remote =
    | Looping
    | Getting
    | Stamping(buf: nat)
    | Reading(buf: nat, since: int)  // blocked in the remote read since then
    | Pushing(p: Packet)
    | Marking(buf: nat)    // the four statements of its error path
    | Unlisting(buf: nat)
    | HangingUp(buf: nat)
    | Returning(buf: nat)
    | Gone

  /** `healthCheck`.  `due` is when a prompt scheduler has the poll done. */
  datatype Health =
    | Polling(due: int)
    | Sleeping(until: int)
    | Locking
    | Flagging
    | Closing
    | Unlocking
    | Disconnecting
    | Removing
    | Over
  {
    predicate InLock() {
      Flagging? || Closing? || Unlocking?
    }

    predicate HasClosed() {
      Unlocking? || Disconnecting? || Removing? || Over?
    }

    predicate Reaping() {
      !Polling? && !Sleeping?
    }
  }

  datatype Mutex = Free | ByReader | ByHealth

  /** What went through a session, in order. */
  datatype Traffic = Traffic(
    enqueued: seq<Datagram>,  // sent into the inbound queue
    written: seq<Datagram>,   // written to the remote end, as found in the buffers
    read: seq<Datagram>)      // read from the remote end

  /** `Connector`, its three goroutines, and a record of what went through it. */
  datatype Session = Session(
    listener: nat, src: Addr, idle: nat, created: int,
    lastRecv: int, closed: bool, queueClosed: bool, mu: Mutex, queue: seq<Packet>, remoteClosed: bool,
    proc: Proc, remote: Remote, health: Health,
    log: Traffic,
    deleted: bool,            // some goroutine of this session has deleted its key
    lateStore: bool)          // its key was stored after that

  datatype Worker = Resting | Replying(o: Outbound) | Tidying(buf: nat)

  datatype Sent = Sent(listener: nat, src: Addr, what: Datagram)

  datatype Key = Key(listener: nat, src: Addr)

  /** A panic: a send on, or a second close of, a closed channel. */
  datatype Panic = ListenerSend(sid: nat) | StarterSend(sid: nat) | SecondClose(sid: nat)

  /** What went through the program, in order. */
  datatype Record = Record(
    sent: seq<Sent>,         // written to clients
    taken: seq<Datagram>,    // taken from the outbound queue
    dropped: seq<Datagram>)  // received from clients and given up

  datatype State = State(
    timeouts: seq<int>,       // configured timeout of each listener, in seconds
    readers: seq<Reader>,
    starters: seq<Starter>,
    sessions: seq<Session>,
    workers: seq<Worker>,
    outbound: seq<Outbound>,
    table: map<Key, nat>,
    mem: seq<seq<Byte>>,      // contents of every buffer ever allocated
    free: seq<nat>,           // the pool
    lost: seq<nat>,           // dropped without being returned to the pool
    log: Record,
    now: int,
    panic: Option<Panic>)

  function Init(timeouts: seq<int>, cpus: nat, now: int): State {
    State(timeouts, seq(|timeouts|, _ => Idle), [], [], seq(cpus, _ => Resting), [], map[], [], [], [],
          Record([], [], []), now, None)
  }

  // ---- Updates ----

  function SetReader(s: State, l: nat, r: Reader): State
    requires l < |s.readers|
  {
    s.(readers := s.readers[l := r])
  }

  function SetStarter(s: State, k: nat, r: Starter): State
    requires k < |s.starters|
  {
    s.(starters := s.starters[k := r])
  }

  function SetSession(s: State, i: nat, x: Session): State
    requires i < |s.sessions|
  {
    s.(sessions := s.sessions[i := x])
  }

  function SetWorker(s: State, w: nat, r: Worker): State
    requires w < |s.workers|
  {
    s.(workers := s.workers[w := r])
  }

  function Put(s: State, buf: nat): State {
    s.(free := s.free + [buf])
  }

  /** `sync.Pool.Get` gives any pooled buffer, or a new one. */
  datatype Source = Recycled(i: nat) | Fresh

  predicate CanGet(s: State, from: Source) {
    from.Fresh? || from.i < |s.free|
  }

  function Got(s: State, from: Source): nat
    requires CanGet(s, from)
  {
    if from.Fresh? then |s.mem| else s.free[from.i]
  }

  function Get(s: State, from: Source): State
    requires CanGet(s, from)
  {
    if from.Fresh? then s.(mem := s.mem + [seq(BUFFER_SIZE, _ => 0)])
    else s.(free := s.free[..from.i] + s.free[from.i + 1..])
  }

  /** Reading `data` into a buffer overwrites its front, and cuts what does not fit. */
  function Fill(s: State, buf: nat, data: seq<Byte>): State
    requires buf < |s.mem|
  {
    var kept := Take(data, |s.mem[buf]|);
    s.(mem := s.mem[buf := kept + s.mem[buf][|kept|..]])
  }

  function Filled(s: State, buf: nat, data: seq<Byte>): seq<Byte>
    requires buf < |s.mem|
  {
    Take(data, |s.mem[buf]|)
  }

  /** `buf[:n]` as it is now. */
  function Contents(s: State, p: Packet): seq<Byte> {
    if p.buf < |s.mem| then Take(s.mem[p.buf], p.n) else []
  }

  function KeyOf(x: Session): Key {
    Key(x.listener, x.src)
  }

  function IdleTimeout(seconds: int): nat {
    (if seconds < 1 then 30 else seconds) * SECOND
  }

  function Enqueue(x: Session, p: Packet): Session {
    x.(queue := x.queue + [p], log := x.log.(enqueued := x.log.enqueued + [p.what]))
  }

  function NewSession(listener: nat, src: Addr, idle: nat, now: int): Session {
    Session(listener, src, idle, now, now, false, false, Free, [], false,
            Waiting, Looping, Polling(now + idle), Traffic([], [], []), false, false)
  }

  // ---- UdpListen ----

  datatype ReaderOp =
    | RGet(from: Source) | RReceive(src: Addr, data: seq<Byte>) | RError | RLoad
    | RLock | RCheck | RSend | RUnlock

  function ReaderStep(s: State, l: nat, op: ReaderOp): Option<State> {
    if l >= |s.readers| then None
    else
      var r := s.readers[l];
      match op
      case RGet(from) =>
        if r.Idle? && CanGet(s, from)
        then Some(SetReader(Get(s, from), l, Receiving(Got(s, from))))
        else None
      case RReceive(src, data) =>
        if r.Receiving? && r.buf < |s.mem| then
          var kept := Filled(s, r.buf, data);
          Some(SetReader(Fill(s, r.buf, data), l, Received(Packet(|kept|, r.buf, FromClient(l, src, kept)))))
        else None
      case RError =>
        if r.Receiving? then Some(SetReader(Put(s, r.buf), l, Idle)) else None
      case RLoad =>
        if !r.Received? || !r.p.what.FromClient? then None
        else
          var key := Key(l, r.p.what.src);
          if key in s.table then Some(SetReader(s, l, Found(r.p, s.table[key])))
          else Some(SetReader(s, l, Idle).(starters := s.starters + [Connecting(r.p)]))
      case RLock =>
        if r.Found? && r.sid < |s.sessions| && s.sessions[r.sid].mu.Free?
        then Some(SetReader(SetSession(s, r.sid, s.sessions[r.sid].(mu := ByReader)), l, Checking(r.p, r.sid)))
        else None
      case RCheck =>
        if !r.Checking? || r.sid >= |s.sessions| then None
        else if s.sessions[r.sid].closed
        then Some(SetReader(s, l, Releasing(r.sid))
                  .(lost := s.lost + [r.p.buf], log := s.log.(dropped := s.log.dropped + [r.p.what])))
        else Some(SetReader(s, l, Sending(r.p, r.sid)))
      case RSend =>
        if !r.Sending? || r.sid >= |s.sessions| then None
        else
          var x := s.sessions[r.sid];
          if x.queueClosed then Some(s.(panic := Some(ListenerSend(r.sid))))
          else if |x.queue| < INBOUND_QUEUE_SIZE
          then Some(SetReader(SetSession(s, r.sid, Enqueue(x, r.p)), l, Releasing(r.sid)))
          else None
      case RUnlock =>
        if r.Releasing? && r.sid < |s.sessions|
        then Some(SetReader(SetSession(s, r.sid, s.sessions[r.sid].(mu := Free)), l, Idle))
        else None
  }

  // ---- The goroutine started for a new source ----

  datatype StarterOp = SConnect(ok: bool) | SStore | SSend

  function StarterStep(s: State, k: nat, op: StarterOp): Option<State> {
    if k >= |s.starters| then None
    else
      var r := s.starters[k];
      match op
      case SConnect(ok) =>
        if !r.Connecting? || !r.p.what.FromClient? || r.p.what.listener >= |s.timeouts| then None
        else if ok then
          var x := NewSession(r.p.what.listener, r.p.what.src, IdleTimeout(s.timeouts[r.p.what.listener]), s.now);
          Some(SetStarter(s, k, Storing(r.p, |s.sessions|)).(sessions := s.sessions + [x]))
        else Some(SetStarter(Put(s, r.p.buf), k, Finished).(log := s.log.(dropped := s.log.dropped + [r.p.what])))
      case SStore =>
        if r.Storing? && r.sid < |s.sessions| then
          var x := s.sessions[r.sid];
          Some(SetStarter(SetSession(s, r.sid, x.(lateStore := x.deleted)), k, FirstSend(r.p, r.sid))
               .(table := s.table[KeyOf(x) := r.sid]))
        else None
      case SSend =>
        if !r.FirstSend? || r.sid >= |s.sessions| then None
        else
          var x := s.sessions[r.sid];
          if x.queueClosed then Some(s.(panic := Some(StarterSend(r.sid))))
          else if |x.queue| < INBOUND_QUEUE_SIZE
          then Some(SetStarter(SetSession(s, r.sid, Enqueue(x, r.p)), k, Finished))
          else None
  }

  // ---- processInboundQueue ----

  datatype ProcOp = PTake | PWrite | PPut | PExit

  function ProcStep(s: State, i: nat, op: ProcOp): Option<State> {
    if i >= |s.sessions| then None
    else
      var x := s.sessions[i];
      match op
      case PTake =>
        if x.proc.Waiting? && x.queue != []
        then Some(SetSession(s, i, x.(proc := Writing(x.queue[0]), queue := x.queue[1..])))
        else None
      case PWrite =>
        if x.proc.Writing? then
          var what := x.proc.p.what.(bytes := Contents(s, x.proc.p));
          Some(SetSession(s, i, x.(
            proc := Recycling(x.proc.p.buf), log := x.log.(written := x.log.written + [what]))))
        else None
      case PPut =>
        if x.proc.Recycling? then Some(SetSession(Put(s, x.proc.buf), i, x.(proc := Waiting))) else None
      case PExit =>
        if x.proc.Waiting? && x.queueClosed && x.queue == []
        then Some(SetSession(s, i, x.(proc := Drained)))
        else None
  }

  // ---- handleRemote ----

  datatype RemoteOp =
    | MCheck | MGet(from: Source) | MStamp | MReceive(data: seq<Byte>) | MPush
    | MError | MMark | MUnlist | MHangUp | MReturn

  function RemoteStep(s: State, i: nat, op: RemoteOp): Option<State> {
    if i >= |s.sessions| then None
    else
      var x := s.sessions[i];
      match op
      case MCheck =>
        if x.remote.Looping?
        then Some(SetSession(s, i, x.(remote := if x.closed then Gone else Getting)))
        else None
      case MGet(from) =>
        if x.remote.Getting? && CanGet(s, from)
        then Some(SetSession(Get(s, from), i, x.(remote := Stamping(Got(s, from)))))
        else None
      case MStamp =>
        if x.remote.Stamping?
        then Some(SetSession(s, i, x.(remote := Reading(x.remote.buf, s.now), lastRecv := s.now)))
        else None
      case MReceive(data) =>
        if x.remote.Reading? && x.remote.buf < |s.mem| then
          var kept := Filled(s, x.remote.buf, data);
          var what := FromRemote(i, kept);
          Some(SetSession(Fill(s, x.remote.buf, data), i, x.(
            remote := Pushing(Packet(|kept|, x.remote.buf, what)), log := x.log.(read := x.log.read + [what]))))
        else None
      case MPush =>
        if x.remote.Pushing? && |s.outbound| < OUTBOUND_QUEUE_SIZE
        then Some(SetSession(s, i, x.(remote := Looping))
                  .(outbound := s.outbound + [Outbound(x.remote.p, x.src, x.listener)]))
        else None
      case MError =>
        if x.remote.Reading? then Some(SetSession(s, i, x.(remote := Marking(x.remote.buf)))) else None
      case MMark =>
        if x.remote.Marking?
        then Some(SetSession(s, i, x.(remote := Unlisting(x.remote.buf), closed := true)))
        else None
      case MUnlist =>
        if x.remote.Unlisting?
        then Some(SetSession(s, i, x.(remote := HangingUp(x.remote.buf), deleted := true))
                  .(table := s.table - {KeyOf(x)}))
        else None
      case MHangUp =>
        if x.remote.HangingUp?
        then Some(SetSession(s, i, x.(remote := Returning(x.remote.buf), remoteClosed := true)))
        else None
      case MReturn =>
        if x.remote.Returning? then Some(SetSession(Put(s, x.remote.buf), i, x.(remote := Gone))) else None
  }

  // ---- healthCheck ----

  datatype HealthOp = HPoll | HWake | HLock | HFlag | HClose | HUnlock | HHangUp | HRemove

  function HealthStep(s: State, i: nat, op: HealthOp): Option<State> {
    if i >= |s.sessions| then None
    else
      var x := s.sessions[i];
      match op
      case HPoll =>
        if !x.health.Polling? then None
        else if s.now > x.lastRecv + x.idle then Some(SetSession(s, i, x.(health := Locking)))
        else Some(SetSession(s, i, x.(health := Sleeping(s.now + x.idle))))
      case HWake =>
        if x.health.Sleeping? && s.now >= x.health.until
        then Some(SetSession(s, i, x.(health := Polling(x.health.until))))
        else None
      case HLock =>
        if x.health.Locking? && x.mu.Free?
        then Some(SetSession(s, i, x.(health := Flagging, mu := ByHealth)))
        else None
      case HFlag =>
        if x.health.Flagging? then Some(SetSession(s, i, x.(health := Closing, closed := true))) else None
      case HClose =>
        if !x.health.Closing? then None
        else if x.queueClosed then Some(s.(panic := Some(SecondClose(i))))
        else Some(SetSession(s, i, x.(health := Unlocking, queueClosed := true)))
      case HUnlock =>
        if x.health.Unlocking? then Some(SetSession(s, i, x.(health := Disconnecting, mu := Free))) else None
      case HHangUp =>
        if x.health.Disconnecting? then Some(SetSession(s, i, x.(health := Removing, remoteClosed := true))) else None
      case HRemove =>
        if x.health.Removing?
        then Some(SetSession(s, i, x.(health := Over, deleted := true)).(table := s.table - {KeyOf(x)}))
        else None
  }

  // ---- processOutboundQueue ----

  datatype WorkerOp = WTake | WWrite | WPut

  function WorkerStep(s: State, w: nat, op: WorkerOp): Option<State> {
    if w >= |s.workers| then None
    else
      var r := s.workers[w];
      match op
      case WTake =>
        if r.Resting? && s.outbound != []
        then Some(SetWorker(s, w, Replying(s.outbound[0]))
                  .(outbound := s.outbound[1..], log := s.log.(taken := s.log.taken + [s.outbound[0].p.what])))
        else None
      case WWrite =>
        if r.Replying? then
          var what := r.o.p.what.(bytes := Contents(s, r.o.p));
          Some(SetWorker(s, w, Tidying(r.o.p.buf))
               .(log := s.log.(sent := s.log.sent + [Sent(r.o.listener, r.o.src, what)])))
        else None
      case WPut =>
        if r.Tidying? then Some(SetWorker(Put(s, r.buf), w, Resting)) else None
  }

  datatype Action =
    | AReader(l: nat, rop: ReaderOp)
    | AStarter(k: nat, sop: StarterOp)
    | AProc(i: nat, pop: ProcOp)
    | ARemote(i: nat, mop: RemoteOp)
    | AHealth(i: nat, hop: HealthOp)
    | AWorker(w: nat, wop: WorkerOp)
    | Tick(dt: nat)

  function Step(s: State, a: Action): Option<State> {
    if s.panic.Some? then None
    else
      match a
      case AReader(l, op) => ReaderStep(s, l, op)
      case AStarter(k, op) => StarterStep(s, k, op)
      case AProc(i, op) => ProcStep(s, i, op)
      case ARemote(i, op) => RemoteStep(s, i, op)
      case AHealth(i, op) => HealthStep(s, i, op)
      case AWorker(w, op) => WorkerStep(s, w, op)
      case Tick(dt) => Some(s.(now := s.now + dt))
  }
}
