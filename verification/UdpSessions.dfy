/** What the goroutines of client/udp.go keep true of every session: order and isolation of its
    datagrams, the life of its queue, its place in the table, and where its replies go. */
module UdpSessions {
  import opened Bytes
  import opened Runs
  import opened Tally
  import opened UdpModel
  import opened UdpOwnership

  function Whats(ps: seq<Packet>): seq<Datagram> {
    seq(|ps|, k requires 0 <= k < |ps| => ps[k].what)
  }

  function InHand(r: Proc): seq<Datagram> {
    if r.Writing? then [r.p.what] else []
  }

  /** A datagram from the session's own client. */
  predicate Mine(x: Session, d: Datagram) {
    d.FromClient? && d.listener == x.listener && d.src == x.src
  }

  ghost predicate HistoryOk(x: Session) {
    && x.log.enqueued == x.log.written + InHand(x.proc) + Whats(x.queue)
    && (forall k :: 0 <= k < |x.log.enqueued| ==> Mine(x, x.log.enqueued[k]))
  }

  /** The queue is closed by the health check alone, under the mutex and behind the flag. */
  predicate QueueOk(x: Session) {
    && (x.queueClosed ==> x.closed)
    && (x.queueClosed <==> x.health.HasClosed())
    && (x.health.Closing? ==> x.closed)
    && (x.mu.ByHealth? <==> x.health.InLock())
    && (x.proc.Drained? ==> x.queueClosed && x.queue == [])
  }

  predicate EndOk(x: Session, now: int) {
    && x.created <= x.lastRecv <= now
    && (x.remote.Reading? ==> x.lastRecv == x.remote.since)
    && (x.health.Reaping() ==> now > x.created + x.idle)
    && (x.remote.Unlisting? || x.remote.HangingUp? || x.remote.Returning? || x.remote.Gone? ==> x.closed)
    && (x.health.Removing? || x.health.Over? || x.remote.Returning? ==> x.remoteClosed)
    && (x.health.Over? || x.remote.HangingUp? || x.remote.Returning? ==> x.deleted)
  }

  predicate LifeOk(x: Session, now: int) {
    QueueOk(x) && EndOk(x, now)
  }

  /** Session `i` only reads replies of its own. */
  ghost predicate RepliesOwn(x: Session, i: nat) {
    && (x.remote.Pushing? ==> x.remote.p.what.FromRemote? && x.remote.p.what.session == i)
    && (forall k :: 0 <= k < |x.log.read| ==> x.log.read[k].FromRemote? && x.log.read[k].session == i)
  }

  ghost predicate SessionOk(x: Session, i: nat, now: int) {
    HistoryOk(x) && LifeOk(x, now) && RepliesOwn(x, i)
  }

  ghost predicate SessionsOk(s: State) {
    forall i :: 0 <= i < |s.sessions| ==> SessionOk(s.sessions[i], i, s.now)
  }

  /** A packet on its way to session `sid`. */
  predicate Bound(sessions: seq<Session>, p: Packet, sid: nat) {
    sid < |sessions| && Mine(sessions[sid], p.what)
  }

  predicate ReaderOk(sessions: seq<Session>, l: nat, r: Reader) {
    match r
    case Received(p) => p.what.FromClient? && p.what.listener == l
    case Found(p, sid) => Bound(sessions, p, sid) && sessions[sid].listener == l
    case Checking(p, sid) => Bound(sessions, p, sid) && sessions[sid].listener == l && sessions[sid].mu.ByReader?
    case Sending(p, sid) =>
      && Bound(sessions, p, sid) && sessions[sid].listener == l
      && sessions[sid].mu.ByReader? && !sessions[sid].queueClosed
    case Releasing(sid) => sid < |sessions| && sessions[sid].listener == l && sessions[sid].mu.ByReader?
    case _ => true
  }

  predicate StarterOk(sessions: seq<Session>, r: Starter) {
    match r
    case Connecting(p) => p.what.FromClient?
    case Storing(p, sid) => Bound(sessions, p, sid)
    case FirstSend(p, sid) => Bound(sessions, p, sid)
    case Finished => true
  }

  /** A reply addressed to the client of the session it was read on. */
  predicate Addressed(sessions: seq<Session>, what: Datagram, src: Addr, listener: nat) {
    && what.FromRemote? && what.session < |sessions|
    && src == sessions[what.session].src && listener == sessions[what.session].listener
  }

  predicate WorkerOk(sessions: seq<Session>, r: Worker) {
    r.Replying? ==> Addressed(sessions, r.o.p.what, r.o.src, r.o.listener)
  }

  ghost predicate LinksOk(s: State) {
    && (forall l :: 0 <= l < |s.readers| ==> ReaderOk(s.sessions, l, s.readers[l]))
    && (forall k :: 0 <= k < |s.starters| ==> StarterOk(s.sessions, s.starters[k]))
    && (forall w :: 0 <= w < |s.workers| ==> WorkerOk(s.sessions, s.workers[w]))
    && (forall j :: 0 <= j < |s.outbound| ==>
          Addressed(s.sessions, s.outbound[j].p.what, s.outbound[j].src, s.outbound[j].listener))
    && (forall j :: 0 <= j < |s.log.sent| ==>
          Addressed(s.sessions, s.log.sent[j].what, s.log.sent[j].src, s.log.sent[j].listener))
  }

  /** Keys lead to sessions of that key; one that has been deleted was stored again afterwards. */
  ghost predicate TableOk(s: State) {
    forall key :: key in s.table ==>
      && s.table[key] < |s.sessions|
      && KeyOf(s.sessions[s.table[key]]) == key
      && (s.sessions[s.table[key]].deleted ==> s.sessions[s.table[key]].lateStore)
  }

  /** The only possible panic is a first send into a queue that has been closed. */
  ghost predicate PanicOk(s: State) {
    s.panic.Some? ==>
      s.panic.value.StarterSend? && s.panic.value.sid < |s.sessions| &&
      s.sessions[s.panic.value.sid].queueClosed
  }

  ghost predicate Inv(s: State) {
    OwnInv(s) && SessionsOk(s) && LinksOk(s) && TableOk(s) && PanicOk(s)
  }

  // ---- Sessions are only ever extended ----

  /** What no step undoes in a session. */
  predicate Successor(x: Session, x': Session) {
    && x'.listener == x.listener && x'.src == x.src && x'.idle == x.idle && x'.created == x.created
    && (x.closed ==> x'.closed) && (x.queueClosed ==> x'.queueClosed) && (x.deleted ==> x'.deleted)
    && x.log.enqueued <= x'.log.enqueued && x.log.written <= x'.log.written
  }

  ghost predicate Extends(s: State, s': State) {
    && |s.sessions| <= |s'.sessions|
    && (forall i :: 0 <= i < |s.sessions| ==> Successor(s.sessions[i], s'.sessions[i]))
  }

  lemma ReaderExtends(s: State, l: nat, op: ReaderOp)
    requires ReaderStep(s, l, op).Some?
    ensures Extends(s, ReaderStep(s, l, op).value)
  {
  }

  lemma StarterExtends(s: State, k: nat, op: StarterOp)
    requires StarterStep(s, k, op).Some?
    ensures Extends(s, StarterStep(s, k, op).value)
  {
  }

  /** Only session `i` has changed, to a successor. */
  ghost predicate Touches(s: State, s': State, i: nat) {
    && i < |s.sessions| == |s'.sessions|
    && s'.sessions == s.sessions[i := s'.sessions[i]]
    && Successor(s.sessions[i], s'.sessions[i])
    && s'.now == s.now
  }

  /** A health check leaves everything alone that datagrams pass through. */
  predicate SameTraffic(x: Session, x': Session) {
    && x'.queue == x.queue && x'.proc == x.proc && x'.remote == x.remote && x'.lastRecv == x.lastRecv
    && x'.log.enqueued == x.log.enqueued && x'.log.written == x.log.written && x'.log.read == x.log.read
  }

  lemma ProcTouches(s: State, i: nat, op: ProcOp)
    requires ProcStep(s, i, op).Some?
    ensures Touches(s, ProcStep(s, i, op).value, i)
  {
  }

  lemma RemoteTouches(s: State, i: nat, op: RemoteOp)
    requires RemoteStep(s, i, op).Some?
    ensures Touches(s, RemoteStep(s, i, op).value, i)
  {
  }

  lemma HealthTouches(s: State, i: nat, op: HealthOp)
    requires HealthStep(s, i, op).Some?
    ensures Touches(s, HealthStep(s, i, op).value, i)
  {
  }

  lemma HealthSparesTraffic(s: State, i: nat, op: HealthOp)
    requires HealthStep(s, i, op).Some?
    ensures SameTraffic(s.sessions[i], HealthStep(s, i, op).value.sessions[i])
  {
  }

  lemma StepExtends(s: State, a: Action)
    requires Step(s, a).Some?
    ensures Extends(s, Step(s, a).value)
  {
    match a
    case AReader(l, op) => ReaderExtends(s, l, op);
    case AStarter(k, op) => StarterExtends(s, k, op);
    case AProc(i, op) => ProcTouches(s, i, op);
    case ARemote(i, op) => RemoteTouches(s, i, op);
    case AHealth(i, op) => HealthTouches(s, i, op);
    case AWorker(w, op) =>
    case Tick(_) =>
  }

  // ---- Sessions, one goroutine at a time ----

  /** A goroutine that holds a packet finds its datagram in the buffer. */
  lemma HeldIsIntact(s: State, p: Packet)
    requires OwnInv(s)
    requires 1 <= Loaded(p, p.buf, Content(s, p.buf)) <= Weight(s, p.buf, Content(s, p.buf))
    ensures Contents(s, p) == p.what.bytes
  {
    assert Weight(s, p.buf, Content(s, p.buf)) == Allocated(s, p.buf);
  }

  lemma ProcKeepsHistory(s: State, i: nat, op: ProcOp)
    requires ProcStep(s, i, op).Some? && OwnInv(s) && HistoryOk(s.sessions[i])
    ensures HistoryOk(ProcStep(s, i, op).value.sessions[i])
  {
    var x := s.sessions[i];
    var x' := ProcStep(s, i, op).value.sessions[i];
    match op
    case PTake =>
      assert Whats(x.queue) == [x.queue[0].what] + Whats(x.queue[1..]);
    case PWrite =>
      var p := x.proc.p;
      SessionMoves(s, i, x, p.buf, Content(s, p.buf));
      HeldIsIntact(s, p);
      assert x'.log.written == x.log.written + [p.what];
    case _ =>
  }

  lemma EnqueueKeepsHistory(x: Session, p: Packet)
    requires HistoryOk(x) && Mine(x, p.what)
    ensures HistoryOk(Enqueue(x, p))
  {
    assert Whats(x.queue + [p]) == Whats(x.queue) + [p.what];
  }

  lemma ProcKeepsSession(s: State, i: nat, op: ProcOp)
    requires ProcStep(s, i, op).Some? && OwnInv(s) && SessionOk(s.sessions[i], i, s.now)
    ensures SessionOk(ProcStep(s, i, op).value.sessions[i], i, s.now)
  {
    ProcKeepsHistory(s, i, op);
  }

  lemma RemoteKeepsSession(s: State, i: nat, op: RemoteOp)
    requires RemoteStep(s, i, op).Some? && SessionOk(s.sessions[i], i, s.now)
    ensures SessionOk(RemoteStep(s, i, op).value.sessions[i], i, s.now)
  {
  }

  lemma HealthKeepsQueue(s: State, i: nat, op: HealthOp)
    requires HealthStep(s, i, op).Some? && QueueOk(s.sessions[i])
    ensures QueueOk(HealthStep(s, i, op).value.sessions[i])
  {
  }

  lemma HealthKeepsEnd(s: State, i: nat, op: HealthOp)
    requires HealthStep(s, i, op).Some? && EndOk(s.sessions[i], s.now)
    ensures EndOk(HealthStep(s, i, op).value.sessions[i], s.now)
  {
  }

  lemma HealthKeepsSession(s: State, i: nat, op: HealthOp)
    requires HealthStep(s, i, op).Some? && SessionOk(s.sessions[i], i, s.now)
    ensures SessionOk(HealthStep(s, i, op).value.sessions[i], i, s.now)
  {
    HealthKeepsQueue(s, i, op);
    HealthKeepsEnd(s, i, op);
    HealthSparesTraffic(s, i, op);
  }

  lemma ReaderKeepsSessions(s: State, l: nat, op: ReaderOp)
    requires ReaderStep(s, l, op).Some? && SessionsOk(s) && LinksOk(s)
    ensures SessionsOk(ReaderStep(s, l, op).value)
  {
    var r := s.readers[l];
    var s' := ReaderStep(s, l, op).value;
    assert ReaderOk(s.sessions, l, r);
    if op.RLock? || op.RSend? || op.RUnlock? {
      assert SessionOk(s.sessions[r.sid], r.sid, s.now);
      if op.RSend? {
        EnqueueKeepsHistory(s.sessions[r.sid], r.p);
      }
      TouchKeepsSessions(s, s', r.sid);
    } else {
      assert s'.sessions == s.sessions && s'.now == s.now;
    }
  }

  lemma StarterKeepsSessions(s: State, k: nat, op: StarterOp)
    requires StarterStep(s, k, op).Some? && SessionsOk(s) && LinksOk(s)
    ensures SessionsOk(StarterStep(s, k, op).value)
  {
    var r := s.starters[k];
    assert StarterOk(s.sessions, r);
    if op.SStore? || op.SSend? {
      assert SessionOk(s.sessions[r.sid], r.sid, s.now);
      EnqueueKeepsHistory(s.sessions[r.sid], r.p);
      TouchKeepsSessions(s, StarterStep(s, k, op).value, r.sid);
    }
  }

  lemma TouchKeepsSessions(s: State, s': State, i: nat)
    requires SessionsOk(s) && Touches(s, s', i) && SessionOk(s'.sessions[i], i, s.now)
    ensures SessionsOk(s')
  {
  }

  lemma TickKeepsSessions(s: State, dt: nat)
    requires SessionsOk(s)
    ensures SessionsOk(s.(now := s.now + dt))
  {
    forall i | 0 <= i < |s.sessions| ensures SessionOk(s.sessions[i], i, s.now + dt) {
      assert SessionOk(s.sessions[i], i, s.now);
    }
  }

  lemma StepKeepsSessions(s: State, a: Action)
    requires Step(s, a).Some? && OwnInv(s) && SessionsOk(s) && LinksOk(s)
    ensures SessionsOk(Step(s, a).value)
  {
    var s' := Step(s, a).value;
    match a
    case AReader(l, op) => ReaderKeepsSessions(s, l, op);
    case AStarter(k, op) => StarterKeepsSessions(s, k, op);
    case AProc(i, op) =>
      ProcTouches(s, i, op);
      ProcKeepsSession(s, i, op);
      TouchKeepsSessions(s, s', i);
    case ARemote(i, op) =>
      RemoteTouches(s, i, op);
      RemoteKeepsSession(s, i, op);
      TouchKeepsSessions(s, s', i);
    case AHealth(i, op) =>
      HealthTouches(s, i, op);
      HealthKeepsSession(s, i, op);
      TouchKeepsSessions(s, s', i);
    case AWorker(w, op) => assert s'.sessions == s.sessions && s'.now == s.now;
    case Tick(dt) => TickKeepsSessions(s, dt);
  }

  // ---- Links between goroutines and sessions ----

  /** A session a listener has locked stays locked and open. */
  predicate Respects(x: Session, x': Session) {
    && Successor(x, x')
    && (x.mu.ByReader? ==> x'.mu.ByReader? && x'.queueClosed == x.queueClosed)
  }

  ghost predicate Respectful(xs: seq<Session>, xs': seq<Session>) {
    |xs| <= |xs'| && forall i :: 0 <= i < |xs| ==> Respects(xs[i], xs'[i])
  }

  lemma ReaderOkFrame(xs: seq<Session>, xs': seq<Session>, l: nat, r: Reader)
    requires ReaderOk(xs, l, r) && Respectful(xs, xs')
    ensures ReaderOk(xs', l, r)
  {
  }

  lemma LinksFrame(s: State, s': State)
    requires LinksOk(s) && Respectful(s.sessions, s'.sessions)
    requires s'.readers == s.readers && s'.starters == s.starters && s'.workers == s.workers
    requires s'.outbound == s.outbound && s'.log.sent == s.log.sent
    ensures LinksOk(s')
  {
    forall l | 0 <= l < |s.readers| ensures ReaderOk(s'.sessions, l, s.readers[l]) {
      ReaderOkFrame(s.sessions, s'.sessions, l, s.readers[l]);
    }
  }

  /** A step of `healthCheck` finds a listener's lock taken. */
  lemma HealthRespects(s: State, i: nat, op: HealthOp)
    requires HealthStep(s, i, op).Some? && LifeOk(s.sessions[i], s.now)
    ensures Respects(s.sessions[i], HealthStep(s, i, op).value.sessions[i])
  {
  }

  lemma ProcRespects(s: State, i: nat, op: ProcOp)
    requires ProcStep(s, i, op).Some?
    ensures Respects(s.sessions[i], ProcStep(s, i, op).value.sessions[i])
  {
  }

  lemma RemoteRespects(s: State, i: nat, op: RemoteOp)
    requires RemoteStep(s, i, op).Some?
    ensures Respects(s.sessions[i], RemoteStep(s, i, op).value.sessions[i])
  {
  }

  lemma RemoteKeepsLinks(s: State, i: nat, op: RemoteOp)
    requires RemoteStep(s, i, op).Some? && LinksOk(s) && RepliesOwn(s.sessions[i], i)
    ensures LinksOk(RemoteStep(s, i, op).value)
  {
    var s' := RemoteStep(s, i, op).value;
    RemoteRespects(s, i, op);
    RemoteTouches(s, i, op);
    LinksFrame(s, s'.(outbound := s.outbound));
  }

  lemma WorkerKeepsLinks(s: State, w: nat, op: WorkerOp)
    requires WorkerStep(s, w, op).Some? && LinksOk(s)
    ensures LinksOk(WorkerStep(s, w, op).value)
  {
    assert WorkerOk(s.sessions, s.workers[w]);
  }

  lemma StarterKeepsLinks(s: State, k: nat, op: StarterOp)
    requires StarterStep(s, k, op).Some? && LinksOk(s)
    ensures LinksOk(StarterStep(s, k, op).value)
  {
    var s' := StarterStep(s, k, op).value;
    assert StarterOk(s.sessions, s.starters[k]);
    assert Respectful(s.sessions, s'.sessions);
    LinksFrame(s, s'.(starters := s.starters));
  }

  /** The sessions one listener locks are never those of another. */
  lemma OtherReaders(s: State, s': State, l: nat, i: nat)
    requires LinksOk(s) && i < |s.sessions| == |s'.sessions| && s.sessions[i].listener == l
    requires s'.sessions == s.sessions[i := s'.sessions[i]] && Successor(s.sessions[i], s'.sessions[i])
    ensures forall m :: 0 <= m < |s.readers| && m != l ==> ReaderOk(s'.sessions, m, s.readers[m])
  {
  }

  lemma LoadFindsItsSession(s: State, l: nat)
    requires ReaderStep(s, l, RLoad).Some? && LinksOk(s) && TableOk(s)
    ensures LinksOk(ReaderStep(s, l, RLoad).value)
  {
    assert ReaderOk(s.sessions, l, s.readers[l]);
  }

  /** Listener `l` becomes `r` and its session `i` becomes `x`. */
  lemma ReaderSessionLinks(s: State, l: nat, r: Reader, i: nat, x: Session)
    requires LinksOk(s) && l < |s.readers| && i < |s.sessions| && s.sessions[i].listener == l
    requires Successor(s.sessions[i], x) && ReaderOk(s.sessions[i := x], l, r)
    ensures LinksOk(SetReader(SetSession(s, i, x), l, r))
  {
    OtherReaders(s, SetSession(s, i, x), l, i);
  }

  lemma ReaderKeepsLinks(s: State, l: nat, op: ReaderOp)
    requires ReaderStep(s, l, op).Some? && LinksOk(s) && SessionsOk(s) && TableOk(s)
    ensures LinksOk(ReaderStep(s, l, op).value)
    ensures ReaderStep(s, l, op).value.panic == s.panic
  {
    var r := s.readers[l];
    assert ReaderOk(s.sessions, l, r);
    match op
    case RLoad => LoadFindsItsSession(s, l);
    case RLock => ReaderSessionLinks(s, l, Checking(r.p, r.sid), r.sid, s.sessions[r.sid].(mu := ByReader));
    case RCheck => assert SessionOk(s.sessions[r.sid], r.sid, s.now);
    case RSend => ReaderSessionLinks(s, l, Releasing(r.sid), r.sid, Enqueue(s.sessions[r.sid], r.p));
    case RUnlock => ReaderSessionLinks(s, l, Idle, r.sid, s.sessions[r.sid].(mu := Free));
    case RGet(_) =>
    case RReceive(_, _) =>
    case RError =>
  }

  lemma ProcKeepsLinks(s: State, i: nat, op: ProcOp)
    requires ProcStep(s, i, op).Some? && LinksOk(s)
    ensures LinksOk(ProcStep(s, i, op).value)
  {
    ProcTouches(s, i, op);
    ProcRespects(s, i, op);
    LinksFrame(s, ProcStep(s, i, op).value);
  }

  lemma HealthKeepsLinks(s: State, i: nat, op: HealthOp)
    requires HealthStep(s, i, op).Some? && LinksOk(s) && LifeOk(s.sessions[i], s.now)
    ensures LinksOk(HealthStep(s, i, op).value)
  {
    HealthTouches(s, i, op);
    HealthRespects(s, i, op);
    LinksFrame(s, HealthStep(s, i, op).value);
  }

  lemma StepKeepsLinks(s: State, a: Action)
    requires Step(s, a).Some? && LinksOk(s) && SessionsOk(s) && TableOk(s)
    ensures LinksOk(Step(s, a).value)
  {
    match a
    case AReader(l, op) => ReaderKeepsLinks(s, l, op);
    case AStarter(k, op) => StarterKeepsLinks(s, k, op);
    case AProc(i, op) => ProcKeepsLinks(s, i, op);
    case ARemote(i, op) =>
      assert SessionOk(s.sessions[i], i, s.now);
      RemoteKeepsLinks(s, i, op);
    case AHealth(i, op) =>
      assert SessionOk(s.sessions[i], i, s.now);
      HealthKeepsLinks(s, i, op);
    case AWorker(w, op) => WorkerKeepsLinks(s, w, op);
    case Tick(_) =>
  }

  // ---- The table ----

  lemma TableFrame(s: State, s': State)
    requires TableOk(s) && s'.table == s.table && Extends(s, s')
    requires forall i :: 0 <= i < |s.sessions| ==>
      s'.sessions[i].deleted == s.sessions[i].deleted && s'.sessions[i].lateStore == s.sessions[i].lateStore
    ensures TableOk(s')
  {
  }

  /** Deleting a session's key. */
  lemma DeleteKeepsTable(s: State, s': State, i: nat)
    requires TableOk(s) && Touches(s, s', i)
    requires s'.table == s.table - {KeyOf(s.sessions[i])}
    ensures TableOk(s')
  {
  }

  lemma StarterKeepsTable(s: State, k: nat, op: StarterOp)
    requires StarterStep(s, k, op).Some? && TableOk(s)
    ensures TableOk(StarterStep(s, k, op).value)
  {
  }

  lemma RemoteKeepsTable(s: State, i: nat, op: RemoteOp)
    requires RemoteStep(s, i, op).Some? && TableOk(s)
    ensures TableOk(RemoteStep(s, i, op).value)
  {
    RemoteTouches(s, i, op);
    if op.MUnlist? {
      DeleteKeepsTable(s, RemoteStep(s, i, op).value, i);
    } else {
      TableFrame(s, RemoteStep(s, i, op).value);
    }
  }

  lemma HealthKeepsTable(s: State, i: nat, op: HealthOp)
    requires HealthStep(s, i, op).Some? && TableOk(s)
    ensures TableOk(HealthStep(s, i, op).value)
  {
    HealthTouches(s, i, op);
    if op.HRemove? {
      DeleteKeepsTable(s, HealthStep(s, i, op).value, i);
    } else {
      TableFrame(s, HealthStep(s, i, op).value);
    }
  }

  lemma ReaderKeepsTable(s: State, l: nat, op: ReaderOp)
    requires ReaderStep(s, l, op).Some? && TableOk(s)
    ensures TableOk(ReaderStep(s, l, op).value)
  {
    ReaderExtends(s, l, op);
    TableFrame(s, ReaderStep(s, l, op).value);
  }

  lemma ProcKeepsTable(s: State, i: nat, op: ProcOp)
    requires ProcStep(s, i, op).Some? && TableOk(s)
    ensures TableOk(ProcStep(s, i, op).value)
  {
    ProcTouches(s, i, op);
    TableFrame(s, ProcStep(s, i, op).value);
  }

  lemma StepKeepsTable(s: State, a: Action)
    requires Step(s, a).Some? && TableOk(s)
    ensures TableOk(Step(s, a).value)
  {
    match a
    case AReader(l, op) => ReaderKeepsTable(s, l, op);
    case AStarter(k, op) => StarterKeepsTable(s, k, op);
    case AProc(i, op) => ProcKeepsTable(s, i, op);
    case ARemote(i, op) => RemoteKeepsTable(s, i, op);
    case AHealth(i, op) => HealthKeepsTable(s, i, op);
    case AWorker(w, op) =>
    case Tick(_) =>
  }

  // ---- Together ----

  lemma StepKeepsPanic(s: State, a: Action)
    requires Step(s, a).Some? && LinksOk(s) && SessionsOk(s) && TableOk(s)
    ensures PanicOk(Step(s, a).value)
  {
    match a
    case AReader(l, op) => ReaderKeepsLinks(s, l, op);
    case AHealth(i, op) => assert SessionOk(s.sessions[i], i, s.now);
    case _ =>
  }

  lemma InvInductive()
    ensures Inductive(Step, Inv)
  {
    forall s, a | Inv(s) && Step(s, a).Some? ensures Inv(Step(s, a).value) {
      StepKeepsOwnership(s, a);
      StepKeepsSessions(s, a);
      StepKeepsLinks(s, a);
      StepKeepsTable(s, a);
      StepKeepsPanic(s, a);
    }
  }
}
