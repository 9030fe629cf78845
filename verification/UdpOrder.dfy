/** Replies of client/udp.go in order: what a session reads from its remote end passes through the
    outbound queue first in, first out. */
module UdpOrder {
  import opened Bytes
  import opened Runs
  import opened Tally
  import opened UdpModel
  import opened UdpOwnership
  import opened UdpSessions
  import opened UdpResults

  /** The replies of session `i` among the given datagrams. */
  function Of(i: nat, ds: seq<Datagram>): seq<Datagram> {
    if ds == [] then [] else Only(i, ds[0]) + Of(i, ds[1..])
  }

  function Only(i: nat, d: Datagram): seq<Datagram> {
    if d.FromRemote? && d.session == i then [d] else []
  }

  function Carried(os: seq<Outbound>): seq<Datagram> {
    seq(|os|, k requires 0 <= k < |os| => os[k].p.what)
  }

  function Pushed(x: Session): seq<Datagram> {
    if x.remote.Pushing? then [x.remote.p.what] else []
  }

  lemma {:induction false} OfAppend(i: nat, ds: seq<Datagram>, d: Datagram)
    ensures Of(i, ds + [d]) == Of(i, ds) + Only(i, d)
  {
    if ds == [] {
      assert ds + [d] == [d];
      assert Of(i, [d]) == Only(i, d) + Of(i, []);
    } else {
      assert (ds + [d])[1..] == ds[1..] + [d];
      OfAppend(i, ds[1..], d);
    }
  }

  lemma {:induction false} OfNothing(i: nat, ds: seq<Datagram>)
    requires forall k :: 0 <= k < |ds| ==> !ds[k].FromRemote? || ds[k].session != i
    ensures Of(i, ds) == []
  {
    if ds != [] {
      OfNothing(i, ds[1..]);
    }
  }

  /** What is behind session `i` and ahead of its client, in order. */
  function Line(s: State, i: nat): seq<Datagram>
    requires i < |s.sessions|
  {
    Of(i, s.log.taken) + Of(i, Carried(s.outbound)) + Pushed(s.sessions[i])
  }

  ghost predicate OrderOk(s: State) {
    && (forall i :: 0 <= i < |s.sessions| ==> Line(s, i) == s.sessions[i].log.read)
    && (forall k :: 0 <= k < |s.log.taken| ==> s.log.taken[k].FromRemote? && s.log.taken[k].session < |s.sessions|)
  }

  /** Steps that do not concern replies. */
  ghost predicate Aside(s: State, s': State) {
    && s'.log.taken == s.log.taken && s'.outbound == s.outbound && |s'.sessions| == |s.sessions|
    && (forall i :: 0 <= i < |s.sessions| ==>
          s'.sessions[i].remote == s.sessions[i].remote && s'.sessions[i].log.read == s.sessions[i].log.read)
  }

  lemma AsideKeepsOrder(s: State, s': State)
    requires OrderOk(s) && Aside(s, s')
    ensures OrderOk(s')
  {
    forall i | 0 <= i < |s'.sessions| ensures Line(s', i) == s'.sessions[i].log.read {
      assert Line(s, i) == s.sessions[i].log.read;
    }
  }

  lemma ReaderAside(s: State, l: nat, op: ReaderOp)
    requires ReaderStep(s, l, op).Some?
    ensures Aside(s, ReaderStep(s, l, op).value)
  {
  }

  lemma ProcAside(s: State, i: nat, op: ProcOp)
    requires ProcStep(s, i, op).Some?
    ensures Aside(s, ProcStep(s, i, op).value)
  {
  }

  lemma HealthAside(s: State, i: nat, op: HealthOp)
    requires HealthStep(s, i, op).Some?
    ensures Aside(s, HealthStep(s, i, op).value)
  {
    HealthTouches(s, i, op);
    HealthSparesTraffic(s, i, op);
    HealthSparesReplies(s, i, op);
  }

  lemma HealthSparesReplies(s: State, i: nat, op: HealthOp)
    requires HealthStep(s, i, op).Some?
    ensures HealthStep(s, i, op).value.log.taken == s.log.taken && HealthStep(s, i, op).value.outbound == s.outbound
  {
  }

  lemma StarterAside(s: State, k: nat, op: StarterOp)
    requires StarterStep(s, k, op).Some? && op != SConnect(true)
    ensures Aside(s, StarterStep(s, k, op).value)
  {
  }

  /** A new session has no replies yet. */
  lemma ConnectKeepsOrder(s: State, k: nat)
    requires StarterStep(s, k, SConnect(true)).Some? && LinksOk(s) && OrderOk(s)
    ensures OrderOk(StarterStep(s, k, SConnect(true)).value)
  {
    var s' := StarterStep(s, k, SConnect(true)).value;
    var i := |s.sessions|;
    OfNothing(i, s.log.taken);
    OfNothing(i, Carried(s.outbound));
    forall j | 0 <= j < |s'.sessions| ensures Line(s', j) == s'.sessions[j].log.read {
      assert j < i ==> Line(s, j) == s.sessions[j].log.read;
    }
  }

  lemma StarterKeepsOrder(s: State, k: nat, op: StarterOp)
    requires StarterStep(s, k, op).Some? && LinksOk(s) && OrderOk(s)
    ensures OrderOk(StarterStep(s, k, op).value)
  {
    if op == SConnect(true) {
      ConnectKeepsOrder(s, k);
    } else {
      StarterAside(s, k, op);
      AsideKeepsOrder(s, StarterStep(s, k, op).value);
    }
  }

  lemma PushKeepsOrder(s: State, i: nat)
    requires RemoteStep(s, i, MPush).Some? && OrderOk(s) && RepliesOwn(s.sessions[i], i)
    ensures OrderOk(RemoteStep(s, i, MPush).value)
  {
    var s' := RemoteStep(s, i, MPush).value;
    var p := s.sessions[i].remote.p;
    assert Carried(s'.outbound) == Carried(s.outbound) + [p.what];
    forall j | 0 <= j < |s'.sessions| ensures Line(s', j) == s'.sessions[j].log.read {
      assert Line(s, j) == s.sessions[j].log.read;
      OfAppend(j, Carried(s.outbound), p.what);
    }
  }

  lemma ReceiveKeepsOrder(s: State, i: nat, data: seq<Byte>)
    requires RemoteStep(s, i, MReceive(data)).Some? && OrderOk(s)
    ensures OrderOk(RemoteStep(s, i, MReceive(data)).value)
  {
    var s' := RemoteStep(s, i, MReceive(data)).value;
    forall j | 0 <= j < |s'.sessions| ensures Line(s', j) == s'.sessions[j].log.read {
      assert Line(s, j) == s.sessions[j].log.read;
    }
  }

  lemma RemoteAside(s: State, i: nat, op: RemoteOp)
    requires RemoteStep(s, i, op).Some? && !op.MPush? && !op.MReceive?
    ensures var s' := RemoteStep(s, i, op).value;
      && s'.log.taken == s.log.taken && s'.outbound == s.outbound && s'.sessions[i].log.read == s.sessions[i].log.read
      && !s'.sessions[i].remote.Pushing? && !s.sessions[i].remote.Pushing?
  {
  }

  lemma RemoteKeepsOrder(s: State, i: nat, op: RemoteOp)
    requires RemoteStep(s, i, op).Some? && OrderOk(s) && RepliesOwn(s.sessions[i], i)
    ensures OrderOk(RemoteStep(s, i, op).value)
  {
    var s' := RemoteStep(s, i, op).value;
    match op
    case MPush => PushKeepsOrder(s, i);
    case MReceive(data) => ReceiveKeepsOrder(s, i, data);
    case _ =>
      RemoteTouches(s, i, op);
      RemoteAside(s, i, op);
      forall j | 0 <= j < |s'.sessions| ensures Line(s', j) == s'.sessions[j].log.read {
        assert Line(s, j) == s.sessions[j].log.read;
      }
  }

  lemma LineTakes(i: nat, taken: seq<Datagram>, d: Datagram, rest: seq<Datagram>, last: seq<Datagram>)
    ensures Of(i, taken + [d]) + Of(i, rest) + last == Of(i, taken) + Of(i, [d] + rest) + last
  {
    OfAppend(i, taken, d);
    assert ([d] + rest)[1..] == rest;
    assert Of(i, taken) + Only(i, d) + Of(i, rest) == Of(i, taken) + (Only(i, d) + Of(i, rest));
  }

  lemma TakeKeepsOrder(s: State, w: nat)
    requires WorkerStep(s, w, WTake).Some? && LinksOk(s) && OrderOk(s)
    ensures OrderOk(WorkerStep(s, w, WTake).value)
  {
    var s' := WorkerStep(s, w, WTake).value;
    var d := s.outbound[0].p.what;
    assert Addressed(s.sessions, d, s.outbound[0].src, s.outbound[0].listener);
    assert Carried(s.outbound) == [d] + Carried(s'.outbound);
    forall j | 0 <= j < |s'.sessions| ensures Line(s', j) == s'.sessions[j].log.read {
      assert Line(s, j) == s.sessions[j].log.read;
      LineTakes(j, s.log.taken, d, Carried(s'.outbound), Pushed(s.sessions[j]));
    }
  }

  lemma StepKeepsOrder(s: State, a: Action)
    requires Step(s, a).Some? && LinksOk(s) && SessionsOk(s) && OrderOk(s)
    ensures OrderOk(Step(s, a).value)
  {
    var s' := Step(s, a).value;
    match a
    case AReader(l, op) => ReaderAside(s, l, op); AsideKeepsOrder(s, s');
    case AStarter(k, op) => StarterKeepsOrder(s, k, op);
    case AProc(i, op) => ProcAside(s, i, op); AsideKeepsOrder(s, s');
    case ARemote(i, op) =>
      assert SessionOk(s.sessions[i], i, s.now);
      RemoteKeepsOrder(s, i, op);
    case AHealth(i, op) => HealthAside(s, i, op); AsideKeepsOrder(s, s');
    case AWorker(w, op) =>
      if op.WTake? {
        TakeKeepsOrder(s, w);
      } else {
        AsideKeepsOrder(s, s');
      }
    case Tick(_) => AsideKeepsOrder(s, s');
  }

  // ---- One worker ----

  function SentWhats(sent: seq<Sent>): seq<Datagram> {
    seq(|sent|, k requires 0 <= k < |sent| => sent[k].what)
  }

  function InWork(r: Worker): seq<Datagram> {
    if r.Replying? then [r.o.p.what] else []
  }

  /** A single worker sends what it takes, one after the other. */
  ghost predicate SingleOk(s: State) {
    |s.workers| == 1 && SentWhats(s.log.sent) + InWork(s.workers[0]) == s.log.taken
  }

  lemma WorkerSingle(s: State, w: nat, op: WorkerOp)
    requires WorkerStep(s, w, op).Some? && OwnInv(s) && SingleOk(s)
    ensures SingleOk(WorkerStep(s, w, op).value)
  {
    var s' := WorkerStep(s, w, op).value;
    if op.WWrite? {
      var p := s.workers[w].o.p;
      WorkerMoves(s, w, s.workers[w], p.buf, Content(s, p.buf));
      HeldIsIntact(s, p);
      assert SentWhats(s'.log.sent) == SentWhats(s.log.sent) + [p.what];
    }
  }

  /** Only workers touch what workers have. */
  ghost predicate SameWork(s: State, s': State) {
    s'.workers == s.workers && s'.log.sent == s.log.sent && s'.log.taken == s.log.taken
  }

  lemma ReaderSameWork(s: State, l: nat, op: ReaderOp)
    requires ReaderStep(s, l, op).Some?
    ensures SameWork(s, ReaderStep(s, l, op).value)
  {
  }

  lemma StarterSameWork(s: State, k: nat, op: StarterOp)
    requires StarterStep(s, k, op).Some?
    ensures SameWork(s, StarterStep(s, k, op).value)
  {
  }

  lemma ProcSameWork(s: State, i: nat, op: ProcOp)
    requires ProcStep(s, i, op).Some?
    ensures SameWork(s, ProcStep(s, i, op).value)
  {
  }

  lemma RemoteSameWork(s: State, i: nat, op: RemoteOp)
    requires RemoteStep(s, i, op).Some?
    ensures SameWork(s, RemoteStep(s, i, op).value)
  {
  }

  lemma HealthSameWork(s: State, i: nat, op: HealthOp)
    requires HealthStep(s, i, op).Some?
    ensures SameWork(s, HealthStep(s, i, op).value)
  {
  }

  lemma StepSingle(s: State, a: Action)
    requires Step(s, a).Some? && OwnInv(s) && SingleOk(s)
    ensures SingleOk(Step(s, a).value)
  {
    match a
    case AReader(l, op) => ReaderSameWork(s, l, op);
    case AStarter(k, op) => StarterSameWork(s, k, op);
    case AProc(i, op) => ProcSameWork(s, i, op);
    case ARemote(i, op) => RemoteSameWork(s, i, op);
    case AHealth(i, op) => HealthSameWork(s, i, op);
    case AWorker(w, op) => WorkerSingle(s, w, op);
    case Tick(_) =>
  }

  lemma OrderHolds(timeouts: seq<int>, cpus: nat, now: int, run: seq<Action>, s: State)
    requires Reaches(timeouts, cpus, now, run, s)
    ensures OrderOk(s) && (cpus == 1 ==> SingleOk(s))
  {
    var inv := (t: State) => Inv(t) && OrderOk(t) && (cpus == 1 ==> SingleOk(t));
    InitHolds(timeouts, cpus, now);
    InvInductive();
    forall t: State, a: Action | inv(t) && Step(t, a).Some? ensures inv(Step(t, a).value) {
      StepKeepsOrder(t, a);
      if cpus == 1 {
        StepSingle(t, a);
      }
    }
    InvariantHolds(Step, inv, Init(timeouts, cpus, now), run);
  }

  /** Replies keep their order: for any number of workers, what has been taken from the outbound queue
      of session `i`'s replies, what is queued of them, and what the session is about to push are
      together, in this order, exactly what it read. */
  lemma RepliesLeaveInOrder(timeouts: seq<int>, cpus: nat, now: int, run: seq<Action>, s: State, i: nat)
    requires Reaches(timeouts, cpus, now, run, s) && i < |s.sessions|
    ensures Of(i, s.log.taken) + Of(i, Carried(s.outbound)) + Pushed(s.sessions[i]) == s.sessions[i].log.read
  {
    OrderHolds(timeouts, cpus, now, run, s);
    assert Line(s, i) == s.sessions[i].log.read;
  }

  /** And a single worker sends them in that order, byte for byte. */
  lemma OneWorkerSendsInOrder(timeouts: seq<int>, now: int, run: seq<Action>, s: State, i: nat)
    requires Reaches(timeouts, 1, now, run, s) && i < |s.sessions|
    ensures |s.workers| == 1
    ensures Of(i, SentWhats(s.log.sent)) + Of(i, InWork(s.workers[0])) + Of(i, Carried(s.outbound))
            + Pushed(s.sessions[i]) == s.sessions[i].log.read
  {
    OrderHolds(timeouts, 1, now, run, s);
    assert Line(s, i) == s.sessions[i].log.read;
    if s.workers[0].Replying? {
      OfAppend(i, SentWhats(s.log.sent), s.workers[0].o.p.what);
      assert Of(i, [s.workers[0].o.p.what]) == Only(i, s.workers[0].o.p.what) + Of(i, []);
    } else {
      assert SentWhats(s.log.sent) + [] == SentWhats(s.log.sent);
    }
  }
}
