/** No reply is lost, repeated or altered between the remote end of a session and its client. */
module UdpReplies {
  import opened Bytes
  import opened Runs
  import opened Tally
  import opened UdpModel
  import opened UdpOwnership
  import opened UdpSessions

  function Same(d: Datagram, e: Datagram): nat {
    if d == e then 1 else 0
  }

  ghost function IsW(d: Datagram): Datagram -> nat { (e: Datagram) => Same(d, e) }
  ghost function SentW(d: Datagram): Sent -> nat { (e: Sent) => Same(d, e.what) }
  ghost function QueuedW(d: Datagram): Outbound -> nat { (o: Outbound) => Same(d, o.p.what) }

  function CarriedBy(r: Worker, d: Datagram): nat {
    if r.Replying? then Same(d, r.o.p.what) else 0
  }

  ghost function CarriedW(d: Datagram): Worker -> nat { (r: Worker) => CarriedBy(r, d) }

  function PendingIn(x: Session, d: Datagram): nat {
    if x.remote.Pushing? then Same(d, x.remote.p.what) else 0
  }

  ghost function PendingW(d: Datagram): Session -> nat { (x: Session) => PendingIn(x, d) }
  ghost function ReadW(d: Datagram): Session -> nat { (x: Session) => Sum(x.log.read, IsW(d)) }

  /** How often `d` was read from a remote end. */
  ghost function TimesRead(s: State, d: Datagram): nat {
    Sum(s.sessions, ReadW(d))
  }

  /** How often `d` is held by its reader, queued, held by a worker, or sent to a client. */
  ghost function TimesCarried(s: State, d: Datagram): nat {
    Sum(s.sessions, PendingW(d)) + Sum(s.outbound, QueuedW(d)) + Sum(s.workers, CarriedW(d))
    + Sum(s.log.sent, SentW(d))
  }

  ghost predicate RepliesOk(s: State) {
    forall d :: TimesRead(s, d) == TimesCarried(s, d)
  }

  /** Session `i` became `x`; nothing else that concerns replies has changed. */
  lemma SessionBalances(s: State, s': State, i: nat, d: Datagram)
    requires i < |s.sessions| == |s'.sessions| && s'.sessions == s.sessions[i := s'.sessions[i]]
    requires s'.workers == s.workers && s'.log.sent == s.log.sent
    ensures TimesRead(s', d) - TimesRead(s, d) == ReadW(d)(s'.sessions[i]) - ReadW(d)(s.sessions[i])
    ensures TimesCarried(s', d) - TimesCarried(s, d) ==
            PendingIn(s'.sessions[i], d) - PendingIn(s.sessions[i], d)
            + Sum(s'.outbound, QueuedW(d)) - Sum(s.outbound, QueuedW(d))
  {
    SumUpdate(s.sessions, i, s'.sessions[i], ReadW(d));
    SumUpdate(s.sessions, i, s'.sessions[i], PendingW(d));
  }

  /** What a listener does without a lock does not concern replies. */
  lemma ReaderSpares(s: State, l: nat, op: ReaderOp)
    requires ReaderStep(s, l, op).Some? && !op.RLock? && !op.RSend? && !op.RUnlock?
    ensures var s' := ReaderStep(s, l, op).value;
      s'.sessions == s.sessions && s'.outbound == s.outbound && s'.workers == s.workers && s'.log.sent == s.log.sent
  {
  }

  lemma ReaderBalances(s: State, l: nat, op: ReaderOp, d: Datagram)
    requires ReaderStep(s, l, op).Some?
    ensures var s' := ReaderStep(s, l, op).value;
      TimesRead(s', d) == TimesRead(s, d) && TimesCarried(s', d) == TimesCarried(s, d)
  {
    if op.RLock? || op.RSend? || op.RUnlock? {
      SessionBalances(s, ReaderStep(s, l, op).value, s.readers[l].sid, d);
    } else {
      ReaderSpares(s, l, op);
    }
  }

  /** A new session has read nothing. */
  lemma ConnectBalances(s: State, k: nat, ok: bool, d: Datagram)
    requires StarterStep(s, k, SConnect(ok)).Some?
    ensures var s' := StarterStep(s, k, SConnect(ok)).value;
      TimesRead(s', d) == TimesRead(s, d) && TimesCarried(s', d) == TimesCarried(s, d)
  {
    if ok {
      var x := StarterStep(s, k, SConnect(ok)).value.sessions[|s.sessions|];
      SumAppend(s.sessions, x, ReadW(d));
      SumAppend(s.sessions, x, PendingW(d));
    }
  }

  lemma StarterBalances(s: State, k: nat, op: StarterOp, d: Datagram)
    requires StarterStep(s, k, op).Some?
    ensures var s' := StarterStep(s, k, op).value;
      TimesRead(s', d) == TimesRead(s, d) && TimesCarried(s', d) == TimesCarried(s, d)
  {
    var s' := StarterStep(s, k, op).value;
    if op.SConnect? {
      ConnectBalances(s, k, op.ok, d);
    } else {
      SessionBalances(s, s', s.starters[k].sid, d);
    }
  }

  lemma RemoteBalances(s: State, i: nat, op: RemoteOp, d: Datagram)
    requires RemoteStep(s, i, op).Some?
    ensures var s' := RemoteStep(s, i, op).value;
      TimesRead(s', d) - TimesRead(s, d) == TimesCarried(s', d) - TimesCarried(s, d)
  {
    var x := s.sessions[i];
    var s' := RemoteStep(s, i, op).value;
    SessionBalances(s, s', i, d);
    if op.MReceive? {
      SumAppend(x.log.read, s'.sessions[i].remote.p.what, IsW(d));
    } else if op.MPush? {
      SumAppend(s.outbound, Outbound(x.remote.p, x.src, x.listener), QueuedW(d));
    }
  }

  lemma WorkerBalances(s: State, w: nat, op: WorkerOp, d: Datagram)
    requires WorkerStep(s, w, op).Some? && OwnInv(s)
    ensures var s' := WorkerStep(s, w, op).value;
      TimesRead(s', d) == TimesRead(s, d) && TimesCarried(s', d) == TimesCarried(s, d)
  {
    var r := s.workers[w];
    var s' := WorkerStep(s, w, op).value;
    SumUpdate(s.workers, w, s'.workers[w], CarriedW(d));
    if op.WWrite? {
      var p := r.o.p;
      WorkerMoves(s, w, r, p.buf, Content(s, p.buf));
      HeldIsIntact(s, p);
      SumAppend(s.log.sent, s'.log.sent[|s.log.sent|], SentW(d));
    }
  }

  lemma ProcBalances(s: State, i: nat, op: ProcOp, d: Datagram)
    requires ProcStep(s, i, op).Some?
    ensures var s' := ProcStep(s, i, op).value;
      TimesRead(s', d) == TimesRead(s, d) && TimesCarried(s', d) == TimesCarried(s, d)
  {
    SessionBalances(s, ProcStep(s, i, op).value, i, d);
  }

  lemma HealthBalances(s: State, i: nat, op: HealthOp, d: Datagram)
    requires HealthStep(s, i, op).Some?
    ensures var s' := HealthStep(s, i, op).value;
      TimesRead(s', d) == TimesRead(s, d) && TimesCarried(s', d) == TimesCarried(s, d)
  {
    HealthTouches(s, i, op);
    HealthSparesTraffic(s, i, op);
    SessionBalances(s, HealthStep(s, i, op).value, i, d);
  }

  lemma StepBalances(s: State, a: Action, d: Datagram)
    requires Step(s, a).Some? && OwnInv(s)
    ensures var s' := Step(s, a).value;
      TimesRead(s', d) - TimesRead(s, d) == TimesCarried(s', d) - TimesCarried(s, d)
  {
    match a
    case AReader(l, op) => ReaderBalances(s, l, op, d);
    case AStarter(k, op) => StarterBalances(s, k, op, d);
    case AProc(i, op) => ProcBalances(s, i, op, d);
    case ARemote(i, op) => RemoteBalances(s, i, op, d);
    case AHealth(i, op) => HealthBalances(s, i, op, d);
    case AWorker(w, op) => WorkerBalances(s, w, op, d);
    case Tick(_) =>
  }

  lemma StepKeepsReplies(s: State, a: Action)
    requires Step(s, a).Some? && OwnInv(s) && RepliesOk(s)
    ensures RepliesOk(Step(s, a).value)
  {
    forall d ensures TimesRead(Step(s, a).value, d) == TimesCarried(Step(s, a).value, d) {
      StepBalances(s, a, d);
    }
  }
}
