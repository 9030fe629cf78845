/** The guarantees of client/udp.go over every run: any number of listeners, sources, sessions and
    workers, in any interleaving. */
module UdpResults {
  import opened Bytes
  import opened Runs
  import opened Tally
  import opened UdpModel
  import opened UdpOwnership
  import opened UdpSessions
  import opened UdpReplies

  ghost predicate AllInv(s: State) {
    Inv(s) && RepliesOk(s)
  }

  lemma InitOwns(timeouts: seq<int>, cpus: nat, now: int)
    ensures OwnInv(Init(timeouts, cpus, now))
  {
    var s := Init(timeouts, cpus, now);
    forall b: nat ensures Weight(s, b, []) == 0 {
      SumNothing(s.readers, ReaderW(b, []));
      SumNothing(s.workers, WorkerW(b, []));
    }
  }

  lemma InitReplies(timeouts: seq<int>, cpus: nat, now: int)
    ensures RepliesOk(Init(timeouts, cpus, now))
  {
    var s := Init(timeouts, cpus, now);
    forall d ensures TimesRead(s, d) == TimesCarried(s, d) {
      SumNothing(s.workers, CarriedW(d));
    }
  }

  lemma InitHolds(timeouts: seq<int>, cpus: nat, now: int)
    ensures AllInv(Init(timeouts, cpus, now))
  {
    InitOwns(timeouts, cpus, now);
    InitReplies(timeouts, cpus, now);
  }

  lemma AllInvInductive()
    ensures Inductive(Step, AllInv)
  {
    InvInductive();
    forall s, a | AllInv(s) && Step(s, a).Some? ensures AllInv(Step(s, a).value) {
      StepKeepsReplies(s, a);
    }
  }

  /** Reachable states. */
  ghost predicate Reaches(timeouts: seq<int>, cpus: nat, now: int, run: seq<Action>, s: State) {
    Legal(Step, Init(timeouts, cpus, now), run) && After(Step, Init(timeouts, cpus, now), run) == s
  }

  lemma ReachedHolds(timeouts: seq<int>, cpus: nat, now: int, run: seq<Action>, s: State)
    requires Reaches(timeouts, cpus, now, run, s)
    ensures AllInv(s)
  {
    InitHolds(timeouts, cpus, now);
    AllInvInductive();
    InvariantHolds(Step, AllInv, Init(timeouts, cpus, now), run);
  }

  // ---- Buffers ----

  /** Every allocated buffer has exactly one holder, and that holder finds in it what it expects;
      no other buffer has any. */
  lemma EveryBufferHasOneHolder(timeouts: seq<int>, cpus: nat, now: int, run: seq<Action>, s: State, b: nat)
    requires Reaches(timeouts, cpus, now, run, s)
    ensures Weight(s, b, Content(s, b)) == if b < |s.mem| then 1 else 0
  {
    ReachedHolds(timeouts, cpus, now, run, s);
  }

  /** A buffer in the pool is in it once, and no goroutine or queue still refers to it: nothing is
      put back twice or used after it was put back. */
  lemma PooledBuffersAreUnused(timeouts: seq<int>, cpus: nat, now: int, run: seq<Action>, s: State, f: nat)
    requires Reaches(timeouts, cpus, now, run, s) && f < |s.free|
    ensures var b := s.free[f]; var bytes := Content(s, b);
      && Sum(s.free, BareW(b)) == 1
      && (forall l :: 0 <= l < |s.readers| ==> ReaderWeight(s.readers[l], b, bytes) == 0)
      && (forall k :: 0 <= k < |s.starters| ==> StarterWeight(s.starters[k], b, bytes) == 0)
      && (forall i :: 0 <= i < |s.sessions| ==> SessionWeight(s.sessions[i], b, bytes) == 0)
      && (forall w :: 0 <= w < |s.workers| ==> WorkerWeight(s.workers[w], b, bytes) == 0)
      && (forall j :: 0 <= j < |s.outbound| ==> s.outbound[j].p.buf != b)
  {
    ReachedHolds(timeouts, cpus, now, run, s);
    var b := s.free[f];
    var bytes := Content(s, b);
    SumRemove(s.free, f, BareW(b));
    assert Weight(s, b, bytes) <= 1;
    forall l | 0 <= l < |s.readers| ensures ReaderWeight(s.readers[l], b, bytes) == 0 {
      SumRemove(s.readers, l, ReaderW(b, bytes));
    }
    forall k | 0 <= k < |s.starters| ensures StarterWeight(s.starters[k], b, bytes) == 0 {
      SumRemove(s.starters, k, StarterW(b, bytes));
    }
    forall i | 0 <= i < |s.sessions| ensures SessionWeight(s.sessions[i], b, bytes) == 0 {
      SumRemove(s.sessions, i, SessionW(b, bytes));
    }
    forall w | 0 <= w < |s.workers| ensures WorkerWeight(s.workers[w], b, bytes) == 0 {
      SumRemove(s.workers, w, WorkerW(b, bytes));
    }
    forall j | 0 <= j < |s.outbound| ensures s.outbound[j].p.buf != b {
      SumRemove(s.outbound, j, OutboundW(b, bytes));
    }
  }

  /** What a queued packet promises is what its buffer contains. */
  lemma QueuedPacketsAreIntact(timeouts: seq<int>, cpus: nat, now: int, run: seq<Action>, s: State, i: nat, k: nat)
    requires Reaches(timeouts, cpus, now, run, s)
    requires i < |s.sessions| && k < |s.sessions[i].queue|
    ensures Contents(s, s.sessions[i].queue[k]) == s.sessions[i].queue[k].what.bytes
  {
    ReachedHolds(timeouts, cpus, now, run, s);
    var x := s.sessions[i];
    var p := x.queue[k];
    SumRemove(x.queue, k, PacketW(p.buf, Content(s, p.buf)));
    SessionMoves(s, i, x, p.buf, Content(s, p.buf));
    HeldIsIntact(s, p);
  }

  // ---- Datagrams ----

  /** Order and isolation: what a session has written, has in hand and has queued is, in this order,
      what was sent into its queue, byte for byte, and all of it came from the session's own client
      through the session's own listener. */
  lemma OrderAndIsolation(timeouts: seq<int>, cpus: nat, now: int, run: seq<Action>, s: State, i: nat)
    requires Reaches(timeouts, cpus, now, run, s) && i < |s.sessions|
    ensures var x := s.sessions[i];
      && x.log.enqueued == x.log.written + InHand(x.proc) + Whats(x.queue)
      && (forall k :: 0 <= k < |x.log.enqueued| ==>
            var d := x.log.enqueued[k]; d.FromClient? && d.listener == x.listener && d.src == x.src)
  {
    ReachedHolds(timeouts, cpus, now, run, s);
    assert SessionOk(s.sessions[i], i, s.now);
    assert forall k :: 0 <= k < |s.sessions[i].log.enqueued| ==> Mine(s.sessions[i], s.sessions[i].log.enqueued[k]);
  }

  /** Every datagram sent to a client was read on a session of that client and listener. */
  lemma RepliesGoHome(timeouts: seq<int>, cpus: nat, now: int, run: seq<Action>, s: State, j: nat)
    requires Reaches(timeouts, cpus, now, run, s) && j < |s.log.sent|
    ensures var e := s.log.sent[j];
      && e.what.FromRemote? && e.what.session < |s.sessions|
      && e.src == s.sessions[e.what.session].src && e.listener == s.sessions[e.what.session].listener
  {
    ReachedHolds(timeouts, cpus, now, run, s);
    assert Addressed(s.sessions, s.log.sent[j].what, s.log.sent[j].src, s.log.sent[j].listener);
  }

  /** Replies are conserved: as many copies of a datagram as were read are on their way or sent. */
  lemma RepliesAreConserved(timeouts: seq<int>, cpus: nat, now: int, run: seq<Action>, s: State, d: Datagram)
    requires Reaches(timeouts, cpus, now, run, s)
    ensures Sum(s.sessions, ReadW(d)) ==
            Sum(s.sessions, PendingW(d)) + Sum(s.outbound, QueuedW(d)) + Sum(s.workers, CarriedW(d))
            + Sum(s.log.sent, SentW(d))
  {
    ReachedHolds(timeouts, cpus, now, run, s);
    assert TimesRead(s, d) == TimesCarried(s, d);
  }

  // ---- The life of a queue ----

  /** A closed queue belongs to a session flagged as closed, whose health check has found it idle;
      its own goroutine closed it, once.  The remote loop ends only on the flag, and the time stamp is
      that of the read it is blocked in. */
  lemma ClosedQueuesAreFlagged(timeouts: seq<int>, cpus: nat, now: int, run: seq<Action>, s: State, i: nat)
    requires Reaches(timeouts, cpus, now, run, s) && i < |s.sessions|
    ensures var x := s.sessions[i];
      && (x.queueClosed ==> x.closed && x.health.HasClosed() && s.now > x.created + x.idle)
      && (x.health.HasClosed() ==> x.queueClosed)
      && (x.remote.Gone? ==> x.closed)
      && (x.remote.Reading? ==> x.lastRecv == x.remote.since)
  {
    ReachedHolds(timeouts, cpus, now, run, s);
    assert SessionOk(s.sessions[i], i, s.now);
  }

  /** Flags never reset, histories never shrink and sessions never change hands. */
  lemma SessionsOnlyAdvance(s: State, run: seq<Action>)
    requires Legal(Step, s, run)
    ensures Extends(s, After(Step, s, run))
  {
    forall t: State, a: Action | Extends(s, t) && Step(t, a).Some? ensures Extends(s, Step(t, a).value) {
      StepExtends(t, a);
      forall i | 0 <= i < |s.sessions| ensures Successor(s.sessions[i], Step(t, a).value.sessions[i]) {
        assert Successor(s.sessions[i], t.sessions[i]);
      }
    }
    InvariantHolds(Step, (t: State) => Extends(s, t), s, run);
  }

  /** No queue is closed twice, the listener's locked path never sends on a closed queue, and the
      unlocked first send does so only after the session's idle deadline. */
  lemma OnlyALateFirstSendPanics(timeouts: seq<int>, cpus: nat, now: int, run: seq<Action>, s: State)
    requires Reaches(timeouts, cpus, now, run, s) && s.panic.Some?
    ensures s.panic.value.StarterSend? && s.panic.value.sid < |s.sessions|
    ensures var x := s.sessions[s.panic.value.sid]; s.now > x.created + x.idle
  {
    ReachedHolds(timeouts, cpus, now, run, s);
    var sid := s.panic.value.sid;
    assert SessionOk(s.sessions[sid], sid, s.now);
  }

  // ---- The table ----

  /** A key leads to a session of that key.  A session whose goroutine has deleted its key is found
      under it only if its starter stored it after that. */
  lemma TableLeadsHome(timeouts: seq<int>, cpus: nat, now: int, run: seq<Action>, s: State, key: Key)
    requires Reaches(timeouts, cpus, now, run, s) && key in s.table
    ensures s.table[key] < |s.sessions|
    ensures var x := s.sessions[s.table[key]];
      && KeyOf(x) == key
      && (x.deleted ==> x.lateStore)
      && (x.health.Over? || x.remote.HangingUp? || x.remote.Returning? ==> x.deleted)
      && (x.health.Over? || x.remote.Returning? ==> x.remoteClosed)
  {
    ReachedHolds(timeouts, cpus, now, run, s);
    var i := s.table[key];
    assert SessionOk(s.sessions[i], i, s.now);
  }

  // ---- Idle sessions ----

  /** Time does not pass while session `i` has a poll due or a sleep to end. */
  predicate Prompt(s: State, a: Action, i: nat) {
    a.Tick? && i < |s.sessions| ==>
      match s.sessions[i].health
      case Polling(due) => s.now + a.dt <= due
      case Sleeping(until) => s.now + a.dt <= until
      case _ => true
  }

  /** Steps under a scheduler that is prompt for session `i`: sleeps are exact, and the first poll
      comes within one timeout of the session's creation. */
  ghost function PromptStep(i: nat): (State, Action) -> Option<State> {
    (s: State, a: Action) => if Prompt(s, a, i) then Step(s, a) else None
  }

  predicate OnTime(s: State, i: nat) {
    i < |s.sessions| ==>
      var x := s.sessions[i];
      && x.created <= x.lastRecv <= s.now
      && match x.health
         case Polling(due) => s.now <= due <= x.lastRecv + 2 * x.idle
         case Sleeping(until) => s.now <= until <= x.lastRecv + 2 * x.idle
         case _ => true
  }

  /** Nothing that matters for the deadlines of session `i` has changed. */
  predicate Untimed(s: State, s': State, i: nat) {
    && s'.now == s.now
    && (i < |s'.sessions| ==>
          && i < |s.sessions|
          && s'.sessions[i].created == s.sessions[i].created && s'.sessions[i].idle == s.sessions[i].idle
          && s'.sessions[i].lastRecv == s.sessions[i].lastRecv && s'.sessions[i].health == s.sessions[i].health)
  }

  lemma ReaderUntimed(s: State, i: nat, l: nat, op: ReaderOp)
    requires ReaderStep(s, l, op).Some?
    ensures Untimed(s, ReaderStep(s, l, op).value, i)
  {
  }

  lemma ProcUntimed(s: State, i: nat, j: nat, op: ProcOp)
    requires ProcStep(s, j, op).Some?
    ensures Untimed(s, ProcStep(s, j, op).value, i)
  {
  }

  lemma HealthOnTime(s: State, i: nat, j: nat, op: HealthOp)
    requires HealthStep(s, j, op).Some? && OnTime(s, i)
    ensures OnTime(HealthStep(s, j, op).value, i)
  {
    HealthTouches(s, j, op);
  }

  lemma RemoteOnTime(s: State, i: nat, j: nat, op: RemoteOp)
    requires RemoteStep(s, j, op).Some? && OnTime(s, i)
    ensures OnTime(RemoteStep(s, j, op).value, i)
  {
  }

  lemma StarterOnTime(s: State, i: nat, k: nat, op: StarterOp)
    requires StarterStep(s, k, op).Some? && OnTime(s, i)
    ensures OnTime(StarterStep(s, k, op).value, i)
  {
  }

  lemma StepOnTime(s: State, a: Action, i: nat)
    requires Prompt(s, a, i) && Step(s, a).Some? && OnTime(s, i)
    ensures OnTime(Step(s, a).value, i)
  {
    match a
    case AReader(l, op) => ReaderUntimed(s, i, l, op);
    case AStarter(k, op) => StarterOnTime(s, i, k, op);
    case AProc(j, op) => ProcUntimed(s, i, j, op);
    case ARemote(j, op) => RemoteOnTime(s, i, j, op);
    case AHealth(j, op) => HealthOnTime(s, i, j, op);
    case AWorker(w, op) =>
    case Tick(_) =>
  }

  /** Under a prompt scheduler no session outlives its last remote read by more than two timeouts
      without being reaped, and one that is reaped as idle is reaped after more than one timeout and
      at most two, whatever the schedule of receives. */
  lemma IdleSessionsAreReapedInTime(
    timeouts: seq<int>, cpus: nat, now: int, run: seq<Action>, i: nat)
    requires Legal(PromptStep(i), Init(timeouts, cpus, now), run)
    requires i < |After(PromptStep(i), Init(timeouts, cpus, now), run).sessions|
    ensures var s := After(PromptStep(i), Init(timeouts, cpus, now), run); var x := s.sessions[i];
      && (!x.health.Reaping() ==> s.now <= x.lastRecv + 2 * x.idle)
      && (x.health.Polling? ==>
            (HealthStep(s, i, HPoll).value.sessions[i].health.Reaping() <==>
             x.lastRecv + x.idle < s.now <= x.lastRecv + 2 * x.idle))
  {
    forall s: State, a: Action | OnTime(s, i) && PromptStep(i)(s, a).Some?
      ensures OnTime(PromptStep(i)(s, a).value, i)
    {
      StepOnTime(s, a, i);
    }
    InvariantHolds(PromptStep(i), (s: State) => OnTime(s, i), Init(timeouts, cpus, now), run);
  }
}
