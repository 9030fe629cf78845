/** A starter of client/udp.go can store its session after the session's own goroutines have deleted the
    key.  When is nobody left to delete it again, and what becomes of the source's datagrams? */
module UdpStranded {
  import opened Bytes
  import opened Runs
  import opened UdpModel
  import opened UdpOwnership
  import opened UdpSessions
  import opened UdpResults
  import opened UdpStarts

  /** The end of session `i`: its health check finds it idle and locks it, closes the queue, hangs up,
      and deletes the key; its remote loop sees the flag. */
  function Condemn(i: nat): seq<Action> { [AHealth(i, HPoll), AHealth(i, HLock)] }

  function Shut(i: nat): seq<Action> { [AHealth(i, HFlag), AHealth(i, HClose)] }

  function HangUp(i: nat): seq<Action> { [AHealth(i, HUnlock), AHealth(i, HHangUp)] }

  function Vanish(i: nat): seq<Action> { [AHealth(i, HRemove), ARemote(i, MCheck)] }

  function Reap(i: nat): seq<Action> { Condemn(i) + Shut(i) + (HangUp(i) + Vanish(i)) }

  lemma SetTwice(s: State, i: nat, x: Session, y: Session)
    requires i < |s.sessions|
    ensures SetSession(SetSession(s, i, x), i, y) == SetSession(s, i, y)
  {
    assert s.sessions[i := x][i := y] == s.sessions[i := y];
  }

  lemma CondemnRuns(s: State, i: nat)
    requires i < |s.sessions| && s.panic.None? && s.sessions[i].health.Polling? && s.sessions[i].mu.Free?
    requires s.now > s.sessions[i].lastRecv + s.sessions[i].idle
    ensures Legal(Step, s, Condemn(i))
    ensures After(Step, s, Condemn(i)) == SetSession(s, i, s.sessions[i].(health := Flagging, mu := ByHealth))
  {
    var x := s.sessions[i];
    var x1 := x.(health := Locking);
    var x2 := x.(health := Flagging, mu := ByHealth);
    SetTwice(s, i, x1, x2);
    Twice(Step, s, AHealth(i, HPoll), SetSession(s, i, x1), AHealth(i, HLock), SetSession(s, i, x2));
  }

  lemma ShutRuns(s: State, i: nat)
    requires i < |s.sessions| && s.panic.None? && s.sessions[i].health.Flagging? && !s.sessions[i].queueClosed
    ensures Legal(Step, s, Shut(i))
    ensures After(Step, s, Shut(i)) ==
            SetSession(s, i, s.sessions[i].(health := Unlocking, closed := true, queueClosed := true))
  {
    var x := s.sessions[i];
    var x1 := x.(health := Closing, closed := true);
    var x2 := x.(health := Unlocking, closed := true, queueClosed := true);
    SetTwice(s, i, x1, x2);
    Twice(Step, s, AHealth(i, HFlag), SetSession(s, i, x1), AHealth(i, HClose), SetSession(s, i, x2));
  }

  lemma HangUpRuns(s: State, i: nat)
    requires i < |s.sessions| && s.panic.None? && s.sessions[i].health.Unlocking?
    ensures Legal(Step, s, HangUp(i))
    ensures After(Step, s, HangUp(i)) ==
            SetSession(s, i, s.sessions[i].(health := Removing, mu := Free, remoteClosed := true))
  {
    var x := s.sessions[i];
    var x1 := x.(health := Disconnecting, mu := Free);
    var x2 := x.(health := Removing, mu := Free, remoteClosed := true);
    SetTwice(s, i, x1, x2);
    Twice(Step, s, AHealth(i, HUnlock), SetSession(s, i, x1), AHealth(i, HHangUp), SetSession(s, i, x2));
  }

  lemma VanishRuns(s: State, i: nat)
    requires i < |s.sessions| && s.panic.None? && s.sessions[i].health.Removing?
    requires s.sessions[i].closed && s.sessions[i].remote.Looping?
    ensures Legal(Step, s, Vanish(i))
    ensures After(Step, s, Vanish(i)) ==
            SetSession(s, i, s.sessions[i].(health := Over, deleted := true, remote := Gone))
            .(table := s.table - {KeyOf(s.sessions[i])})
  {
    var x := s.sessions[i].(health := Over, deleted := true);
    var s1 := SetSession(s, i, x).(table := s.table - {KeyOf(x)});
    var s2 := SetSession(s, i, x.(remote := Gone)).(table := s.table - {KeyOf(x)});
    assert SetSession(s1, i, x.(remote := Gone)) == s2;
    Twice(Step, s, AHealth(i, HRemove), s1, ARemote(i, MCheck), s2);
  }

  // ---- Entries that stay ----

  /** The remote loop will not get to its error path any more, once the session is flagged. */
  predicate PastReading(r: Remote) {
    r.Looping? || r.Pushing? || r.HangingUp? || r.Returning? || r.Gone?
  }

  /** No goroutine of the session will delete its key. */
  predicate Spent(x: Session) {
    x.health.Over? && PastReading(x.remote)
  }

  predicate Opens(r: Starter, key: Key) {
    r.Connecting? && r.p.what.FromClient? && Key(r.p.what.listener, r.p.what.src) == key
  }

  /** The key is in the table, all its sessions are spent, and no new one is on its way. */
  ghost predicate Kept(s: State, key: Key) {
    && key in s.table
    && (forall j :: 0 <= j < |s.sessions| && KeyOf(s.sessions[j]) == key ==> Spent(s.sessions[j]))
    && (forall k :: 0 <= k < |s.starters| ==> !Opens(s.starters[k], key))
  }

  /** No session of that key appears, and none gets a datagram. */
  ghost predicate Deserts(s: State, s': State, key: Key) {
    forall j :: 0 <= j < |s'.sessions| && KeyOf(s'.sessions[j]) == key ==>
      j < |s.sessions| && s'.sessions[j].log.enqueued == s.sessions[j].log.enqueued
  }

  /** Session `j` takes a step that changes the table at most by deleting another key. */
  lemma KeptFrame(s: State, s': State, j: nat, key: Key)
    requires Kept(s, key) && Touches(s, s', j) && s'.starters == s.starters
    requires s'.table == s.table || (KeyOf(s.sessions[j]) != key && s'.table == s.table - {KeyOf(s.sessions[j])})
    requires KeyOf(s.sessions[j]) == key ==>
      Spent(s'.sessions[j]) && s'.sessions[j].log.enqueued == s.sessions[j].log.enqueued
    ensures Kept(s', key) && Deserts(s, s', key)
  {
  }

  lemma SameKept(s: State, s': State, key: Key)
    requires Kept(s, key) && s'.sessions == s.sessions && s'.starters == s.starters && s'.table == s.table
    ensures Kept(s', key) && Deserts(s, s', key)
  {
  }

  /** A listener that looks the key up finds a session, and starts nothing. */
  lemma LoadKept(s: State, l: nat, key: Key)
    requires ReaderStep(s, l, RLoad).Some? && LinksOk(s) && Kept(s, key)
    ensures var s' := ReaderStep(s, l, RLoad).value; Kept(s', key) && Deserts(s, s', key)
  {
    assert ReaderOk(s.sessions, l, s.readers[l]);
  }

  /** The other steps of a listener: one that has locked such a session never sends to it. */
  lemma ReaderKept(s: State, l: nat, op: ReaderOp, key: Key)
    requires ReaderStep(s, l, op).Some? && !op.RLoad? && Kept(s, key)
    requires SessionsOk(s) && ReaderOk(s.sessions, l, s.readers[l])
    ensures var s' := ReaderStep(s, l, op).value; Kept(s', key) && Deserts(s, s', key)
  {
    var s' := ReaderStep(s, l, op).value;
    if op.RLock? || op.RSend? || op.RUnlock? {
      var i := s.readers[l].sid;
      assert SessionOk(s.sessions[i], i, s.now);
      KeptFrame(s, s', i, key);
    } else {
      SameKept(s, s', key);
    }
  }

  lemma ConnectKept(s: State, k: nat, ok: bool, key: Key)
    requires StarterStep(s, k, SConnect(ok)).Some? && Kept(s, key)
    ensures var s' := StarterStep(s, k, SConnect(ok)).value; Kept(s', key) && Deserts(s, s', key)
  {
    assert !Opens(s.starters[k], key);
  }

  lemma StoreKept(s: State, k: nat, key: Key)
    requires StarterStep(s, k, SStore).Some? && Kept(s, key)
    ensures var s' := StarterStep(s, k, SStore).value; Kept(s', key) && Deserts(s, s', key)
  {
  }

  /** A first send into a spent session panics. */
  lemma SendKept(s: State, k: nat, key: Key)
    requires StarterStep(s, k, SSend).Some? && Kept(s, key) && SessionsOk(s)
    ensures var s' := StarterStep(s, k, SSend).value; Kept(s', key) && Deserts(s, s', key)
  {
    var i := s.starters[k].sid;
    assert SessionOk(s.sessions[i], i, s.now);
  }

  lemma ProcKept(s: State, j: nat, op: ProcOp, key: Key)
    requires ProcStep(s, j, op).Some? && Kept(s, key)
    ensures var s' := ProcStep(s, j, op).value; Kept(s', key) && Deserts(s, s', key)
  {
    ProcTouches(s, j, op);
    KeptFrame(s, ProcStep(s, j, op).value, j, key);
  }

  lemma RemoteKept(s: State, j: nat, op: RemoteOp, key: Key)
    requires RemoteStep(s, j, op).Some? && Kept(s, key) && QueueOk(s.sessions[j])
    ensures var s' := RemoteStep(s, j, op).value; Kept(s', key) && Deserts(s, s', key)
  {
    RemoteTouches(s, j, op);
    KeptFrame(s, RemoteStep(s, j, op).value, j, key);
  }

  lemma HealthKept(s: State, j: nat, op: HealthOp, key: Key)
    requires HealthStep(s, j, op).Some? && Kept(s, key)
    ensures var s' := HealthStep(s, j, op).value; Kept(s', key) && Deserts(s, s', key)
  {
    HealthTouches(s, j, op);
    KeptFrame(s, HealthStep(s, j, op).value, j, key);
  }

  lemma WorkerKept(s: State, w: nat, op: WorkerOp, key: Key)
    requires WorkerStep(s, w, op).Some? && Kept(s, key)
    ensures var s' := WorkerStep(s, w, op).value; Kept(s', key) && Deserts(s, s', key)
  {
    SameKept(s, WorkerStep(s, w, op).value, key);
  }

  lemma StepKept(s: State, a: Action, key: Key)
    requires Step(s, a).Some? && LinksOk(s) && SessionsOk(s) && Kept(s, key)
    ensures var s' := Step(s, a).value; Kept(s', key) && Deserts(s, s', key)
  {
    match a
    case AReader(l, op) =>
      if op.RLoad? {
        LoadKept(s, l, key);
      } else {
        assert ReaderOk(s.sessions, l, s.readers[l]);
        ReaderKept(s, l, op, key);
      }
    case AStarter(k, op) =>
      if op.SConnect? {
        ConnectKept(s, k, op.ok, key);
      } else if op.SStore? {
        StoreKept(s, k, key);
      } else {
        SendKept(s, k, key);
      }
    case AProc(j, op) => ProcKept(s, j, op, key);
    case ARemote(j, op) =>
      assert SessionOk(s.sessions[j], j, s.now);
      RemoteKept(s, j, op, key);
    case AHealth(j, op) => HealthKept(s, j, op, key);
    case AWorker(w, op) => WorkerKept(s, w, op, key);
    case Tick(_) => SameKept(s, Step(s, a).value, key);
  }

  ghost predicate KeptSince(s: State, t: State, key: Key) {
    Inv(t) && LateOk(t) && Kept(t, key) && Deserts(s, t, key)
  }

  lemma KeptStays(s: State, key: Key, more: seq<Action>)
    requires Inv(s) && LateOk(s) && Kept(s, key) && Legal(Step, s, more)
    ensures KeptSince(s, After(Step, s, more), key)
  {
    InvInductive();
    forall t: State, a: Action | KeptSince(s, t, key) && Step(t, a).Some?
      ensures KeptSince(s, Step(t, a).value, key)
    {
      StepKeepsLate(t, a);
      StepKept(t, a, key);
      StepExtends(t, a);
    }
    InvariantHolds(Step, (t: State) => KeptSince(s, t, key), s, more);
  }

  // ---- Entries that can go ----

  /** What the error path of the remote loop needs of a step. */
  predicate GoesOn(s: State, s': State, i: nat) {
    s'.panic == s.panic && i < |s.sessions| && i < |s'.sessions| && KeyOf(s'.sessions[i]) == KeyOf(s.sessions[i])
  }

  lemma UnlistGoes(s: State, i: nat)
    requires i < |s.sessions| && s.sessions[i].remote.Unlisting?
    ensures var step := RemoteStep(s, i, MUnlist); step.Some? && KeyOf(s.sessions[i]) !in step.value.table
  {
  }

  lemma MarkGoes(s: State, i: nat)
    requires i < |s.sessions| && s.sessions[i].remote.Marking?
    ensures var step := RemoteStep(s, i, MMark);
      step.Some? && GoesOn(s, step.value, i) && step.value.sessions[i].remote.Unlisting?
  {
  }

  lemma ErrorGoes(s: State, i: nat)
    requires i < |s.sessions| && s.sessions[i].remote.Reading?
    ensures var step := RemoteStep(s, i, MError);
      step.Some? && GoesOn(s, step.value, i) && step.value.sessions[i].remote.Marking?
  {
  }

  lemma StampGoes(s: State, i: nat)
    requires i < |s.sessions| && s.sessions[i].remote.Stamping?
    ensures var step := RemoteStep(s, i, MStamp);
      step.Some? && GoesOn(s, step.value, i) && step.value.sessions[i].remote.Reading?
  {
  }

  lemma GetGoes(s: State, i: nat)
    requires i < |s.sessions| && s.sessions[i].remote.Getting?
    ensures var step := RemoteStep(s, i, MGet(Fresh));
      step.Some? && GoesOn(s, step.value, i) && step.value.sessions[i].remote.Stamping?
  {
  }

  function UnlistLeft(r: Remote): nat {
    match r
    case Getting => 4
    case Stamping(_) => 3
    case Reading(_, _) => 2
    case Marking(_) => 1
    case _ => 0
  }

  /** A remote loop that is not past reading can get to its error path and delete the key. */
  lemma WayToUnlist(s: State, i: nat) returns (more: seq<Action>)
    requires i < |s.sessions| && !PastReading(s.sessions[i].remote) && s.panic.None?
    ensures Legal(Step, s, more) && KeyOf(s.sessions[i]) !in After(Step, s, more).table
    decreases UnlistLeft(s.sessions[i].remote)
  {
    var a;
    var rest := [];
    if s.sessions[i].remote.Unlisting? {
      UnlistGoes(s, i);
      a := ARemote(i, MUnlist);
    } else {
      match s.sessions[i].remote {
        case Getting =>
          GetGoes(s, i);
          a := ARemote(i, MGet(Fresh));
        case Stamping(_) =>
          StampGoes(s, i);
          a := ARemote(i, MStamp);
        case Reading(_, _) =>
          ErrorGoes(s, i);
          a := ARemote(i, MError);
        case Marking(_) =>
          MarkGoes(s, i);
          a := ARemote(i, MMark);
      }
      rest := WayToUnlist(Step(s, a).value, i);
    }
    Cons(Step, s, a, rest);
    more := [a] + rest;
  }

  /** A health check that has closed the queue goes on to delete the key. */
  function RemoveNext(h: Health): HealthOp {
    if h.Unlocking? then HUnlock else if h.Disconnecting? then HHangUp else HRemove
  }

  function RemoveLeft(h: Health): nat {
    if h.Unlocking? then 2 else if h.Disconnecting? then 1 else 0
  }

  lemma RemoveGoes(s: State, i: nat)
    requires i < |s.sessions| && s.sessions[i].health.HasClosed() && !s.sessions[i].health.Over?
    ensures var h := s.sessions[i].health; var step := HealthStep(s, i, RemoveNext(h));
      && step.Some? && step.value.panic == s.panic && i < |step.value.sessions|
      && KeyOf(step.value.sessions[i]) == KeyOf(s.sessions[i])
      && if h.Removing? then KeyOf(s.sessions[i]) !in step.value.table
         else step.value.sessions[i].health.HasClosed() && !step.value.sessions[i].health.Over? &&
              RemoveLeft(step.value.sessions[i].health) < RemoveLeft(h)
  {
  }

  lemma WayToRemove(s: State, i: nat) returns (more: seq<Action>)
    requires i < |s.sessions| && s.sessions[i].health.HasClosed() && !s.sessions[i].health.Over? && s.panic.None?
    ensures Legal(Step, s, more) && KeyOf(s.sessions[i]) !in After(Step, s, more).table
    decreases RemoveLeft(s.sessions[i].health)
  {
    var a := AHealth(i, RemoveNext(s.sessions[i].health));
    RemoveGoes(s, i);
    var rest := [];
    if !s.sessions[i].health.Removing? {
      rest := WayToRemove(Step(s, a).value, i);
    }
    Cons(Step, s, a, rest);
    more := [a] + rest;
  }

  /** How long to wait until the health check is due and finds the session idle. */
  function Wait(now: int, x: Session): nat {
    var due := x.lastRecv + x.idle + 1;
    var from := if x.health.Sleeping? && x.health.until > due then x.health.until else due;
    if from > now then from - now else 0
  }

  /** A queue that is open can be closed, and the key is then still to be deleted. */
  lemma WayToReap(s: State, i: nat) returns (more: seq<Action>)
    requires Inv(s) && HolderOk(s) && s.panic.None? && i < |s.sessions| && !s.sessions[i].health.HasClosed()
    ensures Legal(Step, s, more)
    ensures var s' := After(Step, s, more);
      && s'.panic.None? && i < |s'.sessions| && KeyOf(s'.sessions[i]) == KeyOf(s.sessions[i])
      && s'.sessions[i].health.HasClosed() && !s'.sessions[i].health.Over?
  {
    var tick := Tick(Wait(s.now, s.sessions[i]));
    var s1 := Step(s, tick).value;
    InvInductive();
    StepKeepsHolder(s, tick);
    assert SessionOk(s1.sessions[i], i, s1.now);
    more := WayToClose(s1, i);
    var s2 := After(InstantStep, s1, more);
    assert SessionOk(s2.sessions[i], i, s2.now);
    InstantIsLegal(s1, more);
    Cons(Step, s, tick, more);
    more := [tick] + more;
  }

  /** A session whose health check has not ended can lose its key. */
  lemma WayToEnd(s: State, i: nat) returns (more: seq<Action>)
    requires Inv(s) && HolderOk(s) && s.panic.None? && i < |s.sessions| && !s.sessions[i].health.Over?
    ensures Legal(Step, s, more) && KeyOf(s.sessions[i]) !in After(Step, s, more).table
  {
    var first := [];
    if !s.sessions[i].health.HasClosed() {
      first := WayToReap(s, i);
    }
    var rest := WayToRemove(After(Step, s, first), i);
    Split(Step, s, first, rest);
    more := first + rest;
  }

  /** So can one that is only about to be opened. */
  lemma WayToOpenAndEnd(timeouts: seq<int>, s: State, k: nat, key: Key) returns (more: seq<Action>)
    requires StartInv(timeouts, s) && s.panic.None? && k < |s.starters| && Opens(s.starters[k], key)
    ensures Legal(Step, s, more) && key !in After(Step, s, more).table
  {
    var a := AStarter(k, SConnect(true));
    var s1 := Step(s, a).value;
    InvInductive();
    StepKeepsHolder(s, a);
    var i := |s.sessions|;
    assert KeyOf(s1.sessions[i]) == key && s1.sessions[i].health.Polling?;
    var rest := WayToEnd(s1, i);
    Cons(Step, s, a, rest);
    more := [a] + rest;
  }

  lemma WayToDelete(timeouts: seq<int>, s: State, key: Key) returns (more: seq<Action>)
    requires StartInv(timeouts, s) && s.panic.None? && !Kept(s, key)
    ensures Legal(Step, s, more) && key !in After(Step, s, more).table
  {
    if key !in s.table {
      more := [];
    } else if k :| 0 <= k < |s.starters| && Opens(s.starters[k], key) {
      more := WayToOpenAndEnd(timeouts, s, k, key);
    } else {
      var j :| 0 <= j < |s.sessions| && KeyOf(s.sessions[j]) == key && !Spent(s.sessions[j]);
      if s.sessions[j].health.Over? {
        more := WayToUnlist(s, j);
      } else {
        more := WayToEnd(s, j);
      }
    }
  }

  // ---- Main results ----

  /** The entry of `key` stays in the table whatever happens. */
  ghost predicate ForEver(s: State, key: Key) {
    forall more :: Legal(Step, s, more) ==> key in After(Step, s, more).table
  }

  /** In every reachable state: an entry stays for ever if and only if every session of its key has a
      health check that has ended and a remote loop that will not read again, and no starter is about
      to open a session for the key. */
  lemma EntryStaysIff(timeouts: seq<int>, cpus: nat, now: int, run: seq<Action>, s: State, key: Key)
    requires Reaches(timeouts, cpus, now, run, s) && s.panic.None?
    ensures ForEver(s, key) <==>
            && key in s.table
            && (forall j :: 0 <= j < |s.sessions| && KeyOf(s.sessions[j]) == key ==>
                  s.sessions[j].health.Over? && PastReading(s.sessions[j].remote))
            && (forall k :: 0 <= k < |s.starters| ==> !Opens(s.starters[k], key))
  {
    StartHolds(timeouts, cpus, now, run, s);
    if Kept(s, key) {
      forall more | Legal(Step, s, more) ensures key in After(Step, s, more).table {
        KeptStays(s, key, more);
      }
    } else {
      var more := WayToDelete(timeouts, s, key);
      assert !ForEver(s, key);
    }
  }

  /** Listener `l` gives up the datagram in its hand, and its buffer with it. */
  function Losing(s: State, l: nat): State
    requires l < |s.readers| && s.readers[l].Checking?
  {
    SetReader(s, l, Releasing(s.readers[l].sid)).(
      lost := s.lost + [s.readers[l].p.buf], log := s.log.(dropped := s.log.dropped + [s.readers[l].p.what]))
  }

  lemma EndedSessionDrops(s: State, l: nat)
    requires l < |s.readers| && s.readers[l].Checking?
    requires s.readers[l].sid < |s.sessions| && s.sessions[s.readers[l].sid].closed
    ensures ReaderStep(s, l, RCheck) ==
            Some(Losing(s, l))
  {
  }

  /** A datagram of the source that `key` stands for. */
  predicate IsFrom(d: Datagram, key: Key) {
    d.FromClient? && Key(d.listener, d.src) == key
  }

  lemma OnlyItsOwn(s: State, key: Key)
    requires SessionsOk(s)
    ensures forall j, k ::
      0 <= j < |s.sessions| && 0 <= k < |s.sessions[j].log.enqueued| && IsFrom(s.sessions[j].log.enqueued[k], key) ==>
        KeyOf(s.sessions[j]) == key
  {
    forall j, k |
      0 <= j < |s.sessions| && 0 <= k < |s.sessions[j].log.enqueued| && IsFrom(s.sessions[j].log.enqueued[k], key)
      ensures KeyOf(s.sessions[j]) == key
    {
      assert SessionOk(s.sessions[j], j, s.now);
      assert Mine(s.sessions[j], s.sessions[j].log.enqueued[k]);
    }
  }

  /** What such an entry means for its source: in every continuation no session gets another datagram
      of that source, a listener that has locked the session it found drops its datagram and loses the
      buffer, and the first send that will panic is still to come. */
  lemma StayingEntryDropsAll(
    timeouts: seq<int>, cpus: nat, now: int, run: seq<Action>, s: State, key: Key, more: seq<Action>)
    requires Reaches(timeouts, cpus, now, run, s) && Kept(s, key) && Legal(Step, s, more)
    ensures var s' := After(Step, s, more);
      && key in s'.table && Pending(s', s'.table[key])
      && (forall j, k ::
            && 0 <= j < |s'.sessions| && 0 <= k < |s'.sessions[j].log.enqueued|
            && IsFrom(s'.sessions[j].log.enqueued[k], key) ==>
              j < |s.sessions| && k < |s.sessions[j].log.enqueued|)
      && (forall l :: 0 <= l < |s'.readers| && s'.readers[l].Checking? && IsFrom(s'.readers[l].p.what, key) ==>
            ReaderStep(s', l, RCheck) ==
            Some(Losing(s', l)))
  {
    StartHolds(timeouts, cpus, now, run, s);
    KeptStays(s, key, more);
    var s' := After(Step, s, more);
    OnlyItsOwn(s', key);
    assert Spent(s'.sessions[s'.table[key]]);
    forall l | 0 <= l < |s'.readers| && s'.readers[l].Checking? && IsFrom(s'.readers[l].p.what, key)
      ensures ReaderStep(s', l, RCheck) ==
              Some(Losing(s', l))
    {
      var i := s'.readers[l].sid;
      assert ReaderOk(s'.sessions, l, s'.readers[l]);
      assert KeyOf(s'.sessions[i]) == key;
      assert SessionOk(s'.sessions[i], i, s'.now);
      EndedSessionDrops(s', l);
    }
  }

  // ---- Such an entry is reachable ----

  /** A starter that stores its session when it is already over. */
  function StoreAfterEnd(l: nat, src: Addr, data: seq<Byte>, wait: nat): seq<Action> {
    Opening(l, src, data) + [Tick(wait)] + Reap(0) + [AStarter(0, SStore)]
  }

  /** The session that has just been opened is reaped. */
  lemma OpenedIsReaped(s: State)
    requires |s.sessions| == 1 && s.panic.None? && s.table == map[]
    requires var x := s.sessions[0];
      x.health.Polling? && x.mu.Free? && !x.queueClosed && x.remote.Looping? && s.now > x.lastRecv + x.idle
    ensures Legal(Step, s, Reap(0))
    ensures var s' := After(Step, s, Reap(0));
      && |s'.sessions| == 1 && s'.sessions[0].health.Over? && s'.sessions[0].remote.Gone?
      && s'.sessions[0].mu.Free? && s'.sessions[0].closed && KeyOf(s'.sessions[0]) == KeyOf(s.sessions[0])
      && s'.table == map[] && s'.starters == s.starters && s'.readers == s.readers && s'.panic.None?
  {
    CondemnRuns(s, 0);
    var s1 := After(Step, s, Condemn(0));
    ShutRuns(s1, 0);
    Split(Step, s, Condemn(0), Shut(0));
    var s2 := After(Step, s1, Shut(0));
    HangUpRuns(s2, 0);
    var s3 := After(Step, s2, HangUp(0));
    VanishRuns(s3, 0);
    Split(Step, s2, HangUp(0), Vanish(0));
    Split(Step, s, Condemn(0) + Shut(0), HangUp(0) + Vanish(0));
  }

  /** And then it is stored. */
  lemma ReapedIsStored(s: State)
    requires |s.sessions| == |s.starters| == 1 && s.panic.None? && s.table == map[]
    requires s.sessions[0].health.Over? && s.sessions[0].remote.Gone?
    requires s.starters[0].Storing? && s.starters[0].sid == 0
    ensures Legal(Step, s, [AStarter(0, SStore)])
    ensures var s' := After(Step, s, [AStarter(0, SStore)]); var key := KeyOf(s.sessions[0]);
      && Kept(s', key) && s'.table == map[key := 0] && s'.readers == s.readers && s'.panic.None?
      && s'.sessions == [s.sessions[0].(lateStore := s.sessions[0].deleted)]
  {
    Cons(Step, s, AStarter(0, SStore), []);
  }

  /** For every configuration, listener, source and datagram there is a run in which the session of that
      source is stored after its goroutines have deleted the key and ended: an entry for ever. */
  lemma StoreAfterEndIsReachable(timeouts: seq<int>, cpus: nat, now: int, l: nat, src: Addr, data: seq<Byte>)
    requires l < |timeouts|
    ensures var run := StoreAfterEnd(l, src, data, IdleTimeout(timeouts[l]) + 1);
      && Legal(Step, Init(timeouts, cpus, now), run)
      && var s := After(Step, Init(timeouts, cpus, now), run);
      && Kept(s, Key(l, src)) && s.panic.None?
      && s.table == map[Key(l, src) := 0] && |s.sessions| == 1
      && s.sessions[0].health.Over? && s.sessions[0].remote.Gone? && s.sessions[0].mu.Free? && s.sessions[0].closed
      && |s.readers| == |timeouts| && s.readers[l].Idle?
  {
    var wait := [Tick(IdleTimeout(timeouts[l]) + 1)];
    var s0 := Init(timeouts, cpus, now);
    OpeningRuns(timeouts, cpus, now, l, src, data);
    var s1 := Opened(s0, l, src, data);
    Cons(Step, s1, wait[0], []);
    Split(Step, s0, Opening(l, src, data), wait);
    var s2 := After(Step, s1, wait);
    OpenedIsReaped(s2);
    Split(Step, s0, Opening(l, src, data) + wait, Reap(0));
    ReapedIsStored(After(Step, s2, Reap(0)));
    Split(Step, s0, Opening(l, src, data) + wait + Reap(0), [AStarter(0, SStore)]);
  }
}
