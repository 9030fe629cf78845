/** `SafeStreamCloser` of server/cfd/stream.go: any number of concurrent `Write`, `Close` and
    `CloseWrite` calls on one QUIC stream.  The calls on the stream itself take time: each has a begin
    and an end, with other goroutines in between. */
module SafeStream {
  import opened Runs
  import opened Tally

  datatype Thread =
    // Write
    | WStart | WHeld | WWriting | WFailed(timeout: bool) | WCancelNext | WCancelling | WLeaving | WDone
    // Close
    | CStart | CFlagged | CLocking | CHeld | CReadCancelled | CClosing | CLeaving | CDone
    // CloseWrite
    | HStart | HHeld | HClosing | HLeaving | HDone
  {
    predicate HoldsLock() {
      || WHeld? || WWriting? || WFailed? || WCancelNext? || WCancelling? || WLeaving?
      || CHeld? || CReadCancelled? || CClosing? || CLeaving?
      || HHeld? || HClosing? || HLeaving?
    }

    /** Inside stream.Write, CancelWrite or stream.Close. */
    predicate OnStream() {
      WWriting? || WCancelling? || CClosing? || HClosing?
    }

    /** `Close`, past its first statement. */
    predicate HasFlagged() {
      CFlagged? || CLocking? || CHeld? || CReadCancelled? || CClosing? || CLeaving? || CDone?
    }
  }

  /** What has been done to the stream: written to, a CancelWrite issued, its read side cancelled,
      closed by `Close`, or by `CloseWrite`. */
  datatype Event = Wrote | Cancelled | ReadCancelled | Closed | HalfClosed

  datatype Shared = Shared(lock: Option<nat>, closing: bool, log: seq<Event>)

  datatype State = State(shared: Shared, threads: seq<Thread>)

  function Init(): State {
    State(Shared(None, false, []), [])
  }

  datatype Op =
    | Acquire | BeginWrite | WriteOk | WriteError(timeout: bool) | LoadClosing | BeginCancel | EndCancel
    | StoreClosing | SetDeadline | CancelRead | BeginClose | EndClose | Release

  datatype Action = Start(th: Thread) | Go(t: nat, op: Op)

  datatype Effect = Effect(th: Thread, sh: Shared)

  function Acquired(th: Thread): Thread {
    match th
    case WStart => WHeld
    case CLocking => CHeld
    case HStart => HHeld
    case _ => th
  }

  function Released(th: Thread): Thread {
    match th
    case WLeaving => WDone
    case CLeaving => CDone
    case HLeaving => HDone
    case _ => th
  }

  function Perform(sh: Shared, t: nat, th: Thread, op: Op): Option<Effect> {
    match op
    case Acquire =>
      if sh.lock.None? && (th.WStart? || th.CLocking? || th.HStart?)
      then Some(Effect(Acquired(th), sh.(lock := Some(t))))
      else None
    case BeginWrite => if th.WHeld? then Some(Effect(WWriting, sh.(log := sh.log + [Wrote]))) else None
    case WriteOk => if th.WWriting? then Some(Effect(WLeaving, sh)) else None
    case WriteError(timeout) => if th.WWriting? then Some(Effect(WFailed(timeout), sh)) else None
    case LoadClosing =>
      if th.WFailed?
      then Some(Effect(if sh.closing || !th.timeout then WLeaving else WCancelNext, sh))
      else None
    case BeginCancel =>
      if th.WCancelNext? then Some(Effect(WCancelling, sh.(log := sh.log + [Cancelled]))) else None
    case EndCancel => if th.WCancelling? then Some(Effect(WLeaving, sh)) else None
    case StoreClosing => if th.CStart? then Some(Effect(CFlagged, sh.(closing := true))) else None
    case SetDeadline => if th.CFlagged? then Some(Effect(CLocking, sh)) else None
    case CancelRead =>
      if th.CHeld? then Some(Effect(CReadCancelled, sh.(log := sh.log + [ReadCancelled]))) else None
    case BeginClose =>
      if th.CReadCancelled? then Some(Effect(CClosing, sh))
      else if th.HHeld? then Some(Effect(HClosing, sh))
      else None
    case EndClose =>
      if th.CClosing? then Some(Effect(CLeaving, sh.(log := sh.log + [Closed])))
      else if th.HClosing? then Some(Effect(HLeaving, sh.(log := sh.log + [HalfClosed])))
      else None
    case Release =>
      if th.WLeaving? || th.CLeaving? || th.HLeaving?
      then Some(Effect(Released(th), sh.(lock := None)))
      else None
  }

  function Apply(s: State, t: nat, e: Effect): State
    requires t < |s.threads|
  {
    State(e.sh, s.threads[t := e.th])
  }

  function Step(s: State, a: Action): Option<State> {
    match a
    case Start(th) =>
      if th.WStart? || th.CStart? || th.HStart? then Some(s.(threads := s.threads + [th])) else None
    case Go(t, op) =>
      if t >= |s.threads| then None
      else
        match Perform(s.shared, t, s.threads[t], op) {
          case None => None
          case Some(e) => Some(Apply(s, t, e))
        }
  }

  // ---- Invariant ----

  /** No CancelWrite behind a completed `Close`. */
  ghost predicate Ordered(log: seq<Event>) {
    forall i, j :: 0 <= i < j < |log| && log[i].Closed? ==> !log[j].Cancelled?
  }

  predicate ThreadOk(sh: Shared, th: Thread) {
    && (th.HasFlagged() ==> sh.closing)
    && (th.WCancelNext? ==> Closed !in sh.log)
  }

  ghost predicate Inv(s: State) {
    && (s.shared.lock.Some? ==> s.shared.lock.value < |s.threads|)
    && (forall t :: 0 <= t < |s.threads| ==> (s.threads[t].HoldsLock() <==> s.shared.lock == Some(t)))
    && (forall t :: 0 <= t < |s.threads| ==> ThreadOk(s.shared, s.threads[t]))
    && (Closed in s.shared.log ==> s.shared.closing)
    && Ordered(s.shared.log)
  }

  lemma PerformKeeps(sh: Shared, t: nat, th: Thread, op: Op)
    requires Perform(sh, t, th, op).Some? && (th.HoldsLock() <==> sh.lock == Some(t))
    requires ThreadOk(sh, th) && Ordered(sh.log) && (Closed in sh.log ==> sh.closing)
    ensures var e := Perform(sh, t, th, op).value;
      && (e.th.HoldsLock() <==> e.sh.lock == Some(t))
      && (sh.lock == e.sh.lock || sh.lock == None || (sh.lock == Some(t) && e.sh.lock == None))
      && (sh.lock == None && e.sh.lock.Some? ==> e.sh.lock == Some(t))
      && (e.sh.log != sh.log ==> sh.lock == Some(t))
      && (sh.closing ==> e.sh.closing)
      && ThreadOk(e.sh, e.th) && Ordered(e.sh.log) && (Closed in e.sh.log ==> e.sh.closing)
  {
  }

  lemma StepKeepsInv(s: State, a: Action)
    requires Inv(s) && Step(s, a).Some?
    ensures Inv(Step(s, a).value)
  {
    if a.Go? {
      PerformKeeps(s.shared, a.t, s.threads[a.t], a.op);
    }
  }

  ghost predicate Reaches(run: seq<Action>, s: State) {
    Legal(Step, Init(), run) && After(Step, Init(), run) == s
  }

  lemma ReachedHolds(run: seq<Action>, s: State)
    requires Reaches(run, s)
    ensures Inv(s)
  {
    forall s, a | Inv(s) && Step(s, a).Some? ensures Inv(Step(s, a).value) {
      StepKeepsInv(s, a);
    }
    InvariantHolds(Step, Inv, Init(), run);
  }

  // ---- Main results, over every interleaving ----

  /** stream.Write, CancelWrite and stream.Close never overlap. */
  lemma StreamCallsNeverOverlap(run: seq<Action>, s: State, t: nat, u: nat)
    requires Reaches(run, s) && t < |s.threads| && u < |s.threads|
    requires s.threads[t].OnStream() && s.threads[u].OnStream()
    ensures t == u
  {
    ReachedHolds(run, s);
  }

  /** CancelWrite is never issued after `Close` has closed the stream. */
  lemma NoCancelAfterClose(run: seq<Action>, s: State, i: nat, j: nat)
    requires Reaches(run, s) && i < j < |s.shared.log|
    requires s.shared.log[i].Closed?
    ensures !s.shared.log[j].Cancelled?
  {
    ReachedHolds(run, s);
  }

  /** The run of a `CloseWrite`, and of a `Write` that times out. */
  function HalfClose(t: nat): seq<Action> {
    [Go(t, Acquire), Go(t, BeginClose), Go(t, EndClose), Go(t, Release)]
  }

  function TimedOutWrite(t: nat): seq<Action> {
    [Go(t, Acquire), Go(t, BeginWrite), Go(t, WriteError(true)), Go(t, LoadClosing), Go(t, BeginCancel)]
  }

  lemma HalfCloseRuns(s: State, t: nat)
    requires t < |s.threads| && s.threads[t].HStart? && s.shared.lock.None?
    ensures Legal(Step, s, HalfClose(t))
    ensures var s' := After(Step, s, HalfClose(t));
      && s'.shared == s.shared.(log := s.shared.log + [HalfClosed])
      && |s'.threads| == |s.threads|
      && (forall u :: 0 <= u < |s.threads| && u != t ==> s'.threads[u] == s.threads[u])
  {
    var s1 := Step(s, Go(t, Acquire)).value;
    var s2 := Step(s1, Go(t, BeginClose)).value;
    assert s2.threads[t].HClosing? && s2.shared == s.shared.(lock := Some(t));
    var s3 := Step(s2, Go(t, EndClose)).value;
    assert s3.threads[t].HLeaving?;
    Cons(Step, s3, Go(t, Release), []);
    Cons(Step, s2, Go(t, EndClose), [Go(t, Release)]);
    Cons(Step, s1, Go(t, BeginClose), [Go(t, EndClose), Go(t, Release)]);
    Cons(Step, s, Go(t, Acquire), [Go(t, BeginClose), Go(t, EndClose), Go(t, Release)]);
  }

  /** Unless the stream is closing, a write that times out always gets to cancel. */
  lemma TimedOutWriteRuns(s: State, t: nat)
    requires t < |s.threads| && s.threads[t].WStart? && s.shared.lock.None? && !s.shared.closing
    ensures Legal(Step, s, TimedOutWrite(t))
    ensures After(Step, s, TimedOutWrite(t)).shared.log == s.shared.log + [Wrote] + [Cancelled]
  {
    var s1 := Step(s, Go(t, Acquire)).value;
    var s2 := Step(s1, Go(t, BeginWrite)).value;
    var s3 := Step(s2, Go(t, WriteError(true))).value;
    var s4 := Step(s3, Go(t, LoadClosing)).value;
    Cons(Step, s4, Go(t, BeginCancel), []);
    Cons(Step, s3, Go(t, LoadClosing), [Go(t, BeginCancel)]);
    Cons(Step, s2, Go(t, WriteError(true)), [Go(t, LoadClosing), Go(t, BeginCancel)]);
    Cons(Step, s1, Go(t, BeginWrite), [Go(t, WriteError(true)), Go(t, LoadClosing), Go(t, BeginCancel)]);
    Cons(Step, s, Go(t, Acquire),
         [Go(t, BeginWrite), Go(t, WriteError(true)), Go(t, LoadClosing), Go(t, BeginCancel)]);
  }

  /** The guarantee is `Close`'s alone: `CloseWrite` does not set the flag, so from every idle state
      that is not closing a CancelWrite can follow the close that `CloseWrite` makes. */
  lemma CloseWriteDoesNotStopCancel(s: State, t: nat, u: nat)
    requires t < |s.threads| && u < |s.threads| && s.threads[t].HStart? && s.threads[u].WStart?
    requires s.shared.lock.None? && !s.shared.closing
    ensures var run := HalfClose(t) + TimedOutWrite(u);
      && Legal(Step, s, run)
      && After(Step, s, run).shared.log == s.shared.log + [HalfClosed] + [Wrote] + [Cancelled]
  {
    HalfCloseRuns(s, t);
    TimedOutWriteRuns(After(Step, s, HalfClose(t)), u);
    Split(Step, s, HalfClose(t), TimedOutWrite(u));
  }

  // ---- When a CancelWrite can still come ----

  /** The log of `s'` has a CancelWrite behind the first `n` events. */
  ghost predicate CancelsPast(n: nat, log: seq<Event>) {
    exists k :: n <= k < |log| && log[k].Cancelled?
  }

  /** A `Write` between its test of the flag and its CancelWrite. */
  ghost predicate Committed(s: State) {
    exists t :: 0 <= t < |s.threads| && s.threads[t].WCancelNext?
  }

  /** Closing, with nobody left to cancel, and nothing cancelled since the first `n` events. */
  ghost predicate Settled(n: nat, s: State) {
    Inv(s) && s.shared.closing && !Committed(s) && !CancelsPast(n, s.shared.log)
  }

  lemma SettledStays(n: nat, s: State, a: Action)
    requires Settled(n, s) && Step(s, a).Some?
    ensures Settled(n, Step(s, a).value)
  {
    StepKeepsInv(s, a);
    var s' := Step(s, a).value;
    if a.Go? {
      assert !s.threads[a.t].WCancelNext? && !s'.threads[a.t].WCancelNext?;
      assert s'.shared.closing && |s.shared.log| <= |s'.shared.log|;
    }
    assert forall t ::
        0 <= t < |s'.threads| && s'.threads[t].WCancelNext? ==> t < |s.threads| && s.threads[t].WCancelNext?;
  }

  /** Steps the holder of the lock still has to make. */
  function HolderLeft(th: Thread): nat {
    match th
    case WHeld => 6
    case WWriting => 5
    case WFailed(_) => 4
    case WCancelNext => 3
    case WCancelling | CReadCancelled | HHeld => 3
    case CHeld => 4
    case CClosing | HClosing => 2
    case WLeaving | CLeaving | HLeaving => 1
    case _ => 0
  }

  function HolderOp(th: Thread): Op {
    match th
    case WHeld => BeginWrite
    case WWriting => WriteOk
    case WFailed(_) => LoadClosing
    case WCancelling => EndCancel
    case CHeld => CancelRead
    case CReadCancelled | HHeld => BeginClose
    case CClosing | HClosing => EndClose
    case _ => Release
  }

  lemma HolderGoesOn(s: State, t: nat)
    requires Inv(s) && s.shared.lock == Some(t) && t < |s.threads| && !s.threads[t].WCancelNext?
    ensures var s' := Step(s, Go(t, HolderOp(s.threads[t])));
      && s'.Some? && Inv(s'.value)
      && s'.value.shared.closing == s.shared.closing
      && |s.shared.log| <= |s'.value.shared.log|
      && |s'.value.threads| == |s.threads|
      && (s'.value.shared.lock.None? ||
          (s'.value.shared.lock == Some(t) && HolderLeft(s'.value.threads[t]) < HolderLeft(s.threads[t])))
  {
    assert s.threads[t].HoldsLock();
    StepKeepsInv(s, Go(t, HolderOp(s.threads[t])));
  }

  /** A run to the next CancelWrite: the holder of the lock goes on until it releases or cancels;
      once the lock is free, a new `Write` takes it and times out. */
  lemma WayToCancel(n: nat, s: State) returns (run: seq<Action>)
    requires Inv(s) && (!s.shared.closing || Committed(s)) && n <= |s.shared.log|
    ensures Legal(Step, s, run) && CancelsPast(n, After(Step, s, run).shared.log)
    decreases if s.shared.lock.Some? then HolderLeft(s.threads[s.shared.lock.value]) else 0
  {
    if t :| 0 <= t < |s.threads| && s.threads[t].WCancelNext? {
      var s' := Step(s, Go(t, BeginCancel)).value;
      Cons(Step, s, Go(t, BeginCancel), []);
      assert s'.shared.log[|s.shared.log|].Cancelled?;
      run := [Go(t, BeginCancel)];
    } else if s.shared.lock.Some? {
      var act := Go(s.shared.lock.value, HolderOp(s.threads[s.shared.lock.value]));
      HolderGoesOn(s, s.shared.lock.value);
      var rest := WayToCancel(n, Step(s, act).value);
      Cons(Step, s, act, rest);
      run := [act] + rest;
    } else {
      var s' := Step(s, Start(WStart)).value;
      TimedOutWriteRuns(s', |s.threads|);
      Cons(Step, s, Start(WStart), TimedOutWrite(|s.threads|));
      run := [Start(WStart)] + TimedOutWrite(|s.threads|);
      assert After(Step, s, run).shared.log[|s.shared.log| + 1].Cancelled?;
    }
  }

  lemma NoneOnceSettled(s: State, more: seq<Action>)
    requires Inv(s) && s.shared.closing && !Committed(s) && Legal(Step, s, more)
    ensures !CancelsPast(|s.shared.log|, After(Step, s, more).shared.log)
  {
    var n := |s.shared.log|;
    forall t: State, a: Action | Settled(n, t) && Step(t, a).Some? ensures Settled(n, Step(t, a).value) {
      SettledStays(n, t, a);
    }
    InvariantHolds(Step, (t: State) => Settled(n, t), s, more);
  }

  /** Some continuation issues another CancelWrite. */
  ghost predicate CancelCanCome(s: State) {
    exists more :: Legal(Step, s, more) && CancelsPast(|s.shared.log|, After(Step, s, more).shared.log)
  }

  /** From a reachable state another CancelWrite can be issued if and only if the stream is not
      closing or a `Write` has already passed the test of the flag; while the lock is free, if and
      only if the stream is not closing. */
  lemma CancelCanComeIff(run: seq<Action>, s: State)
    requires Reaches(run, s)
    ensures CancelCanCome(s) <==> !s.shared.closing || Committed(s)
    ensures s.shared.lock.None? ==> (CancelCanCome(s) <==> !s.shared.closing)
  {
    ReachedHolds(run, s);
    assert s.shared.lock.None? ==> forall t :: 0 <= t < |s.threads| ==> !s.threads[t].HoldsLock();
    if !s.shared.closing || Committed(s) {
      var more := WayToCancel(|s.shared.log|, s);
    } else {
      forall more | Legal(Step, s, more) ensures !CancelsPast(|s.shared.log|, After(Step, s, more).shared.log) {
        NoneOnceSettled(s, more);
      }
    }
  }

  // ---- Outcomes ----

  predicate TimesOut(a: Action) {
    a.Go? && a.op == WriteError(true)
  }

  function IsCancel(e: Event): nat {
    if e.Cancelled? then 1 else 0
  }

  /** A timed-out write that may still cancel. */
  function MayCancel(th: Thread): nat {
    if th == WFailed(true) || th.WCancelNext? then 1 else 0
  }

  ghost function Cancels(s: State): int {
    Sum(s.shared.log, IsCancel) + Sum(s.threads, MayCancel)
  }

  lemma OperationCancels(sh: Shared, t: nat, th: Thread, op: Op)
    requires Perform(sh, t, th, op).Some?
    ensures var e := Perform(sh, t, th, op).value;
      Sum(e.sh.log, IsCancel) + MayCancel(e.th) <=
      Sum(sh.log, IsCancel) + MayCancel(th) + if TimesOut(Go(t, op)) then 1 else 0
  {
    SumAppend(sh.log, Wrote, IsCancel);
    SumAppend(sh.log, Cancelled, IsCancel);
    SumAppend(sh.log, ReadCancelled, IsCancel);
    SumAppend(sh.log, Closed, IsCancel);
    SumAppend(sh.log, HalfClosed, IsCancel);
  }

  lemma StepCancels(s: State, a: Action)
    requires Step(s, a).Some?
    ensures Cancels(Step(s, a).value) <= Cancels(s) + if TimesOut(a) then 1 else 0
  {
    match a
    case Start(th) => SumAppend(s.threads, th, MayCancel);
    case Go(t, op) =>
      OperationCancels(s.shared, t, s.threads[t], op);
      SumUpdate(s.threads, t, Perform(s.shared, t, s.threads[t], op).value.th, MayCancel);
  }

  lemma CancelsAdmit()
    ensures Admits(Step, (s: State) => true, TimesOut, Cancels)
  {
    forall s: State, a: Action | Step(s, a).Some?
      ensures Cancels(Step(s, a).value) <= Cancels(s) + if TimesOut(a) then 1 else 0
    {
      StepCancels(s, a);
    }
  }

  /** CancelWrite answers timeouts only: there are at most as many as writes that timed out, whatever
      other errors writes have had. */
  lemma OnlyTimeoutsCancel(run: seq<Action>, s: State)
    requires Reaches(run, s)
    ensures Sum(s.shared.log, IsCancel) <= Count(run, TimesOut)
  {
    CancelsAdmit();
    AtMost(Step, (t: State) => true, TimesOut, Cancels, Init(), run);
    assert Cancels(Init()) == 0;
  }

  /** The calls that have done to the stream what event `e` stands for. */
  function HasDone(e: Event, th: Thread): nat {
    var done := match e
      case Wrote => th.WWriting? || th.WFailed? || th.WCancelNext? || th.WCancelling? || th.WLeaving? || th.WDone?
      case ReadCancelled => th.CReadCancelled? || th.CClosing? || th.CLeaving? || th.CDone?
      case Closed => th.CLeaving? || th.CDone?
      case HalfClosed => th.HLeaving? || th.HDone?
      case Cancelled => false;
    if done then 1 else 0
  }

  ghost function DoneW(e: Event): Thread -> nat { (th: Thread) => HasDone(e, th) }
  ghost function IsW(e: Event): Event -> nat { (f: Event) => if f == e then 1 else 0 }

  ghost predicate Matches(e: Event, s: State) {
    Sum(s.shared.log, IsW(e)) == Sum(s.threads, DoneW(e))
  }

  /** What an operation of a call does to the stream. */
  function Effects(th: Thread, op: Op): seq<Event> {
    match op
    case BeginWrite => [Wrote]
    case BeginCancel => [Cancelled]
    case CancelRead => [ReadCancelled]
    case EndClose => [if th.CClosing? then Closed else HalfClosed]
    case _ => []
  }

  lemma OperationLogs(sh: Shared, t: nat, th: Thread, op: Op)
    requires Perform(sh, t, th, op).Some?
    ensures Perform(sh, t, th, op).value.sh.log == sh.log + Effects(th, op)
  {
  }

  lemma OperationDoes(sh: Shared, t: nat, th: Thread, op: Op, e: Event)
    requires Perform(sh, t, th, op).Some? && !e.Cancelled?
    ensures HasDone(e, Perform(sh, t, th, op).value.th) == HasDone(e, th) + if Effects(th, op) == [e] then 1 else 0
  {
  }

  lemma OperationMatches(sh: Shared, t: nat, th: Thread, op: Op, e: Event)
    requires Perform(sh, t, th, op).Some? && !e.Cancelled?
    ensures var f := Perform(sh, t, th, op).value;
      Sum(f.sh.log, IsW(e)) - HasDone(e, f.th) == Sum(sh.log, IsW(e)) - HasDone(e, th)
  {
    OperationLogs(sh, t, th, op);
    OperationDoes(sh, t, th, op, e);
    var effects := Effects(th, op);
    SumConcat(sh.log, effects, IsW(e));
    if effects != [] {
      assert Sum(effects, IsW(e)) == IsW(e)(effects[0]) + Sum([], IsW(e));
    }
  }

  lemma StepMatches(s: State, a: Action, e: Event)
    requires Matches(e, s) && Step(s, a).Some? && !e.Cancelled?
    ensures Matches(e, Step(s, a).value)
  {
    match a
    case Start(th) => SumAppend(s.threads, th, DoneW(e));
    case Go(t, op) =>
      OperationMatches(s.shared, t, s.threads[t], op, e);
      SumUpdate(s.threads, t, Perform(s.shared, t, s.threads[t], op).value.th, DoneW(e));
  }

  /** Every call does its work exactly once before it returns: a `Write` writes, a `Close` cancels the
      read side and closes, a `CloseWrite` closes. */
  lemma EveryCallDoesItsWork(run: seq<Action>, s: State, e: Event)
    requires Reaches(run, s) && !e.Cancelled?
    ensures Sum(s.shared.log, IsW(e)) == Sum(s.threads, DoneW(e))
  {
    forall t: State, a: Action | Matches(e, t) && Step(t, a).Some? ensures Matches(e, Step(t, a).value) {
      StepMatches(t, a, e);
    }
    InvariantHolds(Step, (t: State) => Matches(e, t), Init(), run);
  }

  // ---- Every call can return ----

  predicate Returned(th: Thread) {
    th.WDone? || th.CDone? || th.HDone?
  }

  ghost predicate AllReturned(s: State) {
    forall t :: 0 <= t < |s.threads| ==> Returned(s.threads[t])
  }

  function StepsLeft(th: Thread): nat {
    match th
    case WStart => 7
    case CStart => 7
    case CFlagged => 6
    case CLocking => 5
    case HStart => 4
    case WCancelNext => 3
    case WCancelling => 2
    case _ => HolderLeft(th)
  }

  function NextOp(th: Thread): Op {
    match th
    case CStart => StoreClosing
    case CFlagged => SetDeadline
    case WCancelNext => BeginCancel
    case WStart | CLocking | HStart => Acquire
    case _ => HolderOp(th)
  }

  ghost predicate MayGo(s: State, t: nat) {
    t < |s.threads| && !Returned(s.threads[t]) && (s.shared.lock.None? || s.shared.lock == Some(t))
  }

  lemma OperationGoes(sh: Shared, t: nat, th: Thread)
    requires !Returned(th) && (sh.lock.Some? ==> th.HoldsLock())
    ensures var e := Perform(sh, t, th, NextOp(th)); e.Some? && StepsLeft(e.value.th) < StepsLeft(th)
  {
  }

  lemma WayToReturn(s: State) returns (more: seq<Action>)
    requires Inv(s)
    ensures Legal(Step, s, more) && AllReturned(After(Step, s, more))
    decreases Sum(s.threads, StepsLeft)
  {
    if t: nat :| MayGo(s, t) {
      var th := s.threads[t];
      var a := Go(t, NextOp(th));
      assert th.HoldsLock() <==> s.shared.lock == Some(t);
      OperationGoes(s.shared, t, th);
      StepKeepsInv(s, a);
      SumUpdate(s.threads, t, Perform(s.shared, t, th, NextOp(th)).value.th, StepsLeft);
      var rest := WayToReturn(Step(s, a).value);
      Cons(Step, s, a, rest);
      more := [a] + rest;
    } else {
      if s.shared.lock.Some? {
        assert s.threads[s.shared.lock.value].HoldsLock();
        assert MayGo(s, s.shared.lock.value);
      }
      forall t | 0 <= t < |s.threads| ensures Returned(s.threads[t]) {
        assert !MayGo(s, t);
      }
      more := [];
    }
  }

  /** Nothing gets stuck: from every reachable state all calls can return. */
  lemma EveryCallCanReturn(run: seq<Action>, s: State)
    requires Reaches(run, s)
    ensures exists more :: Legal(Step, s, more) && AllReturned(After(Step, s, more))
  {
    ReachedHolds(run, s);
    var more := WayToReturn(s);
  }
}
