/** The locked frame writer of server/cfd/websocket.go: any number of concurrent `Write`, `ping` and
    `Close` calls on one connection.  A frame goes out in pieces of any size, and a piece can fail. */
module WsWriter {
  import opened Bytes
  import opened Runs
  import opened Tally
  import opened Frames

  datatype Call = CallWrite(payload: seq<Byte>) | CallPing | CallClose

  /** The frame a call emits; `Close` emits none. */
  function FrameOf(c: Call): Frame {
    match c
    case CallWrite(p) => Frame(BINARY, p)
    case _ => Frame(PING, [])
  }

  predicate Sendable(c: Call) {
    FrameOf(c).Valid()
  }

  datatype Thread =
    | Calling(call: Call)
    | Entered(call: Call)              // holds the lock, has not looked at `done`
    | Emitting(call: Call, sent: nat)  // holds the lock, has emitted part of its frame
    | Leaving(call: Call, ok: bool)    // holds the lock
    | Returned(call: Call, ok: bool)
  {
    predicate HoldsLock() {
      Entered? || Emitting? || Leaving?
    }
  }

  /** What a finished call left on the wire: the first `n` bytes of its frame. */
  datatype Piece = Piece(frame: Frame, n: nat)

  datatype Shared = Shared(lock: Option<nat>, done: bool, wire: seq<Byte>, pieces: seq<Piece>)

  datatype State = State(shared: Shared, threads: seq<Thread>)

  function Init(): State {
    State(Shared(None, false, [], []), [])
  }

  datatype Op = Enter | Test | Emit(n: nat) | Refuse | BreakOff | Leave

  datatype Action = Start(call: Call) | Go(t: nat, op: Op)

  datatype Effect = Effect(th: Thread, sh: Shared)

  function Perform(sh: Shared, t: nat, th: Thread, op: Op): Option<Effect> {
    if !Sendable(th.call) then None
    else
      match op
      case Enter =>
        if th.Calling? && sh.lock.None? then Some(Effect(Entered(th.call), sh.(lock := Some(t)))) else None
      case Test =>
        if !th.Entered? then None
        else if th.call.CallClose? then Some(Effect(Leaving(th.call, true), sh.(done := true)))
        else if sh.done then Some(Effect(Leaving(th.call, false), sh))
        else Some(Effect(Emitting(th.call, 0), sh))
      case Emit(n) =>
        var bytes := Encode(FrameOf(th.call));
        if !th.Emitting? || n == 0 || th.sent + n > |bytes| then None
        else
          var sh' := sh.(wire := sh.wire + bytes[th.sent..th.sent + n]);
          if th.sent + n < |bytes| then Some(Effect(Emitting(th.call, th.sent + n), sh'))
          else Some(Effect(Leaving(th.call, true), sh'.(pieces := sh.pieces + [Piece(FrameOf(th.call), |bytes|)])))
      case Refuse =>
        if th.Emitting? && th.sent == 0 then Some(Effect(Leaving(th.call, false), sh)) else None
      case BreakOff =>
        if th.Emitting? && th.sent > 0
        then Some(Effect(Leaving(th.call, false), sh.(pieces := sh.pieces + [Piece(FrameOf(th.call), th.sent)])))
        else None
      case Leave =>
        if th.Leaving? then Some(Effect(Returned(th.call, th.ok), sh.(lock := None))) else None
  }

  function Step(s: State, a: Action): Option<State> {
    match a
    case Start(call) =>
      if Sendable(call) then Some(s.(threads := s.threads + [Calling(call)])) else None
    case Go(t, op) =>
      if t >= |s.threads| then None
      else
        match Perform(s.shared, t, s.threads[t], op) {
          case None => None
          case Some(e) => Some(State(e.sh, s.threads[t := e.th]))
        }
  }

  // ---- Invariant ----

  predicate PieceOk(p: Piece) {
    p.frame.Valid() && p.n <= |Encode(p.frame)|
  }

  predicate PiecesOk(ps: seq<Piece>) {
    forall i :: 0 <= i < |ps| ==> PieceOk(ps[i])
  }

  function PieceBytes(p: Piece): seq<Byte>
    requires PieceOk(p)
  {
    Encode(p.frame)[..p.n]
  }

  function AllPieces(ps: seq<Piece>): seq<Byte>
    requires PiecesOk(ps)
  {
    if ps == [] then [] else PieceBytes(ps[0]) + AllPieces(ps[1..])
  }

  lemma {:induction false} AllPiecesAppend(ps: seq<Piece>, p: Piece)
    requires PieceOk(p) && PiecesOk(ps)
    ensures AllPieces(ps + [p]) == AllPieces(ps) + PieceBytes(p)
  {
    if ps == [] {
      assert ps + [p] == [p];
      assert AllPieces([p]) == PieceBytes(p) + AllPieces([]);
    } else {
      assert (ps + [p])[1..] == ps[1..] + [p];
      AllPiecesAppend(ps[1..], p);
    }
  }

  predicate ThreadOk(th: Thread) {
    && Sendable(th.call)
    && (th.Emitting? ==> !th.call.CallClose? && th.sent < |Encode(FrameOf(th.call))|)
  }

  /** The part of its frame the lock holder has on the wire. */
  function InFlight(th: Thread): seq<Byte>
    requires ThreadOk(th)
  {
    if th.Emitting? then Encode(FrameOf(th.call))[..th.sent] else []
  }

  ghost predicate LockInv(s: State) {
    && (forall t :: 0 <= t < |s.threads| ==> ThreadOk(s.threads[t]))
    && (s.shared.lock.Some? ==> s.shared.lock.value < |s.threads|)
    && (forall t :: 0 <= t < |s.threads| ==> (s.threads[t].HoldsLock() <==> s.shared.lock == Some(t)))
  }

  ghost function Current(s: State): seq<Byte>
    requires LockInv(s)
  {
    if s.shared.lock.Some? then InFlight(s.threads[s.shared.lock.value]) else []
  }

  predicate HasClosed(th: Thread) {
    th.call.CallClose? && (th.Leaving? || th.Returned?)
  }

  ghost predicate Inv(s: State) {
    && LockInv(s)
    && PiecesOk(s.shared.pieces)
    && s.shared.wire == AllPieces(s.shared.pieces) + Current(s)
    && (forall t :: 0 <= t < |s.threads| && s.threads[t].Emitting? ==> !s.shared.done)
    && (forall t :: 0 <= t < |s.threads| && HasClosed(s.threads[t]) ==> s.shared.done)
  }

  lemma EmitKeepsWire(sh: Shared, t: nat, th: Thread, n: nat)
    requires Perform(sh, t, th, Emit(n)).Some? && ThreadOk(th) && PiecesOk(sh.pieces)
    requires sh.wire == AllPieces(sh.pieces) + InFlight(th)
    ensures var e := Perform(sh, t, th, Emit(n)).value;
      ThreadOk(e.th) && PiecesOk(e.sh.pieces) && e.sh.wire == AllPieces(e.sh.pieces) + InFlight(e.th)
  {
    var e := Perform(sh, t, th, Emit(n)).value;
    var bytes := Encode(FrameOf(th.call));
    Pieced(AllPieces(sh.pieces), bytes, th.sent, n);
    if th.sent + n == |bytes| {
      LastBytes(sh.pieces, FrameOf(th.call));
      assert InFlight(e.th) == [];
    } else {
      assert InFlight(e.th) == bytes[..th.sent + n];
    }
  }

  lemma LastBytes(ps: seq<Piece>, f: Frame)
    requires PiecesOk(ps) && f.Valid()
    ensures var ps' := ps + [Piece(f, |Encode(f)|)];
      PiecesOk(ps') && AllPieces(ps') + [] == AllPieces(ps) + Encode(f)[..|Encode(f)|]
  {
    AllPiecesAppend(ps, Piece(f, |Encode(f)|));
  }

  lemma Pieced(before: seq<Byte>, bytes: seq<Byte>, sent: nat, n: nat)
    requires sent + n <= |bytes|
    ensures before + bytes[..sent] + bytes[sent..sent + n] == before + bytes[..sent + n]
  {
  }

  lemma BreakOffKeepsWire(sh: Shared, t: nat, th: Thread)
    requires Perform(sh, t, th, BreakOff).Some? && ThreadOk(th) && PiecesOk(sh.pieces)
    requires sh.wire == AllPieces(sh.pieces) + InFlight(th)
    ensures var e := Perform(sh, t, th, BreakOff).value;
      ThreadOk(e.th) && PiecesOk(e.sh.pieces) && e.sh.wire == AllPieces(e.sh.pieces) + InFlight(e.th)
  {
    AllPiecesAppend(sh.pieces, Piece(FrameOf(th.call), th.sent));
  }

  /** One goroutine's operation, seen from the wire: what was finished plus what is in flight. */
  lemma PerformKeepsWire(sh: Shared, t: nat, th: Thread, op: Op)
    requires Perform(sh, t, th, op).Some? && ThreadOk(th) && PiecesOk(sh.pieces)
    requires th.HoldsLock() || sh.lock.None?
    requires sh.wire == AllPieces(sh.pieces) + InFlight(th)
    ensures var e := Perform(sh, t, th, op).value;
      ThreadOk(e.th) && PiecesOk(e.sh.pieces) && e.sh.wire == AllPieces(e.sh.pieces) + InFlight(e.th)
  {
    match op
    case Emit(n) => EmitKeepsWire(sh, t, th, n);
    case BreakOff => BreakOffKeepsWire(sh, t, th);
    case _ =>
  }

  lemma PerformKeepsLock(sh: Shared, t: nat, th: Thread, op: Op)
    requires Perform(sh, t, th, op).Some? && (th.HoldsLock() <==> sh.lock == Some(t))
    requires ThreadOk(th) && (th.Emitting? ==> !sh.done) && (HasClosed(th) ==> sh.done)
    ensures var e := Perform(sh, t, th, op).value;
      && (e.th.HoldsLock() <==> e.sh.lock == Some(t))
      && (sh.lock == Some(t) || (sh.lock == None && e.sh.lock == Some(t)))
      && (sh.lock == Some(t) ==> e.sh.lock == None || e.sh.lock == Some(t))
      && (sh.done ==> e.sh.done)
      && (e.th.Emitting? ==> !e.sh.done)
      && (HasClosed(e.th) ==> e.sh.done)
  {
  }

  lemma GoKeepsInv(s: State, t: nat, op: Op)
    requires Inv(s) && Step(s, Go(t, op)).Some?
    ensures Inv(Step(s, Go(t, op)).value)
  {
    var th := s.threads[t];
    PerformKeepsLock(s.shared, t, th, op);
    PerformKeepsWire(s.shared, t, th, op);
  }

  lemma InvInductive()
    ensures Inductive(Step, Inv)
  {
    forall s, a | Inv(s) && Step(s, a).Some? ensures Inv(Step(s, a).value) {
      if a.Go? {
        GoKeepsInv(s, a.t, a.op);
      }
    }
  }

  // ---- Main results, over every interleaving ----

  ghost predicate Reaches(run: seq<Action>, s: State) {
    Legal(Step, Init(), run) && After(Step, Init(), run) == s
  }

  lemma ReachedHolds(run: seq<Action>, s: State)
    requires Reaches(run, s)
    ensures Inv(s)
  {
    InvInductive();
    InvariantHolds(Step, Inv, Init(), run);
  }

  /** Frames never interleave: the wire is what the finished calls left, one after the other, and then
      what the lock holder has emitted of its own frame. */
  lemma WireIsWholePieces(run: seq<Action>, s: State)
    requires Reaches(run, s)
    ensures LockInv(s)
    ensures PiecesOk(s.shared.pieces)
    ensures s.shared.wire == AllPieces(s.shared.pieces) + Current(s)
    ensures Current(s) != [] ==> s.shared.lock.Some? && s.threads[s.shared.lock.value].Emitting?
  {
    ReachedHolds(run, s);
  }

  predicate Whole(p: Piece) {
    PieceOk(p) && p.n == |Encode(p.frame)|
  }

  function FramesOf(ps: seq<Piece>): seq<Frame> {
    seq(|ps|, i requires 0 <= i < |ps| => ps[i].frame)
  }

  lemma {:induction false} WholePiecesAreFrames(ps: seq<Piece>)
    requires PiecesOk(ps) && forall i :: 0 <= i < |ps| ==> Whole(ps[i])
    ensures AllPieces(ps) == EncodeAll(FramesOf(ps))
  {
    if ps != [] {
      WholePiecesAreFrames(ps[1..]);
      assert FramesOf(ps)[1..] == FramesOf(ps[1..]);
      assert PieceBytes(ps[0]) == Encode(ps[0].frame);
    }
  }

  predicate BreaksOff(a: Action) {
    a.Go? && a.op.BreakOff?
  }

  function Torn(p: Piece): nat {
    if Whole(p) then 0 else 1
  }

  lemma StepTears(s: State, a: Action)
    requires Inv(s) && Step(s, a).Some?
    ensures Sum(Step(s, a).value.shared.pieces, Torn) ==
            Sum(s.shared.pieces, Torn) + if BreaksOff(a) then 1 else 0
  {
    if a.Go? {
      var th := s.threads[a.t];
      assert ThreadOk(th);
      if a.op.Emit? {
        SumAppend(s.shared.pieces, Piece(FrameOf(th.call), |Encode(FrameOf(th.call))|), Torn);
      } else if a.op.BreakOff? {
        SumAppend(s.shared.pieces, Piece(FrameOf(th.call), th.sent), Torn);
      }
    }
  }

  lemma {:induction false} TornPiecesAreBreakOffs(s: State, run: seq<Action>)
    requires Inv(s) && Legal(Step, s, run)
    ensures Sum(After(Step, s, run).shared.pieces, Torn) == Sum(s.shared.pieces, Torn) + Count(run, BreaksOff)
    decreases |run|
  {
    if run != [] {
      InvInductive();
      StepTears(s, run[0]);
      TornPiecesAreBreakOffs(Step(s, run[0]).value, run[1..]);
    }
  }

  /** All that finished calls left on the wire is whole frames, if and only if no write has broken
      off in the middle of one. */
  lemma WholeIffNothingBrokeOff(run: seq<Action>, s: State)
    requires Reaches(run, s)
    ensures (forall i :: 0 <= i < |s.shared.pieces| ==> Whole(s.shared.pieces[i])) <==> Count(run, BreaksOff) == 0
  {
    InvInductive();
    TornPiecesAreBreakOffs(Init(), run);
    SumNothing(s.shared.pieces, Torn);
    assert forall i :: 0 <= i < |s.shared.pieces| ==> (Torn(s.shared.pieces[i]) == 0 <==> Whole(s.shared.pieces[i]));
  }

  /** Then a receiver reads exactly the frames of the finished calls, in the order in which they held
      the lock, and nothing of the one under way. */
  lemma ReceiverReadsTheFrames(run: seq<Action>, s: State)
    requires Reaches(run, s) && Count(run, BreaksOff) == 0
    ensures LockInv(s)
    ensures ParseAll(s.shared.wire) == (FramesOf(s.shared.pieces), Current(s))
  {
    ReachedHolds(run, s);
    WholeIffNothingBrokeOff(run, s);
    WholeIsRead(s);
  }

  lemma WholeIsRead(s: State)
    requires Inv(s) && forall i :: 0 <= i < |s.shared.pieces| ==> Whole(s.shared.pieces[i])
    ensures ParseAll(s.shared.wire) == (FramesOf(s.shared.pieces), Current(s))
  {
    WholePiecesAreFrames(s.shared.pieces);
    var frames := FramesOf(s.shared.pieces);
    if Current(s) != [] {
      var th := s.threads[s.shared.lock.value];
      PartialFrameIsNotRead(FrameOf(th.call), th.sent);
    }
    ParseAllInvertsEncodeAll(frames, Current(s));
  }

  /** A `Write` whose stream fails after the two bytes of the frame's header. */
  function BrokenWrite(): seq<Action> {
    [Start(CallWrite([7])), Go(0, Enter), Go(0, Test), Go(0, Emit(2)), Go(0, BreakOff), Go(0, Leave)]
  }

  /** It leaves a partial frame on the wire that nobody owns, so the condition above is needed. */
  lemma BrokenWriteTearsAFrame()
    ensures Legal(Step, Init(), BrokenWrite())
    ensures var s := After(Step, Init(), BrokenWrite());
      s.shared.lock.None? && s.shared.wire == [130, 1] && ParseAll(s.shared.wire) == ([], [130, 1])
  {
    assert Encode(FrameOf(CallWrite([7]))) == [130, 1, 7];
    var run := BrokenWrite();
    var s1 := Step(Init(), run[0]).value;
    var s2 := Step(s1, run[1]).value;
    var s3 := Step(s2, run[2]).value;
    var s4 := Step(s3, run[3]).value;
    assert s4.shared.wire == [130, 1];
    var s5 := Step(s4, run[4]).value;
    Cons(Step, s5, run[5], []);
    Cons(Step, s4, run[4], run[5..]);
    Cons(Step, s3, run[3], run[4..]);
    Cons(Step, s2, run[2], run[3..]);
    Cons(Step, s1, run[1], run[2..]);
    Cons(Step, Init(), run[0], run[1..]);
  }

  // ---- What a call reports ----

  /** A call that reports, or is about to report, having sent frame `f`. */
  ghost function ReportsW(f: Frame): Thread -> nat {
    (th: Thread) =>
      if (th.Leaving? || th.Returned?) && th.ok && !th.call.CallClose? && FrameOf(th.call) == f then 1 else 0
  }

  ghost function SentW(f: Frame): Piece -> nat {
    (p: Piece) => if Whole(p) && p.frame == f then 1 else 0
  }

  ghost predicate Reported(s: State) {
    Inv(s) && forall f :: Sum(s.threads, ReportsW(f)) == Sum(s.shared.pieces, SentW(f))
  }

  lemma PerformReports(sh: Shared, t: nat, th: Thread, op: Op, f: Frame)
    requires Perform(sh, t, th, op).Some? && ThreadOk(th)
    ensures var e := Perform(sh, t, th, op).value;
      Sum(e.sh.pieces, SentW(f)) - Sum(sh.pieces, SentW(f)) == ReportsW(f)(e.th) - ReportsW(f)(th)
  {
    if th.Emitting? {
      SumAppend(sh.pieces, Piece(FrameOf(th.call), |Encode(FrameOf(th.call))|), SentW(f));
      SumAppend(sh.pieces, Piece(FrameOf(th.call), th.sent), SentW(f));
    }
  }

  lemma StepReports(s: State, a: Action, f: Frame)
    requires Reported(s) && Step(s, a).Some?
    ensures Sum(Step(s, a).value.threads, ReportsW(f)) == Sum(Step(s, a).value.shared.pieces, SentW(f))
  {
    match a
    case Start(call) => SumAppend(s.threads, Calling(call), ReportsW(f));
    case Go(t, op) =>
      PerformReports(s.shared, t, s.threads[t], op, f);
      SumUpdate(s.threads, t, Perform(s.shared, t, s.threads[t], op).value.th, ReportsW(f));
  }

  /** A call reports success exactly when its frame is on the wire whole: for every frame there are
      as many successful calls as copies of it. */
  lemma SuccessMeansSent(run: seq<Action>, s: State, f: Frame)
    requires Reaches(run, s)
    ensures Sum(s.threads, ReportsW(f)) == Sum(s.shared.pieces, SentW(f))
  {
    InvInductive();
    forall x, a | Reported(x) && Step(x, a).Some? ensures Reported(Step(x, a).value) {
      forall g ensures Sum(Step(x, a).value.threads, ReportsW(g)) == Sum(Step(x, a).value.shared.pieces, SentW(g)) {
        StepReports(x, a, g);
      }
    }
    InvariantHolds(Step, Reported, Init(), run);
  }

  // ---- After Close ----

  lemma SilentStep(s: State, a: Action)
    requires Inv(s) && s.shared.done && Step(s, a).Some?
    ensures Step(s, a).value.shared.done && Step(s, a).value.shared.wire == s.shared.wire
  {
  }

  /** Once any `Close` has returned, no call emits another byte. */
  lemma SilentAfterClose(run: seq<Action>, s: State, t: nat, more: seq<Action>)
    requires Reaches(run, s)
    requires t < |s.threads| && s.threads[t].Returned? && s.threads[t].call.CallClose?
    requires Legal(Step, s, more)
    ensures After(Step, s, more).shared.wire == s.shared.wire
  {
    ReachedHolds(run, s);
    InvInductive();
    var silent := (x: State) => Inv(x) && x.shared.done && x.shared.wire == s.shared.wire;
    forall x, a | silent(x) && Step(x, a).Some? ensures silent(Step(x, a).value) {
      SilentStep(x, a);
    }
    InvariantHolds(Step, silent, s, more);
  }

  // ---- Outcomes ----

  predicate Fails(a: Action) {
    a.Go? && (a.op.Refuse? || a.op.BreakOff?)
  }

  function FailedBy(th: Thread): nat {
    if (th.Leaving? || th.Returned?) && !th.ok then 1 else 0
  }

  ghost function Failures(s: State): int {
    Sum(s.threads, FailedBy)
  }

  /** Steps before the connection is closed. */
  function OpenStep(s: State, a: Action): Option<State> {
    if a == Start(CallClose) then None else Step(s, a)
  }

  ghost predicate Open(s: State) {
    !s.shared.done && forall t :: 0 <= t < |s.threads| ==> !s.threads[t].call.CallClose?
  }

  lemma OpenOperation(sh: Shared, t: nat, th: Thread, op: Op)
    requires Perform(sh, t, th, op).Some? && !sh.done && !th.call.CallClose?
    ensures var e := Perform(sh, t, th, op).value;
      && !e.sh.done && e.th.call == th.call
      && FailedBy(e.th) == FailedBy(th) + if Fails(Go(t, op)) then 1 else 0
  {
  }

  lemma OpenStepFails(s: State, a: Action)
    requires Open(s) && OpenStep(s, a).Some?
    ensures Open(OpenStep(s, a).value)
    ensures Failures(OpenStep(s, a).value) == Failures(s) + if Fails(a) then 1 else 0
  {
    match a
    case Start(call) => SumAppend(s.threads, Calling(call), FailedBy);
    case Go(t, op) =>
      OpenOperation(s.shared, t, s.threads[t], op);
      SumUpdate(s.threads, t, Perform(s.shared, t, s.threads[t], op).value.th, FailedBy);
  }

  lemma OpenCounts()
    ensures Inductive(OpenStep, Open)
    ensures Counts(OpenStep, Open, Fails, Failures)
  {
    forall s, a | Open(s) && OpenStep(s, a).Some?
      ensures Open(OpenStep(s, a).value)
      ensures Failures(OpenStep(s, a).value) == Failures(s) + if Fails(a) then 1 else 0
    {
      OpenStepFails(s, a);
    }
  }

  /** As long as nobody closes, a call fails exactly when the stream refuses it or breaks it off. */
  lemma FailuresHaveACause(run: seq<Action>)
    requires Legal(OpenStep, Init(), run)
    ensures Sum(After(OpenStep, Init(), run).threads, FailedBy) == Count(run, Fails)
  {
    OpenCounts();
    Counted(OpenStep, Open, Fails, Failures, Init(), run);
    assert Failures(Init()) == 0;
  }

  function StepsLeft(th: Thread): nat {
    match th
    case Calling(_) => 4
    case Entered(_) => 3
    case Emitting(_, _) => 2
    case Leaving(_, _) => 1
    case Returned(_, _) => 0
  }

  function NextOp(th: Thread): Op {
    match th
    case Calling(_) => Enter
    case Entered(_) => Test
    case Emitting(call, sent) =>
      if Sendable(call) && sent < |Encode(FrameOf(call))| then Emit(|Encode(FrameOf(call))| - sent) else Refuse
    case _ => Leave
  }

  ghost predicate MayGo(s: State, t: nat) {
    t < |s.threads| && !s.threads[t].Returned? && (s.shared.lock.None? || s.shared.lock == Some(t))
  }

  lemma NextGoes(s: State, t: nat)
    requires Inv(s) && MayGo(s, t)
    ensures var s' := Step(s, Go(t, NextOp(s.threads[t])));
      && s'.Some? && Inv(s'.value)
      && Sum(s'.value.threads, StepsLeft) < Sum(s.threads, StepsLeft)
  {
    var th := s.threads[t];
    assert ThreadOk(th) && (th.HoldsLock() <==> s.shared.lock == Some(t));
    GoKeepsInv(s, t, NextOp(th));
    SumUpdate(s.threads, t, Perform(s.shared, t, th, NextOp(th)).value.th, StepsLeft);
  }

  lemma WayToReturn(s: State) returns (more: seq<Action>)
    requires Inv(s)
    ensures Legal(Step, s, more) && AllReturned(After(Step, s, more))
    decreases Sum(s.threads, StepsLeft)
  {
    if t: nat :| MayGo(s, t) {
      var a := Go(t, NextOp(s.threads[t]));
      NextGoes(s, t);
      var rest := WayToReturn(Step(s, a).value);
      Cons(Step, s, a, rest);
      more := [a] + rest;
    } else {
      if s.shared.lock.Some? {
        assert s.threads[s.shared.lock.value].HoldsLock();
        assert MayGo(s, s.shared.lock.value);
      }
      forall t | 0 <= t < |s.threads| ensures s.threads[t].Returned? {
        assert !MayGo(s, t);
      }
      more := [];
    }
  }

  ghost predicate AllReturned(s: State) {
    forall t :: 0 <= t < |s.threads| ==> s.threads[t].Returned?
  }

  /** Nothing gets stuck: from every reachable state all calls can return. */
  lemma EveryCallCanReturn(run: seq<Action>, s: State)
    requires Reaches(run, s)
    ensures exists more :: Legal(Step, s, more) && AllReturned(After(Step, s, more))
  {
    ReachedHolds(run, s);
    var more := WayToReturn(s);
  }

  /** The stream can fail any call that is emitting its frame, before the first byte or in the middle. */
  lemma StreamMayFail(run: seq<Action>, s: State, t: nat)
    requires Reaches(run, s) && t < |s.threads| && s.threads[t].Emitting?
    ensures var step := Step(s, Go(t, if s.threads[t].sent == 0 then Refuse else BreakOff));
      step.Some? && step.value.threads[t] == Leaving(s.threads[t].call, false)
  {
    ReachedHolds(run, s);
    assert ThreadOk(s.threads[t]);
  }

  /** A ping is an empty frame with opcode 9, a write a frame with opcode 2. */
  lemma CallsOnTheWire(payload: seq<Byte>)
    ensures Encode(FrameOf(CallPing)) == [0x89, 0x00]
    ensures FrameOf(CallWrite(payload)).payload == payload
    ensures Sendable(CallWrite(payload)) ==> Encode(FrameOf(CallWrite(payload)))[0] == 0x82
  {
  }
}
