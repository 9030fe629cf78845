/** The relay of server/cfd/connection.go from line 164 on: the websocket-side loop of `handleConn`
    with the deferred calls of `handleQuicStream`, `handleRemoteConn` with its own, and the pinger of
    server/cfd/websocket.go, which competes with both for the websocket's write lock.

    Both loops watch the context of the QUIC stream, which ends when the stream can no longer be
    written; `cancel` ends a derived context that only the pinger watches.  Reads and writes block as
    long as the other end does nothing: no write deadline is ever set on this path, and read deadlines
    only for UDP. */
module Teardown {
  import opened Runs

  /** The websocket side, by what it does next. */
  datatype Inner = ATop | AReading | AWriting | ACancel | ACloseWs | ACloseStream | AGone

  /** The remote side; in `BSending` it holds the websocket's write lock. */
  datatype Outer = BTop | BDeadline | BReading | BLocking | BSending | BCancel | BCloseWs | BCloseRemote | BGone
  {
    predicate InLoop() {
      BTop? || BDeadline? || BReading? || BLocking? || BSending?
    }
  }

  /** The pinger; in `PSending` it holds the write lock. */
  datatype Pinger = PWaiting | PLocking | PSending | PGone

  /** One end of the relay as the server sees it: how much it has sent that nobody has read, how many
      writes it has room for, whether it sends no more, and whether it can no longer be written. */
  datatype End = End(pending: nat, room: nat, ended: bool, broken: bool)
  {
    function IsRead(): End
      requires pending > 0
    {
      this.(pending := pending - 1)
    }

    function IsWritten(): End
      requires room > 0
    {
      this.(room := room - 1)
    }

    /** A write to it would block. */
    predicate Full() {
      room == 0 && !broken
    }
  }

  datatype State = State(
    a: Inner, b: Outer, p: Pinger,
    peer: End,           // the remote peer
    client: End,         // its `broken` is the end of the context both loops watch
    udp: bool,           // the remote connection is UDP
    cancelled: bool,     // the context the pinger watches
    wsDone: bool,        // `done` of the websocket connection
    remoteClosed: bool,
    remoteCloses: nat)   // calls of remoteConn.Close

  function Init(udp: bool): State {
    State(ATop, BTop, PWaiting, End(0, 0, false, false), End(0, 0, false, false), udp, false, false, false, 0)
  }

  /** The websocket's write lock; closing the websocket takes it for one step only. */
  predicate Locked(s: State) {
    s.b.BSending? || s.p.PSending?
  }

  datatype InnerOp = ASelect | ARead(ok: bool) | AWrite(ok: bool) | ADefer

  datatype OuterOp = BSelect | BSetDeadline(ok: bool) | BRead(ok: bool) | BLock | BSend(ok: bool) | BDefer

  datatype PingOp = PTick | PStop | PLock | PSend(ok: bool)

  /** What an end can do: send, send no more, make room, or stop being writable. */
  datatype EndOp = Sends | Ends | Drains | Breaks

  datatype Action =
    | Peer(peer: EndOp)
    | Client(client: EndOp)
    | Inside(inner: InnerOp)
    | Outside(outer: OuterOp)
    | Ping(ping: PingOp)

  /** Once it has ended it sends no more. */
  function EndStep(e: End, op: EndOp): Option<End> {
    match op
    case Sends => if e.ended then None else Some(e.(pending := e.pending + 1))
    case Ends => Some(e.(ended := true))
    case Drains => Some(e.(room := e.room + 1))
    case Breaks => Some(e.(broken := true))
  }

  /** A loop of context test, websocket read and remote write; then the deferred calls, last first.
      The read waits for a message or the end of them.  The write waits for room unless the remote is
      UDP; it fails once the remote is closed or broken.  Closing the websocket waits for its lock. */
  function InnerStep(s: State, op: InnerOp): Option<State> {
    match op
    case ASelect => if s.a.ATop? then Some(s.(a := if s.client.broken then ACancel else AReading)) else None
    case ARead(ok) =>
      if !s.a.AReading? then None
      else if ok then if s.client.pending > 0 then Some(s.(a := AWriting, client := s.client.IsRead())) else None
      else if s.client.ended then Some(s.(a := ACancel)) else None
    case AWrite(ok) =>
      if !s.a.AWriting? then None
      else if !ok then if s.remoteClosed || s.peer.broken then Some(s.(a := ACancel)) else None
      else if s.remoteClosed then None
      else if s.udp then Some(s.(a := ATop))
      else if s.peer.room > 0 then Some(s.(a := ATop, peer := s.peer.IsWritten())) else None
    case ADefer =>
      match s.a
      case ACancel => Some(s.(a := ACloseWs, cancelled := true))
      case ACloseWs => if Locked(s) then None else Some(s.(a := ACloseStream, wsDone := true))
      case ACloseStream => Some(s.(a := AGone, client := s.client.(broken := true)))
      case _ => None
  }

  /** A loop of context test, read deadline, remote read and websocket write; then the deferred
      function.  Setting the deadline does nothing unless the remote connection is UDP; the read
      waits for the peer to send, end or break, or for the deadline.  The websocket write waits for
      its lock and then, holding it, for the client to make room or for the stream to end. */
  function OuterStep(s: State, op: OuterOp): Option<State> {
    match op
    case BSelect => if s.b.BTop? then Some(s.(b := if s.client.broken then BCancel else BDeadline)) else None
    case BSetDeadline(ok) =>
      if s.b.BDeadline? && (ok || s.udp) then Some(s.(b := if ok then BReading else BCancel)) else None
    case BRead(ok) =>
      if !s.b.BReading? then None
      else if ok then if s.peer.pending > 0 then Some(s.(b := BLocking, peer := s.peer.IsRead())) else None
      else if s.peer.ended || s.peer.broken || s.udp then Some(s.(b := BCancel)) else None
    case BLock =>
      if s.b.BLocking? && !Locked(s) then Some(s.(b := if s.wsDone then BCancel else BSending)) else None
    case BSend(ok) =>
      if !s.b.BSending? then None
      else if ok then if s.client.room > 0 then Some(s.(b := BTop, client := s.client.IsWritten())) else None
      else if s.client.broken then Some(s.(b := BCancel)) else None
    case BDefer =>
      match s.b
      case BCancel => Some(s.(b := BCloseWs, cancelled := true))
      case BCloseWs => if Locked(s) then None else Some(s.(b := BCloseRemote, wsDone := true))
      case BCloseRemote => Some(s.(b := BGone, remoteClosed := true, remoteCloses := s.remoteCloses + 1))
      case _ => None
  }

  /** A loop of tick or context test, and a ping under the write lock, whose errors are ignored. */
  function PingStep(s: State, op: PingOp): Option<State> {
    match op
    case PTick => if s.p.PWaiting? then Some(s.(p := PLocking)) else None
    case PStop => if s.p.PWaiting? && (s.cancelled || s.client.broken) then Some(s.(p := PGone)) else None
    case PLock =>
      if s.p.PLocking? && !Locked(s) then Some(s.(p := if s.wsDone then PGone else PSending)) else None
    case PSend(ok) =>
      if !s.p.PSending? then None
      else if ok then if s.client.room > 0 then Some(s.(p := PWaiting, client := s.client.IsWritten())) else None
      else if s.client.broken then Some(s.(p := PWaiting)) else None
  }

  function Step(s: State, act: Action): Option<State> {
    match act
    case Peer(op) => if EndStep(s.peer, op).Some? then Some(s.(peer := EndStep(s.peer, op).value)) else None
    case Client(op) =>
      if EndStep(s.client, op).Some? then Some(s.(client := EndStep(s.client, op).value)) else None
    case Inside(op) => InnerStep(s, op)
    case Outside(op) => OuterStep(s, op)
    case Ping(op) => PingStep(s, op)
  }

  /** The remote end is closed by the remote side alone, as its last act, and by then the websocket
      is done.  The write lock has one holder, and while it is held the websocket is not done. */
  predicate Inv(s: State) {
    && (Locked(s) ==> !s.wsDone)
    && !(s.b.BSending? && s.p.PSending?)
    && (s.b.BCloseRemote? ==> s.wsDone)
    && (s.b.BGone? <==> s.remoteClosed)
    && s.remoteCloses == (if s.b.BGone? then 1 else 0)
    && (s.remoteClosed ==> s.wsDone)
    && (s.a.ACloseWs? || s.a.ACloseStream? || s.a.AGone? ==> s.cancelled)
    && (s.a.ACloseStream? || s.a.AGone? ==> s.wsDone)
    && (s.a.AGone? ==> s.client.broken)
    && (s.b.BCloseWs? || s.b.BCloseRemote? || s.b.BGone? ==> s.cancelled)
  }

  lemma InnerKeepsInv(s: State, op: InnerOp)
    requires Inv(s) && InnerStep(s, op).Some?
    ensures var s' := InnerStep(s, op).value;
      && Inv(s') && s'.b == s.b && s'.remoteClosed == s.remoteClosed
      && (s.wsDone ==> s'.wsDone)
      && (s.remoteClosed ==> WsReadsLeft(s') + (if op == ARead(true) then 1 else 0) <= WsReadsLeft(s))
      && (s.remoteClosed ==> InnerLeft(s') < InnerLeft(s))
  {
  }

  lemma OuterKeepsInv(s: State, op: OuterOp)
    requires Inv(s) && OuterStep(s, op).Some?
    ensures var s' := OuterStep(s, op).value;
      && Inv(s') && s'.a == s.a
      && (s.wsDone ==> s'.wsDone) && (s.remoteClosed ==> s'.remoteClosed)
      && (s.wsDone ==> ReadsLeft(s') + (if op == BRead(true) then 1 else 0) <= ReadsLeft(s))
      && (s.wsDone ==> OuterLeft(s') < OuterLeft(s) && !op.BSend?)
  {
  }

  lemma PingKeepsInv(s: State, op: PingOp)
    requires Inv(s) && PingStep(s, op).Some?
    ensures var s' := PingStep(s, op).value;
      && Inv(s') && s'.a == s.a && s'.b == s.b && s'.peer == s.peer && s'.udp == s.udp
      && s'.wsDone == s.wsDone && s'.remoteClosed == s.remoteClosed
      && (s.wsDone ==> s'.client == s.client && !op.PSend?)
  {
  }

  lemma StepKeepsInv(s: State, act: Action)
    requires Inv(s) && Step(s, act).Some?
    ensures Inv(Step(s, act).value)
  {
    match act
    case Peer(_) =>
    case Client(_) =>
    case Inside(op) => InnerKeepsInv(s, op);
    case Outside(op) => OuterKeepsInv(s, op);
    case Ping(op) => PingKeepsInv(s, op);
  }

  lemma InvInductive()
    ensures Inductive(Step, Inv)
  {
    forall s, act | Inv(s) && Step(s, act).Some? ensures Inv(Step(s, act).value) {
      StepKeepsInv(s, act);
    }
  }

  ghost predicate Reaches(udp: bool, run: seq<Action>, s: State) {
    Legal(Step, Init(udp), run) && After(Step, Init(udp), run) == s
  }

  lemma ReachedHolds(udp: bool, run: seq<Action>, s: State)
    requires Reaches(udp, run, s)
    ensures Inv(s)
  {
    InvInductive();
    InvariantHolds(Step, Inv, Init(udp), run);
  }

  // ---- Once the websocket is done ----

  predicate Done(s: State) {
    Inv(s) && s.wsDone
  }

  predicate IsRemoteRead(act: Action) { act == Outside(BRead(true)) }

  predicate IsWsWrite(act: Action) { (act.Outside? && act.outer.BSend?) || (act.Ping? && act.ping.PSend?) }

  predicate IsOuter(act: Action) { act.Outside? }

  function ReadsLeft(s: State): nat {
    if s.b.BTop? || s.b.BDeadline? || s.b.BReading? then 1 else 0
  }

  /** How many steps the remote side can still take. */
  function OuterLeft(s: State): nat {
    match s.b
    case BTop => 7
    case BDeadline => 6
    case BReading => 5
    case BLocking => 4
    case BSending => 8
    case BCancel => 3
    case BCloseWs => 2
    case BCloseRemote => 1
    case BGone => 0
  }

  lemma DoneSpends()
    ensures Inductive(Step, Done)
    ensures Spends(Step, Done, IsRemoteRead, ReadsLeft)
    ensures Spends(Step, Done, IsWsWrite, (s: State) => 0)
    ensures Spends(Step, Done, IsOuter, OuterLeft)
  {
    forall s, act | Done(s) && Step(s, act).Some?
      ensures var s' := Step(s, act).value;
        && Done(s')
        && ReadsLeft(s') + (if IsRemoteRead(act) then 1 else 0) <= ReadsLeft(s)
        && !IsWsWrite(act)
        && OuterLeft(s') + (if IsOuter(act) then 1 else 0) <= OuterLeft(s)
    {
      match act
      case Peer(_) =>
      case Client(_) =>
      case Inside(op) => InnerKeepsInv(s, op);
      case Outside(op) => OuterKeepsInv(s, op);
      case Ping(op) => PingKeepsInv(s, op);
    }
  }

  /** After the websocket is marked done nothing more is written to it, by the remote side or by the
      pinger; the remote side completes at most one more remote read and takes at most seven more
      steps; it closes the remote connection once, by its last step. */
  lemma RemoteSideWindsDown(udp: bool, run: seq<Action>, s: State, more: seq<Action>)
    requires Reaches(udp, run, s) && s.wsDone && Legal(Step, s, more)
    ensures Count(more, IsRemoteRead) <= 1
    ensures Count(more, IsWsWrite) == 0
    ensures Count(more, IsOuter) <= 7
    ensures var s' := After(Step, s, more); s'.remoteCloses == if s'.b.BGone? then 1 else 0
  {
    ReachedHolds(udp, run, s);
    DoneSpends();
    BudgetBound(Step, Done, IsRemoteRead, ReadsLeft, s, more);
    BudgetBound(Step, Done, IsWsWrite, (s: State) => 0, s, more);
    BudgetBound(Step, Done, IsOuter, OuterLeft, s, more);
    InvariantHolds(Step, Done, s, more);
  }

  // ---- Once the remote connection is closed ----

  predicate Closed(s: State) {
    Inv(s) && s.remoteClosed
  }

  predicate IsWsRead(act: Action) { act == Inside(ARead(true)) }

  predicate IsInner(act: Action) { act.Inside? }

  function WsReadsLeft(s: State): nat {
    if s.a.ATop? || s.a.AReading? then 1 else 0
  }

  function InnerLeft(s: State): nat {
    match s.a
    case ATop => 6
    case AReading => 5
    case AWriting => 4
    case ACancel => 3
    case ACloseWs => 2
    case ACloseStream => 1
    case AGone => 0
  }

  lemma ClosedSpends()
    ensures Inductive(Step, Closed)
    ensures Spends(Step, Closed, IsWsRead, WsReadsLeft)
    ensures Spends(Step, Closed, IsInner, InnerLeft)
  {
    forall s, act | Closed(s) && Step(s, act).Some?
      ensures var s' := Step(s, act).value;
        && Closed(s')
        && WsReadsLeft(s') + (if IsWsRead(act) then 1 else 0) <= WsReadsLeft(s)
        && InnerLeft(s') + (if IsInner(act) then 1 else 0) <= InnerLeft(s)
    {
      match act
      case Peer(_) =>
      case Client(_) =>
      case Inside(op) => InnerKeepsInv(s, op);
      case Outside(op) => OuterKeepsInv(s, op);
      case Ping(op) => PingKeepsInv(s, op);
    }
  }

  /** After the remote connection is closed the websocket side completes at most one more read and
      stops after at most six steps; the remote connection is not closed again. */
  lemma WebsocketSideWindsDown(udp: bool, run: seq<Action>, s: State, more: seq<Action>)
    requires Reaches(udp, run, s) && s.remoteClosed && Legal(Step, s, more)
    ensures Count(more, IsWsRead) <= 1
    ensures Count(more, IsInner) <= 6
    ensures After(Step, s, more).remoteCloses == 1
  {
    ReachedHolds(udp, run, s);
    ClosedSpends();
    BudgetBound(Step, Closed, IsWsRead, WsReadsLeft, s, more);
    BudgetBound(Step, Closed, IsInner, InnerLeft, s, more);
    InvariantHolds(Step, Closed, s, more);
  }

  /** Whichever side ends first, the pinger's context is cancelled and the websocket is done before
      the stream or the remote connection is closed. */
  lemma CloseOrder(udp: bool, run: seq<Action>, s: State)
    requires Reaches(udp, run, s) && (s.a.AGone? || s.b.BGone?)
    ensures s.cancelled && s.wsDone
    ensures s.a.AGone? ==> s.client.broken
  {
    ReachedHolds(udp, run, s);
  }

  // ---- Why a relay ends ----

  predicate InLoop(a: Inner) {
    a.ATop? || a.AReading? || a.AWriting?
  }

  /** A read or write of the websocket side, or an operation of the remote side, fails. */
  predicate InnerFails(act: Action) { act == Inside(ARead(false)) || act == Inside(AWrite(false)) }

  predicate OuterFails(act: Action) {
    act == Outside(BSetDeadline(false)) || act == Outside(BRead(false)) || act == Outside(BSend(false))
  }

  /** Steps in which nothing fails and the client stays. */
  function SmoothStep(s: State, act: Action): Option<State> {
    if InnerFails(act) || OuterFails(act) || act == Client(Breaks) then None else Step(s, act)
  }

  predicate Running(s: State) {
    InLoop(s.a) && s.b.InLoop() && !s.p.PGone? && !s.wsDone && !s.cancelled && !s.client.broken && !s.remoteClosed
  }

  lemma SmoothKeepsRunning(s: State, act: Action)
    requires Running(s) && SmoothStep(s, act).Some?
    ensures Running(SmoothStep(s, act).value)
  {
  }

  /** As long as no operation fails and the stream does not end, the relay goes on, in both directions,
      and so do its pings. */
  lemma RelayGoesOn(udp: bool, run: seq<Action>)
    requires Legal(SmoothStep, Init(udp), run)
    ensures var s := After(SmoothStep, Init(udp), run);
      InLoop(s.a) && s.b.InLoop() && !s.p.PGone? && !s.wsDone && !s.remoteClosed
  {
    forall s, act | Running(s) && SmoothStep(s, act).Some? ensures Running(SmoothStep(s, act).value) {
      SmoothKeepsRunning(s, act);
    }
    InvariantHolds(SmoothStep, Running, Init(udp), run);
  }

  lemma InnerLeaves(s: State, op: InnerOp)
    requires InnerStep(s, op).Some?
    ensures var s' := InnerStep(s, op).value;
      s'.b == s.b && (!InLoop(s.a) || InnerFails(Inside(op)) ==> !InLoop(s'.a))
  {
  }

  lemma OuterLeaves(s: State, op: OuterOp)
    requires OuterStep(s, op).Some?
    ensures var s' := OuterStep(s, op).value;
      s'.a == s.a && (!s.b.InLoop() || OuterFails(Outside(op)) ==> !s'.b.InLoop())
  {
  }

  lemma PingSpares(s: State, op: PingOp)
    requires PingStep(s, op).Some?
    ensures var s' := PingStep(s, op).value;
      && s'.a == s.a && s'.b == s.b && s'.wsDone == s.wsDone && s'.cancelled == s.cancelled
      && s'.client.broken == s.client.broken
      && (s'.p.PGone? ==> op.PStop? || s.wsDone)
      && (op.PStop? ==> s.cancelled || s.client.broken)
  {
  }

  lemma StepLeaves(s: State, act: Action)
    requires Step(s, act).Some?
    ensures var s' := Step(s, act).value;
      && (!InLoop(s.a) || InnerFails(act) ==> !InLoop(s'.a))
      && (!s.b.InLoop() || OuterFails(act) ==> !s'.b.InLoop())
  {
    match act
    case Inside(op) => InnerLeaves(s, op);
    case Outside(op) => OuterLeaves(s, op);
    case Ping(op) => PingSpares(s, op);
    case Peer(_) =>
    case Client(_) =>
  }

  /** A failure ends its side for good. */
  lemma {:induction false} FailureEndsTheLoop(s: State, run: seq<Action>)
    requires Legal(Step, s, run)
    ensures var s' := After(Step, s, run);
      && (!InLoop(s.a) || (exists i :: 0 <= i < |run| && InnerFails(run[i])) ==> !InLoop(s'.a))
      && (!s.b.InLoop() || (exists i :: 0 <= i < |run| && OuterFails(run[i])) ==> !s'.b.InLoop())
    decreases |run|
  {
    if run != [] {
      StepLeaves(s, run[0]);
      FailureEndsTheLoop(Step(s, run[0]).value, run[1..]);
      assert forall i :: 0 < i < |run| ==> run[i] == run[1..][i - 1];
    }
  }

  /** The pinger outlives failed pings: it ends only on its context or once the websocket is done, and
      when the context is cancelled it can. */
  lemma PingerEndsForAReason(udp: bool, run: seq<Action>, s: State)
    requires Reaches(udp, run, s)
    ensures s.p.PGone? ==> Ping(PStop) in run || s.wsDone
    ensures s.p.PWaiting? && s.cancelled ==> Step(s, Ping(PStop)).Some? && Step(s, Ping(PStop)).value.p.PGone?
    ensures Ping(PStop) in run ==> s.cancelled || s.client.broken
  {
    PingerRuns(Init(udp), run);
  }

  lemma PingerStep(s: State, act: Action)
    requires Step(s, act).Some?
    ensures var s' := Step(s, act).value;
      && (s'.p.PGone? ==> s.p.PGone? || act == Ping(PStop) || s'.wsDone)
      && (s.wsDone ==> s'.wsDone) && (s.cancelled ==> s'.cancelled) && (s.client.broken ==> s'.client.broken)
      && (act == Ping(PStop) ==> s'.cancelled || s'.client.broken)
  {
    match act
    case Inside(op) => InnerSparesPinger(s, op);
    case Outside(op) => OuterSparesPinger(s, op);
    case Ping(op) => PingSpares(s, op);
    case Peer(_) =>
    case Client(_) =>
  }

  lemma InnerSparesPinger(s: State, op: InnerOp)
    requires InnerStep(s, op).Some?
    ensures var s' := InnerStep(s, op).value;
      && s'.p == s.p && (s.wsDone ==> s'.wsDone) && (s.cancelled ==> s'.cancelled)
      && (s.client.broken ==> s'.client.broken)
  {
  }

  lemma OuterSparesPinger(s: State, op: OuterOp)
    requires OuterStep(s, op).Some?
    ensures var s' := OuterStep(s, op).value;
      && s'.p == s.p && (s.wsDone ==> s'.wsDone) && (s.cancelled ==> s'.cancelled)
      && (s.client.broken ==> s'.client.broken)
  {
  }

  lemma {:induction false} PingerRuns(s: State, run: seq<Action>)
    requires Legal(Step, s, run)
    ensures var s' := After(Step, s, run);
      && (s'.p.PGone? ==> s.p.PGone? || Ping(PStop) in run || s'.wsDone)
      && (s.wsDone ==> s'.wsDone)
      && (s.cancelled || s.client.broken || Ping(PStop) in run ==> s'.cancelled || s'.client.broken)
    decreases |run|
  {
    if run != [] {
      PingerStep(s, run[0]);
      PingerRuns(Step(s, run[0]).value, run[1..]);
      assert Ping(PStop) in run <==> run[0] == Ping(PStop) || Ping(PStop) in run[1..];
    }
  }
}
