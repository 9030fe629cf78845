/** Where the relay of server/cfd/connection.go can wait, and for how long: the exact conditions under
    which a silent peer, a silent client, or a client that does not read keeps it from ending. */
module Blocking {
  import opened Runs
  import opened Teardown

  // ---- Who waits for what ----

  /** The remote side cannot come back from a read: nothing to read, and no deadline either. */
  predicate Starved(s: State) {
    !s.udp && s.peer.pending == 0 && !s.peer.ended && !s.peer.broken
  }

  /** The remote side cannot take a step. */
  ghost predicate OuterBlocked(s: State) {
    forall op :: OuterStep(s, op).None?
  }

  /** It has ended, or it waits: in a starved read, in a write the client has no room for, or for the
      lock while the pinger has it. */
  lemma OuterBlockedIff(s: State)
    ensures OuterBlocked(s) <==>
            || s.b.BGone?
            || (s.b.BReading? && Starved(s))
            || (s.b.BSending? && s.client.Full())
            || ((s.b.BLocking? || s.b.BCloseWs?) && s.p.PSending?)
  {
    var next := match s.b
      case BTop => BSelect
      case BDeadline => BSetDeadline(true)
      case BReading => BRead(s.peer.pending > 0)
      case BLocking => BLock
      case BSending => BSend(s.client.room > 0)
      case _ => BDefer;
    assert OuterStep(s, next).None? ==> OuterBlocked(s);
  }

  /** The websocket side cannot take a step. */
  ghost predicate InnerBlocked(s: State) {
    forall op :: InnerStep(s, op).None?
  }

  /** It has ended, or it waits: for a message, in a write the TCP peer has no room for, or for the
      lock. */
  lemma InnerBlockedIff(s: State)
    ensures InnerBlocked(s) <==>
            || s.a.AGone?
            || (s.a.AReading? && s.client.pending == 0 && !s.client.ended)
            || (s.a.AWriting? && s.peer.Full() && !s.udp && !s.remoteClosed)
            || (s.a.ACloseWs? && Locked(s))
  {
    var next := match s.a
      case ATop => ASelect
      case AReading => ARead(s.client.pending > 0)
      case AWriting => AWrite(!s.remoteClosed && !s.peer.broken)
      case _ => ADefer;
    assert InnerStep(s, next).None? ==> InnerBlocked(s);
  }

  // ---- A silent peer ----

  /** Steps in which the remote peer does nothing. */
  function QuietStep(s: State, act: Action): Option<State> {
    if act.Peer? then None else Step(s, act)
  }

  /** Past the last context test before a starved read. */
  predicate Doomed(s: State) {
    Inv(s) && Starved(s) && (s.b.BDeadline? || s.b.BReading?)
  }

  /** Some schedule leads into a starved read: it lies directly ahead, or the loop goes on until it
      has read what there is. */
  predicate AtRisk(s: State) {
    && !s.udp && !s.peer.ended && !s.peer.broken
    && (|| (s.peer.pending == 0 && (s.b.BDeadline? || s.b.BReading? || (s.b.BTop? && !s.client.broken)))
        || (s.b.InLoop() && !s.wsDone && !s.client.broken))
  }

  lemma QuietKeeps(s: State, act: Action)
    requires Inv(s) && QuietStep(s, act).Some?
    ensures var s' := QuietStep(s, act).value;
      && Inv(s')
      && (Doomed(s) ==> Doomed(s'))
      && (!AtRisk(s) ==> !AtRisk(s'))
      && (s.b.BReading? && Starved(s) ==> s'.b.BReading?)
  {
    StepKeepsInv(s, act);
  }

  lemma QuietInductive()
    ensures Inductive(QuietStep, Doomed)
    ensures Inductive(QuietStep, s => Inv(s) && !AtRisk(s))
    ensures Inductive(QuietStep, s => Doomed(s) && s.b.BReading?)
  {
    forall s, act | Inv(s) && QuietStep(s, act).Some?
      ensures var s' := QuietStep(s, act).value;
        && (Doomed(s) ==> Doomed(s'))
        && (!AtRisk(s) ==> Inv(s') && !AtRisk(s'))
        && (Doomed(s) && s.b.BReading? ==> s'.b.BReading?)
    {
      QuietKeeps(s, act);
    }
  }

  /** The way out of the loop and through the deferred function.  Whoever waits inside a write to the
      client is freed by the end of the stream. */
  function TowardsEnd(s: State): Action {
    if s.client.broken && s.p.PSending? then Ping(PSend(false))
    else
      match s.b
      case BTop => if s.client.broken then Outside(BSelect) else Client(Breaks)
      case BDeadline => Outside(BSetDeadline(true))
      case BReading => Outside(BRead(s.peer.pending > 0))
      case BLocking => if s.p.PSending? then Client(Breaks) else Outside(BLock)
      case BSending => if s.client.broken then Outside(BSend(false)) else Client(Breaks)
      case BCloseWs => if s.p.PSending? then Client(Breaks) else Outside(BDefer)
      case _ => Outside(BDefer)
  }

  function EndLeft(s: State): nat {
    match s.b
    case BTop => 8
    case BDeadline => 7
    case BReading => 6
    case BLocking => 5
    case BSending => 4
    case BCancel => 3
    case BCloseWs => 2
    case BCloseRemote => 1
    case BGone => 0
  }

  lemma WayOut(s: State) returns (more: seq<Action>)
    requires Inv(s) && !Doomed(s)
    ensures Legal(QuietStep, s, more) && After(QuietStep, s, more).remoteClosed
    decreases EndLeft(s), s.p.PSending?, !s.client.broken
  {
    if s.b.BGone? {
      more := [];
    } else {
      var act := TowardsEnd(s);
      QuietKeeps(s, act);
      var rest := WayOut(QuietStep(s, act).value);
      Cons(QuietStep, s, act, rest);
      more := [act] + rest;
    }
  }

  /** In every reachable state: if the remote peer does nothing more, the remote connection can still
      be closed if and only if the remote side is not yet past the context test in front of a starved
      read. */
  lemma RemoteCanCloseIff(udp: bool, run: seq<Action>, s: State)
    requires Reaches(udp, run, s)
    ensures (exists more :: Legal(QuietStep, s, more) && After(QuietStep, s, more).remoteClosed) <==>
            !(Starved(s) && (s.b.BDeadline? || s.b.BReading?))
  {
    ReachedHolds(udp, run, s);
    QuietInductive();
    forall more | Legal(QuietStep, s, more) && Doomed(s) ensures !After(QuietStep, s, more).remoteClosed {
      InvariantHolds(QuietStep, Doomed, s, more);
    }
    if !Doomed(s) {
      var more := WayOut(s);
    }
  }

  /** However long it goes on without the peer, the remote side is blocked and the remote open. */
  ghost predicate Hangs(s: State) {
    forall more :: Legal(QuietStep, s, more) ==>
      OuterBlocked(After(QuietStep, s, more)) && !After(QuietStep, s, more).remoteClosed
  }

  lemma StarvedReadHangs(s: State)
    requires Doomed(s) && s.b.BReading?
    ensures Hangs(s)
  {
    QuietInductive();
    forall more | Legal(QuietStep, s, more)
      ensures OuterBlocked(After(QuietStep, s, more)) && !After(QuietStep, s, more).remoteClosed
    {
      InvariantHolds(QuietStep, t => Doomed(t) && t.b.BReading?, s, more);
      OuterBlockedIff(After(QuietStep, s, more));
    }
  }

  /** Only a starved read hangs: the other waits can end when the stream does. */
  lemma NothingElseHangs(s: State)
    requires Inv(s) && !Doomed(s)
    ensures !Hangs(s)
  {
    var more := WayOut(s);
  }

  /** The loop goes on until the read has nothing left; the client makes room as needed. */
  function TowardsRead(s: State): Action {
    if s.p.PSending? && (s.b.BLocking? || s.b.BSending?) then
      if s.client.room > 0 then Ping(PSend(true)) else Client(Drains)
    else
      match s.b
      case BTop => Outside(BSelect)
      case BDeadline => Outside(BSetDeadline(true))
      case BReading => Outside(BRead(true))
      case BLocking => Outside(BLock)
      case _ => if s.client.room > 0 then Outside(BSend(true)) else Client(Drains)
  }

  function ReadLeft(s: State): nat {
    match s.b
    case BLocking => 5
    case BSending => 4
    case BTop => 3
    case BDeadline => 2
    case _ => 1
  }

  lemma IntoTheRead(s: State) returns (more: seq<Action>)
    requires Inv(s) && AtRisk(s)
    ensures Legal(QuietStep, s, more)
    ensures var s' := After(QuietStep, s, more); Doomed(s') && s'.b.BReading?
    decreases s.peer.pending, ReadLeft(s), s.p.PSending?, s.client.room == 0
  {
    if s.b.BReading? && s.peer.pending == 0 {
      more := [];
    } else {
      var act := TowardsRead(s);
      QuietKeeps(s, act);
      var rest := IntoTheRead(QuietStep(s, act).value);
      Cons(QuietStep, s, act, rest);
      more := [act] + rest;
    }
  }

  ghost predicate HangCanCome(s: State) {
    exists more :: Legal(QuietStep, s, more) && Hangs(After(QuietStep, s, more))
  }

  /** And it can come to stay open for ever, the goroutine blocked in its read, if and only if the
      read has no deadline, the peer has neither ended nor broken, and no context test that must fail
      lies ahead: the starved read is next, or the loop still goes on. */
  lemma RemoteCanHangIff(udp: bool, run: seq<Action>, s: State)
    requires Reaches(udp, run, s)
    ensures HangCanCome(s) <==>
            && !s.udp && !s.peer.ended && !s.peer.broken
            && (|| (s.peer.pending == 0 && (s.b.BDeadline? || s.b.BReading? || (s.b.BTop? && !s.client.broken)))
                || (s.b.InLoop() && !s.wsDone && !s.client.broken))
  {
    ReachedHolds(udp, run, s);
    QuietInductive();
    if AtRisk(s) {
      var more := IntoTheRead(s);
      StarvedReadHangs(After(QuietStep, s, more));
    } else {
      forall more | Legal(QuietStep, s, more) ensures !Hangs(After(QuietStep, s, more)) {
        InvariantHolds(QuietStep, t => Inv(t) && !AtRisk(t), s, more);
        NothingElseHangs(After(QuietStep, s, more));
      }
    }
  }

  /** The client leaves while the remote side waits for a TCP peer. */
  function ClientLeaves(): seq<Action> {
    [Outside(BSelect), Outside(BSetDeadline(true)), Inside(ASelect), Client(Ends), Inside(ARead(false)),
     Inside(ADefer), Inside(ADefer), Inside(ADefer)]
  }

  /** So a silent TCP peer keeps the remote connection and its goroutine after the client has gone. */
  lemma SilentPeerIsNeverClosed()
    ensures Legal(Step, Init(false), ClientLeaves())
    ensures var s := After(Step, Init(false), ClientLeaves()); s.a.AGone? && s.wsDone && s.client.broken && Hangs(s)
  {
    var run := ClientLeaves();
    var s0 := Init(false);
    var s1 := Step(s0, run[0]).value;
    var s2 := Step(s1, run[1]).value;
    var s3 := Step(s2, run[2]).value;
    var s4 := Step(s3, run[3]).value;
    var s5 := Step(s4, run[4]).value;
    var s6 := Step(s5, run[5]).value;
    var s7 := Step(s6, run[6]).value;
    var s8 := Step(s7, run[7]).value;
    Cons(Step, s7, run[7], []);
    Cons(Step, s6, run[6], run[7..]);
    Cons(Step, s5, run[5], run[6..]);
    Cons(Step, s4, run[4], run[5..]);
    Cons(Step, s3, run[3], run[4..]);
    Cons(Step, s2, run[2], run[3..]);
    Cons(Step, s1, run[1], run[2..]);
    Cons(Step, s0, run[0], run[1..]);
    ReachedHolds(false, run, s8);
    StarvedReadHangs(s8);
  }

  // ---- A client that does not read ----

  /** Whoever has the write lock waits for room. */
  predicate Jammed(s: State) {
    Locked(s) && s.client.Full()
  }

  /** Steps in which the client makes no room and the stream does not end. */
  function UndrainedStep(s: State, act: Action): Option<State> {
    if act == Client(Drains) || act == Client(Breaks) then None else Step(s, act)
  }

  /** A jam stays, with the same holder. */
  predicate StillJammed(s: State, s': State) {
    Inv(s') && Jammed(s') && (s'.b.BSending? <==> s.b.BSending?) && (s.a.ACloseWs? ==> s'.a.ACloseWs?)
  }

  lemma UndrainedKeepsJam(s: State, act: Action)
    requires Inv(s) && Jammed(s) && UndrainedStep(s, act).Some?
    ensures StillJammed(s, UndrainedStep(s, act).value)
  {
    StepKeepsInv(s, act);
  }

  /** While the client makes no room, a jam lasts: the websocket is not marked done, so neither the
      stream nor the remote connection is closed. */
  lemma JamLasts(s: State, more: seq<Action>)
    requires Inv(s) && Jammed(s) && Legal(UndrainedStep, s, more)
    ensures var s' := After(UndrainedStep, s, more);
      && StillJammed(s, s') && !s'.wsDone && !s'.remoteClosed && !s'.a.ACloseStream? && !s'.a.AGone?
  {
    forall t, act | StillJammed(s, t) && UndrainedStep(t, act).Some?
      ensures StillJammed(s, UndrainedStep(t, act).value)
    {
      UndrainedKeepsJam(t, act);
    }
    InvariantHolds(UndrainedStep, t => StillJammed(s, t), s, more);
  }

  /** How the websocket gets marked done: the holder of the lock finishes, and the websocket side
      leaves its loop and closes. */
  function TowardsDone(s: State): Action {
    if s.b.BSending? then Outside(BSend(s.client.room > 0))
    else if s.p.PSending? then Ping(PSend(s.client.room > 0))
    else
      match s.a
      case ATop => Inside(ASelect)
      case AReading => if s.client.ended then Inside(ARead(false)) else Client(Ends)
      case AWriting => if s.remoteClosed || s.peer.broken then Inside(AWrite(false)) else Peer(Breaks)
      case _ => Inside(ADefer)
  }

  lemma WayToDone(s: State) returns (more: seq<Action>)
    requires Inv(s) && !Jammed(s) && !s.wsDone
    ensures Legal(UndrainedStep, s, more) && After(UndrainedStep, s, more).wsDone
    decreases Locked(s), InnerLeft(s), !s.client.ended, !s.peer.broken
  {
    var act := TowardsDone(s);
    var s' := UndrainedStep(s, act).value;
    StepKeepsInv(s, act);
    if s'.wsDone {
      Cons(UndrainedStep, s, act, []);
      more := [act];
    } else {
      var rest := WayToDone(s');
      Cons(UndrainedStep, s, act, rest);
      more := [act] + rest;
    }
  }

  /** In every reachable state: if the client makes no more room and the stream does not end, the
      websocket can still be marked done if and only if it is already, or nobody holds the write lock
      inside a write that waits for room. */
  lemma DoneCanComeIff(udp: bool, run: seq<Action>, s: State)
    requires Reaches(udp, run, s)
    ensures (exists more :: Legal(UndrainedStep, s, more) && After(UndrainedStep, s, more).wsDone) <==>
            s.wsDone || !(Locked(s) && s.client.room == 0 && !s.client.broken)
  {
    ReachedHolds(udp, run, s);
    if Jammed(s) {
      forall more | Legal(UndrainedStep, s, more) ensures !After(UndrainedStep, s, more).wsDone {
        JamLasts(s, more);
      }
    } else if s.wsDone {
      assert Legal(UndrainedStep, s, []) && After(UndrainedStep, s, []).wsDone;
    } else {
      var more := WayToDone(s);
    }
  }

  /** What the remote side has read and not yet written. */
  function InHand(s: State): nat {
    if s.b.BLocking? || s.b.BSending? then 1 else 0
  }

  /** The loop of the remote side may still write more than the client has room for. */
  predicate MayOverflow(s: State) {
    s.b.InLoop() && (!s.peer.ended || s.peer.pending + InHand(s) > s.client.room)
  }

  /** Somebody may still write to a client that may still block. */
  predicate MayWrite(s: State) {
    !s.wsDone && !s.client.broken && (!s.p.PGone? || MayOverflow(s))
  }

  lemma OuterAddsNoWriter(s: State, op: OuterOp)
    requires Inv(s) && !MayWrite(s) && OuterStep(s, op).Some?
    ensures !MayWrite(OuterStep(s, op).value)
  {
  }

  lemma NoWriterStays(s: State, act: Action)
    requires Inv(s) && !MayWrite(s) && UndrainedStep(s, act).Some?
    ensures Inv(UndrainedStep(s, act).value) && !MayWrite(UndrainedStep(s, act).value)
  {
    StepKeepsInv(s, act);
    if act.Outside? {
      OuterAddsNoWriter(s, act.outer);
    }
  }

  /** How the lock gets taken: by the pinger, or else by the remote side. */
  function TowardsJam(s: State): Action {
    if s.b.BSending? then Outside(BSend(true))
    else if s.p.PSending? then Ping(PSend(true))
    else if s.p.PWaiting? then Ping(PTick)
    else if s.p.PLocking? then Ping(PLock)
    else
      match s.b
      case BTop => Outside(BSelect)
      case BDeadline => Outside(BSetDeadline(true))
      case BReading => if s.peer.pending > 0 then Outside(BRead(true)) else Peer(Sends)
      case _ => Outside(BLock)
  }

  function JamLeft(s: State): nat {
    if Locked(s) then 0
    else if s.p.PLocking? then 1
    else if s.p.PWaiting? then 2
    else
      match s.b
      case BTop => 5
      case BDeadline => 4
      case BReading => if s.peer.pending > 0 then 2 else 3
      case _ => 1
  }

  lemma WayToJam(s: State) returns (more: seq<Action>)
    requires Inv(s) && MayWrite(s)
    ensures Legal(UndrainedStep, s, more) && Jammed(After(UndrainedStep, s, more))
    decreases s.client.room, JamLeft(s)
  {
    if Jammed(s) {
      more := [];
    } else {
      var act := TowardsJam(s);
      StepKeepsInv(s, act);
      var rest := WayToJam(UndrainedStep(s, act).value);
      Cons(UndrainedStep, s, act, rest);
      more := [act] + rest;
    }
  }

  ghost predicate JamCanCome(s: State) {
    exists more :: Legal(UndrainedStep, s, more) && Jammed(After(UndrainedStep, s, more))
  }

  /** And a jam can come if and only if the websocket is not done, the stream has not ended, and the
      pinger is still there to write, or the loop of the remote side is and its peer may still send, or
      has already sent more than the client has room for. */
  lemma JamCanComeIff(udp: bool, run: seq<Action>, s: State)
    requires Reaches(udp, run, s)
    ensures JamCanCome(s) <==>
            && !s.wsDone && !s.client.broken
            && (|| !s.p.PGone?
                || (s.b.InLoop() && (!s.peer.ended || s.peer.pending + InHand(s) > s.client.room)))
  {
    ReachedHolds(udp, run, s);
    if MayWrite(s) {
      var more := WayToJam(s);
    } else {
      forall t, act | Inv(t) && !MayWrite(t) && UndrainedStep(t, act).Some?
        ensures Inv(UndrainedStep(t, act).value) && !MayWrite(UndrainedStep(t, act).value)
      {
        NoWriterStays(t, act);
      }
      forall more | Legal(UndrainedStep, s, more) ensures !Jammed(After(UndrainedStep, s, more)) {
        InvariantHolds(UndrainedStep, t => Inv(t) && !MayWrite(t), s, more);
      }
    }
  }

  /** The remote side reads from its peer and is inside the write to the client. */
  function RemoteWrites(): seq<Action> {
    [Outside(BSelect), Outside(BSetDeadline(true)), Peer(Sends), Outside(BRead(true)), Outside(BLock)]
  }

  /** The websocket side relays a message, fails and wants to close. */
  function RelayFails(): seq<Action> {
    [Inside(ASelect), Client(Sends), Inside(ARead(true)), Peer(Breaks), Inside(AWrite(false)), Inside(ADefer)]
  }

  /** Both sides of the relay wait, and nothing is closed, while the client makes no room. */
  ghost predicate Deadlocked(s: State) {
    forall more :: Legal(UndrainedStep, s, more) ==>
      var s' := After(UndrainedStep, s, more);
      InnerBlocked(s') && OuterBlocked(s') && !s'.wsDone && !s'.remoteClosed
  }

  lemma ClosingJamIsDeadlock(s: State)
    requires Inv(s) && Jammed(s) && s.a.ACloseWs? && s.b.BSending?
    ensures Deadlocked(s)
  {
    forall more | Legal(UndrainedStep, s, more)
      ensures var s' := After(UndrainedStep, s, more);
        InnerBlocked(s') && OuterBlocked(s') && !s'.wsDone && !s'.remoteClosed
    {
      JamLasts(s, more);
      InnerBlockedIff(After(UndrainedStep, s, more));
      OuterBlockedIff(After(UndrainedStep, s, more));
    }
  }

  lemma RemoteWritesRuns(udp: bool)
    ensures Legal(Step, Init(udp), RemoteWrites())
    ensures After(Step, Init(udp), RemoteWrites()) == Init(udp).(b := BSending)
  {
    var run := RemoteWrites();
    var s0 := Init(udp);
    var s1 := Step(s0, run[0]).value;
    var s2 := Step(s1, run[1]).value;
    var s3 := Step(s2, run[2]).value;
    var s4 := Step(s3, run[3]).value;
    Cons(Step, s4, run[4], []);
    Cons(Step, s3, run[3], run[4..]);
    Cons(Step, s2, run[2], run[3..]);
    Cons(Step, s1, run[1], run[2..]);
    Cons(Step, s0, run[0], run[1..]);
  }

  lemma RelayFailsRuns(s: State)
    requires s.a.ATop? && s.client == End(0, 0, false, false)
    ensures Legal(Step, s, RelayFails())
    ensures var s' := After(Step, s, RelayFails()); s'.a.ACloseWs? && s'.b == s.b && s'.client == s.client
  {
    var run := RelayFails();
    var s1 := Step(s, run[0]).value;
    var s2 := Step(s1, run[1]).value;
    var s3 := Step(s2, run[2]).value;
    var s4 := Step(s3, run[3]).value;
    var s5 := Step(s4, run[4]).value;
    Cons(Step, s5, run[5], []);
    Cons(Step, s4, run[4], run[5..]);
    Cons(Step, s3, run[3], run[4..]);
    Cons(Step, s2, run[2], run[3..]);
    Cons(Step, s1, run[1], run[2..]);
    Cons(Step, s, run[0], run[1..]);
  }

  /** Such a deadlock is reachable: closing the websocket waits for the lock, and the call that would
      set a deadline for the writer comes only after it. */
  lemma UnreadWriteDeadlocks(udp: bool)
    ensures Legal(Step, Init(udp), RemoteWrites() + RelayFails())
    ensures var s := After(Step, Init(udp), RemoteWrites() + RelayFails());
      s.a.ACloseWs? && s.b.BSending? && !s.wsDone && !s.remoteClosed && Deadlocked(s)
  {
    RemoteWritesRuns(udp);
    RelayFailsRuns(Init(udp).(b := BSending));
    Split(Step, Init(udp), RemoteWrites(), RelayFails());
    var s := After(Step, Init(udp), RemoteWrites() + RelayFails());
    ReachedHolds(udp, RemoteWrites() + RelayFails(), s);
    ClosingJamIsDeadlock(s);
    assert Legal(UndrainedStep, s, []);
  }

  // ---- A silent client ----

  /** Steps in which the client does nothing. */
  function UnaskedStep(s: State, act: Action): Option<State> {
    if act.Client? then None else Step(s, act)
  }

  /** The websocket side is in a read that nothing will end, or about to be. */
  predicate Unheard(s: State) {
    && s.client.pending == 0 && !s.client.ended
    && (s.a.AReading? || (s.a.ATop? && !s.client.broken))
  }

  lemma UnaskedKeeps(s: State, act: Action)
    requires Inv(s) && UnaskedStep(s, act).Some?
    ensures var s' := UnaskedStep(s, act).value;
      && Inv(s') && (Unheard(s) ==> Unheard(s')) && (Jammed(s) ==> Jammed(s'))
  {
    StepKeepsInv(s, act);
  }

  /** The holder of the lock finishes, the websocket side relays what it has, and the remote fails. */
  function TowardsHome(s: State): Action {
    if s.b.BSending? then Outside(BSend(s.client.room > 0))
    else if s.p.PSending? then Ping(PSend(s.client.room > 0))
    else
      match s.a
      case ATop => Inside(ASelect)
      case AReading => Inside(ARead(s.client.pending > 0))
      case AWriting => if s.remoteClosed || s.peer.broken then Inside(AWrite(false)) else Peer(Breaks)
      case _ => Inside(ADefer)
  }

  function HomeLeft(s: State): nat {
    (if Locked(s) then 20 else 0) + 2 * InnerLeft(s) + (if s.peer.broken then 0 else 1)
  }

  lemma NearerHome(s: State)
    requires Inv(s) && !Unheard(s) && !Jammed(s) && !s.a.AGone?
    ensures UnaskedStep(s, TowardsHome(s)).Some?
    ensures var s' := UnaskedStep(s, TowardsHome(s)).value;
      !Unheard(s') && !Jammed(s') && HomeLeft(s') < HomeLeft(s)
  {
  }

  lemma WayHome(s: State) returns (more: seq<Action>)
    requires Inv(s) && !Unheard(s) && !Jammed(s)
    ensures Legal(UnaskedStep, s, more) && After(UnaskedStep, s, more).a.AGone?
    decreases HomeLeft(s)
  {
    if s.a.AGone? {
      more := [];
    } else {
      var act := TowardsHome(s);
      NearerHome(s);
      UnaskedKeeps(s, act);
      var rest := WayHome(UnaskedStep(s, act).value);
      Cons(UnaskedStep, s, act, rest);
      more := [act] + rest;
    }
  }

  ghost predicate EndCanCome(s: State) {
    exists more :: Legal(UnaskedStep, s, more) && After(UnaskedStep, s, more).a.AGone?
  }

  /** In every reachable state: if the client does nothing more, the websocket side can still end, and
      close the stream, if and only if it is not in a read that nothing will end, or about to be, and
      nobody holds the write lock inside a write that waits for room. */
  lemma WebsocketCanEndIff(udp: bool, run: seq<Action>, s: State)
    requires Reaches(udp, run, s)
    ensures EndCanCome(s) <==> !Unheard(s) && !Jammed(s)
  {
    ReachedHolds(udp, run, s);
    if !Unheard(s) && !Jammed(s) {
      var more := WayHome(s);
    } else {
      var stuck := t => Inv(t) && (Unheard(t) || Jammed(t));
      forall t, act | stuck(t) && UnaskedStep(t, act).Some? ensures stuck(UnaskedStep(t, act).value) {
        UnaskedKeeps(t, act);
      }
      forall more | Legal(UnaskedStep, s, more) ensures !After(UnaskedStep, s, more).a.AGone? {
        InvariantHolds(UnaskedStep, stuck, s, more);
      }
    }
  }
}
