/** The way back: `handleRemoteConn` of server/cfd/connection.go hands what it reads from the remote
    connection to the locked frame writer, in competition with pings and closes, and the client turns
    the frames back into a byte stream. */
module Downstream {
  import opened Bytes
  import opened Runs
  import opened Server
  import A = ArgoConn
  import F = Frames
  import W = WsWriter

  /** The messages a client's websocket library returns: control frames it handles itself. */
  function BinaryPayloads(frames: seq<F.Frame>): seq<seq<Byte>> {
    if frames == [] then [] else Message(frames[0]) + BinaryPayloads(frames[1..])
  }

  function Message(f: F.Frame): seq<seq<Byte>> {
    if f.opcode == F.BINARY then [f.payload] else []
  }

  /** From the server's concurrent writers to the client's reader: as long as no write breaks off,
      reads of any sizes hand out, in order, the payloads of the finished `Write` calls, with every
      byte either handed out or still to come. */
  lemma WritesAreAByteStream(run: seq<W.Action>, s: W.State, sizes: seq<nat>)
    requires W.Reaches(run, s) && Count(run, W.BreaksOff) == 0
    ensures
      var r := A.Reader([], BinaryPayloads(F.ParseAll(s.shared.wire).0));
      A.ReadAll(r, sizes).1 + A.Pending(A.ReadAll(r, sizes).0) ==
      Concat(BinaryPayloads(W.FramesOf(s.shared.pieces)))
  {
    W.ReceiverReadsTheFrames(run, s);
    var r := A.Reader([], BinaryPayloads(W.FramesOf(s.shared.pieces)));
    A.StreamIsConserved(r, sizes);
    assert A.Pending(r) == Concat(r.inbox);
  }

  // ---- With the remote loop ----

  /** The loop of `handleRemoteConn`, by what it does next; `refused` if its last write failed. */
  datatype Loop = Reading | Writing(t: nat) | Stopped(refused: bool)

  /** `chunks` is what was read from the remote connection. */
  datatype State = State(ws: W.State, chunks: seq<seq<Byte>>, loop: Loop)

  datatype Action =
    | Receive(data: seq<Byte>)  // a remote read, and the call of Write
    | Finish                    // that call has returned
    | Stop                      // the context has ended, or the remote read has failed
    | Other(act: W.Action)      // a step of any call, or the start of a ping or a close

  function Init(): State {
    State(W.Init(), [], Reading)
  }

  function Step(s: State, a: Action): Option<State> {
    match a
    case Receive(data) =>
      if s.loop.Reading? && |data| <= BUFFER_SIZE
      then Some(State(s.ws.(threads := s.ws.threads + [W.Calling(W.CallWrite(data))]), s.chunks + [data],
                      Writing(|s.ws.threads|)))
      else None
    case Finish =>
      if s.loop.Writing? && s.loop.t < |s.ws.threads| && s.ws.threads[s.loop.t].Returned?
      then Some(s.(loop := if s.ws.threads[s.loop.t].ok then Reading else Stopped(true)))
      else None
    case Stop => if s.loop.Reading? then Some(s.(loop := Stopped(false))) else None
    case Other(act) =>
      if act.Start? && act.call.CallWrite? then None
      else
        match W.Step(s.ws, act) {
          case None => None
          case Some(ws) => Some(s.(ws := ws))
        }
  }

  /** Steps in which no write breaks off in the middle of a frame. */
  function CleanStep(s: State, a: Action): Option<State> {
    if a.Other? && W.BreaksOff(a.act) then None else Step(s, a)
  }

  /** The payloads on the wire. */
  function Sent(ws: W.State): seq<seq<Byte>> {
    BinaryPayloads(W.FramesOf(ws.shared.pieces))
  }

  predicate Succeeded(th: W.Thread) {
    (th.Leaving? || th.Returned?) && th.ok
  }

  /** The last chunk is not on the wire: its write is under way, or was refused. */
  predicate Outstanding(s: State) {
    match s.loop
    case Reading => false
    case Writing(t) => t < |s.ws.threads| && !Succeeded(s.ws.threads[t])
    case Stopped(refused) => refused
  }

  /** The chunks on the wire. */
  function Through(s: State): seq<seq<Byte>> {
    if Outstanding(s) && s.chunks != [] then s.chunks[..|s.chunks| - 1] else s.chunks
  }

  /** Only the loop writes, one call after the other. */
  ghost predicate OneWriter(s: State) {
    && (forall u :: 0 <= u < |s.ws.threads| && s.ws.threads[u].call.CallWrite? ==>
          s.ws.threads[u].Returned? || s.loop == Writing(u))
    && (s.loop.Writing? ==>
          && s.loop.t < |s.ws.threads| && s.chunks != []
          && s.ws.threads[s.loop.t].call == W.CallWrite(s.chunks[|s.chunks| - 1]))
    && (s.loop == Stopped(true) ==> s.chunks != [])
  }

  ghost predicate AllWhole(ws: W.State) {
    forall i :: 0 <= i < |ws.shared.pieces| ==> W.Whole(ws.shared.pieces[i])
  }

  ghost predicate Inv(s: State) {
    W.Inv(s.ws) && AllWhole(s.ws) && OneWriter(s) && Sent(s.ws) == Through(s)
  }

  lemma Assoc(a: seq<seq<Byte>>, b: seq<seq<Byte>>, c: seq<seq<Byte>>)
    ensures a + (b + c) == (a + b) + c
  {
  }

  lemma {:induction false} BinaryAppend(frames: seq<F.Frame>, f: F.Frame)
    ensures BinaryPayloads(frames + [f]) == BinaryPayloads(frames) + Message(f)
  {
    if frames == [] {
      assert frames + [f] == [f];
      assert BinaryPayloads([f]) == Message(f) + BinaryPayloads([]);
    } else {
      assert (frames + [f])[1..] == frames[1..] + [f];
      BinaryAppend(frames[1..], f);
      Assoc(Message(frames[0]), BinaryPayloads(frames[1..]), Message(f));
    }
  }

  /** What one operation of a call adds to the wire: its payload, when it succeeds. */
  lemma OperationSends(sh: W.Shared, t: nat, th: W.Thread, op: W.Op)
    requires W.Perform(sh, t, th, op).Some? && !op.BreakOff? && W.ThreadOk(th)
    ensures var e := W.Perform(sh, t, th, op).value;
      && e.th.call == th.call
      && (Succeeded(th) ==> Succeeded(e.th))
      && BinaryPayloads(W.FramesOf(e.sh.pieces)) == BinaryPayloads(W.FramesOf(sh.pieces)) +
           (if th.call.CallWrite? && Succeeded(e.th) && !Succeeded(th) then [th.call.payload] else [])
  {
    var f := W.FrameOf(th.call);
    var p := W.Piece(f, |F.Encode(f)|);
    assert W.FramesOf(sh.pieces + [p]) == W.FramesOf(sh.pieces) + [f];
    BinaryAppend(W.FramesOf(sh.pieces), f);
  }

  /** It adds whole frames only. */
  lemma OperationIsWhole(sh: W.Shared, t: nat, th: W.Thread, op: W.Op)
    requires W.Perform(sh, t, th, op).Some? && !op.BreakOff?
    requires forall i :: 0 <= i < |sh.pieces| ==> W.Whole(sh.pieces[i])
    ensures var e := W.Perform(sh, t, th, op).value;
      && (forall i :: 0 <= i < |e.sh.pieces| ==> W.Whole(e.sh.pieces[i]))
      && !th.Returned?
  {
  }

  /** The state once call `t` has had its effect. */
  function Apply(s: State, t: nat, e: W.Effect): State
    requires t < |s.ws.threads|
  {
    s.(ws := W.State(e.sh, s.ws.threads[t := e.th]))
  }

  lemma EffectKeepsWriter(s: State, t: nat, e: W.Effect)
    requires OneWriter(s) && t < |s.ws.threads| && e.th.call == s.ws.threads[t].call && !s.ws.threads[t].Returned?
    ensures OneWriter(Apply(s, t, e))
  {
  }

  /** The only write under way is that of the last chunk. */
  lemma EffectKeepsSent(s: State, t: nat, e: W.Effect)
    requires OneWriter(s) && t < |s.ws.threads| && !s.ws.threads[t].Returned?
    requires e.th.call == s.ws.threads[t].call && (Succeeded(s.ws.threads[t]) ==> Succeeded(e.th))
    ensures var th := s.ws.threads[t];
      Through(Apply(s, t, e)) == Through(s) +
        if th.call.CallWrite? && Succeeded(e.th) && !Succeeded(th) then [th.call.payload] else []
  {
    if s.loop == Writing(t) {
      assert s.chunks[..|s.chunks| - 1] + [s.chunks[|s.chunks| - 1]] == s.chunks;
    }
  }

  lemma GoKeepsInv(s: State, t: nat, op: W.Op)
    requires Inv(s) && CleanStep(s, Other(W.Go(t, op))).Some?
    ensures Inv(CleanStep(s, Other(W.Go(t, op))).value)
  {
    assert W.Step(s.ws, W.Go(t, op)).Some?;
    W.GoKeepsInv(s.ws, t, op);
    OperationSends(s.ws.shared, t, s.ws.threads[t], op);
    OperationIsWhole(s.ws.shared, t, s.ws.threads[t], op);
    EffectKeepsWriter(s, t, W.Perform(s.ws.shared, t, s.ws.threads[t], op).value);
    EffectKeepsSent(s, t, W.Perform(s.ws.shared, t, s.ws.threads[t], op).value);
  }

  lemma StartKeepsInv(s: State, call: W.Call)
    requires Inv(s) && W.Sendable(call) && (call.CallWrite? ==> s.loop.Reading?)
    ensures W.Inv(s.ws.(threads := s.ws.threads + [W.Calling(call)]))
  {
    W.InvInductive();
    assert W.Step(s.ws, W.Start(call)) == Some(s.ws.(threads := s.ws.threads + [W.Calling(call)]));
  }

  lemma ReceiveKeepsInv(s: State, data: seq<Byte>)
    requires Inv(s) && Step(s, Receive(data)).Some?
    ensures Inv(Step(s, Receive(data)).value)
  {
    var s' := Step(s, Receive(data)).value;
    StartKeepsInv(s, W.CallWrite(data));
    assert s'.chunks[..|s'.chunks| - 1] == s.chunks;
  }

  lemma StepKeepsInv(s: State, a: Action)
    requires Inv(s) && CleanStep(s, a).Some?
    ensures Inv(CleanStep(s, a).value)
  {
    match a
    case Receive(data) => ReceiveKeepsInv(s, data);
    case Finish =>
    case Stop =>
    case Other(act) =>
      if act.Start? {
        StartKeepsInv(s, act.call);
      } else {
        GoKeepsInv(s, act.t, act.op);
      }
  }

  lemma ReachedHolds(run: seq<Action>)
    requires Legal(CleanStep, Init(), run)
    ensures Inv(After(CleanStep, Init(), run))
  {
    forall s, a | Inv(s) && CleanStep(s, a).Some? ensures Inv(CleanStep(s, a).value) {
      StepKeepsInv(s, a);
    }
    InvariantHolds(CleanStep, Inv, Init(), run);
  }

  /** What an action reads from the remote connection. */
  function ReadBy(a: Action): seq<seq<Byte>> {
    if a.Receive? then [a.data] else []
  }

  lemma ChunksAreReads(run: seq<Action>)
    requires Legal(CleanStep, Init(), run)
    ensures After(CleanStep, Init(), run).chunks == Collect(run, ReadBy)
  {
    Recorded(CleanStep, (s: State) => true, (s: State) => s.chunks, ReadBy, Init(), run);
  }

  predicate Stops(a: Action) {
    a.Stop?
  }

  function StoppedFreely(s: State): int {
    if s.loop == Stopped(false) then 1 else 0
  }

  /** The loop goes on after every write that succeeds: it stops only when its context ends or its
      remote read fails, or when a write was refused. */
  lemma LoopStopsForAReason(run: seq<Action>)
    requires Legal(CleanStep, Init(), run)
    ensures var s := After(CleanStep, Init(), run);
      s.loop == Stopped(false) <==> Count(run, Stops) == 1
  {
    Counted(CleanStep, (s: State) => true, Stops, StoppedFreely, Init(), run);
  }

  lemma {:induction false} ConcatLast(xs: seq<seq<Byte>>)
    requires xs != []
    ensures Concat(xs) == Concat(xs[..|xs| - 1]) + xs[|xs| - 1]
  {
    var last := [xs[|xs| - 1]];
    assert xs == xs[..|xs| - 1] + last;
    ConcatAppend(xs[..|xs| - 1], last);
    assert Concat(last) == last[0] + Concat([]);
  }

  /** From the remote connection to the client, for every interleaving of the loop with pings and
      closes in which no write breaks off, and for reads of any sizes: what the client has been handed
      and what is still to come is what was read from the remote connection, byte for byte, except for
      the last chunk while its write is under way or if it was refused. */
  lemma DownstreamIsAByteStream(run: seq<Action>, s: State, sizes: seq<nat>)
    requires Legal(CleanStep, Init(), run) && s == After(CleanStep, Init(), run)
    ensures
      var r := A.Reader([], BinaryPayloads(F.ParseAll(s.ws.shared.wire).0));
      var got := A.ReadAll(r, sizes).1 + A.Pending(A.ReadAll(r, sizes).0);
      var chunks := Collect(run, ReadBy);
      && got <= Concat(chunks)
      && (Outstanding(s) ==> chunks != [] && got + chunks[|chunks| - 1] == Concat(chunks))
      && (!Outstanding(s) ==> got == Concat(chunks))
  {
    ReachedHolds(run);
    ChunksAreReads(run);
    W.WholeIsRead(s.ws);
    var r := A.Reader([], Sent(s.ws));
    A.StreamIsConserved(r, sizes);
    assert A.Pending(r) == Concat(r.inbox);
    if Outstanding(s) {
      ConcatLast(s.chunks);
    }
  }
}
