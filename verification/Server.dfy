/** The server end: choosing the mode (server/cfd/stream.go, `handleQuicStream`), decoding the first
    message when the destination is in-band, and relaying (server/cfd/connection.go).

    Destinations are compared as network name, address bytes and port, not as formatted text. */
module Server {
  import opened Bytes
  import opened Header
  import opened Runs

  const BUFFER_SIZE: nat := 32768

  /** A header value: text, or an endpoint in whatever textual form. */
  datatype Value = Text(text: string) | Endpoint(ip: seq<Byte>, port: Port)

  datatype Target = Target(network: Value, address: Value)

  // ---- Header mode ----

  datatype Field = Field(key: string, val: Value)

  /** The value of the first field with the given key, or the empty string. */
  function Lookup(fields: seq<Field>, key: string): Value {
    if fields == [] then Text("")
    else if fields[0].key == key then fields[0].val
    else Lookup(fields[1..], key)
  }

  /** `ConnectRequest.Network` and `ConnectRequest.Address`, which differ only in the key. */
  method Search(fields: seq<Field>, key: string) returns (v: Value)
    ensures v == Lookup(fields, key)
    ensures (forall i :: 0 <= i < |fields| ==> fields[i].key != key) ==> v == Text("")
    ensures forall i ::
      0 <= i < |fields| && fields[i].key == key && (forall j :: 0 <= j < i ==> fields[j].key != key) ==>
        v == fields[i].val
  {
    for i := 0 to |fields|
      invariant Lookup(fields, key) == Lookup(fields[i..], key)
      invariant forall j :: 0 <= j < i ==> fields[j].key != key
    {
      if fields[i].key == key {
        return fields[i].val;
      }
      assert fields[i..][1..] == fields[i + 1..];
    }
    v := Text("");
  }

  const PROTO_KEY := "HttpHeader:Forward-Proto"
  const DEST_KEY := "HttpHeader:Forward-Dest"

  /** The destination a request names, if it names one: both values must be non-empty. */
  function Accept(fields: seq<Field>): Option<Target> {
    var network, address := Lookup(fields, PROTO_KEY), Lookup(fields, DEST_KEY);
    if network != Text("") && address != Text("") then Some(Target(network, address)) else None
  }

  lemma {:induction false} NotFound(fields: seq<Field>, key: string)
    requires forall i :: 0 <= i < |fields| ==> fields[i].key != key
    ensures Lookup(fields, key) == Text("")
  {
    if fields != [] {
      NotFound(fields[1..], key);
    }
  }

  /** A request that lacks one of the two headers is taken for an in-band one, whatever the other
      says. */
  lemma HalfAnnouncedIsInBand(fields: seq<Field>)
    requires || (forall i :: 0 <= i < |fields| ==> fields[i].key != PROTO_KEY)
             || (forall i :: 0 <= i < |fields| ==> fields[i].key != DEST_KEY)
    ensures Accept(fields) == None
  {
    if forall i :: 0 <= i < |fields| ==> fields[i].key != PROTO_KEY {
      NotFound(fields, PROTO_KEY);
    } else {
      NotFound(fields, DEST_KEY);
    }
  }

  // ---- In-band mode ----

  /** `Packet.protocol`. */
  function ProtocolName(p: Byte): string {
    if p == 1 then "icmp" else if p == 6 then "tcp" else if p == 17 then "udp" else ""
  }

  function TargetOfPacket(p: Packet): Target {
    Target(Text(ProtocolName(p.protocol)), Endpoint(p.ip, p.port))
  }

  // ---- Relay ----

  /** A connection being served; `out` is everything written to the remote side. */
  datatype Relay =
    | Awaiting
    | Relaying(to: Target, out: seq<Byte>)
    | Ended(dialled: Option<Target>, written: seq<Byte>)
  {
    function Dialled(): Option<Target> {
      match this
      case Awaiting => None
      case Relaying(t, _) => Some(t)
      case Ended(d, _) => d
    }

    function Written(): seq<Byte> {
      match this
      case Awaiting => []
      case Relaying(_, o) => o
      case Ended(_, w) => w
    }
  }

  /** One turn of the relay: the message the websocket read returns, whether the context test before it
      finds the stream done, and how the write to the remote connection fares. */
  datatype Turn = Turn(message: seq<Byte>, stopped: bool, taken: nat, failed: bool)
  {
    predicate Clean() {
      !stopped && !failed && taken >= BUFFER_SIZE
    }
  }

  function MessagesOf(turns: seq<Turn>): seq<seq<Byte>> {
    seq(|turns|, i requires 0 <= i < |turns| => turns[i].message)
  }

  /** `dial` says which destinations can be reached. */
  function Start(dial: Target -> bool, named: Option<Target>): Relay {
    if named.None? then Awaiting
    else if dial(named.value) then Relaying(named.value, [])
    else Ended(None, [])
  }

  /** Writing `data` to the remote connection; an error or a short write ends the relay. */
  function Forward(to: Target, out: seq<Byte>, data: seq<Byte>, turn: Turn): Relay {
    if turn.failed || turn.taken < |data| then Ended(Some(to), out + Take(data, turn.taken))
    else Relaying(to, out + data)
  }

  /** One turn: `wsConn.Read` keeps what fits the buffer.  The context is tested in the loop only. */
  function Consume(dial: Target -> bool, r: Relay, turn: Turn): Relay {
    var data := Take(turn.message, BUFFER_SIZE);
    match r
    case Awaiting => (
      match Decode(data)
      case Err(_) => Ended(None, [])
      case Ok(p) =>
        if dial(TargetOfPacket(p)) then Forward(TargetOfPacket(p), [], p.payload, turn) else Ended(None, []))
    case Relaying(to, out) => if turn.stopped then Ended(Some(to), out) else Forward(to, out, data, turn)
    case Ended(_, _) => r
  }

  function Serve(dial: Target -> bool, r: Relay, turns: seq<Turn>): Relay
    decreases |turns|
  {
    if turns == [] then r else Serve(dial, Consume(dial, r, turns[0]), turns[1..])
  }

  /** `handleConn` without a destination: the first message names it. */
  method FirstMessage(dial: Target -> bool, buf: array<Byte>, turn: Turn) returns (r: Relay)
    requires buf.Length == BUFFER_SIZE
    modifies buf
    ensures r == Consume(dial, Awaiting, turn)
  {
    var nr := Copy(buf, turn.message);
    var packet := DecodePacket(buf[..nr]);
    if packet.Err? {
      return Ended(None, []);
    }
    var to := TargetOfPacket(packet.value);
    if !dial(to) {
      return Ended(None, []);
    }
    var payload := packet.value.payload;
    var nw := |Take(payload, turn.taken)|;
    assert [] + Take(payload, turn.taken) == payload[..nw];
    if turn.failed || nw != |payload| {
      return Ended(Some(to), payload[..nw]);
    }
    r := Relaying(to, payload[..nw]);
  }

  /** `handleConn`: one buffer, read into again and again. */
  method HandleConn(dial: Target -> bool, named: Option<Target>, turns: seq<Turn>) returns (r: Relay)
    ensures r == Serve(dial, Start(dial, named), turns)
  {
    var buf := new Byte[BUFFER_SIZE](_ => 0);
    var to;
    var out := [];
    var i := 0;
    if named.None? {
      if turns == [] {
        return Awaiting;
      }
      var first := FirstMessage(dial, buf, turns[0]);
      if first.Ended? {
        EndedForEver(dial, first, turns[1..]);
        return first;
      }
      to, out, i := first.to, first.out, 1;
    } else {
      to := named.value;
      if !dial(to) {
        EndedForEver(dial, Ended(None, []), turns);
        return Ended(None, []);
      }
    }
    while i < |turns|
      invariant i <= |turns| && buf.Length == BUFFER_SIZE
      invariant Serve(dial, Start(dial, named), turns) == Serve(dial, Relaying(to, out), turns[i..])
    {
      assert turns[i..][1..] == turns[i + 1..];
      if turns[i].stopped {
        EndedForEver(dial, Ended(Some(to), out), turns[i + 1..]);
        return Ended(Some(to), out);
      }
      var nr := Copy(buf, turns[i].message);
      var nw := |Take(buf[..nr], turns[i].taken)|;
      out := out + buf[..nw];
      if turns[i].failed || nw != nr {
        assert buf[..nw] == Take(buf[..nr], turns[i].taken);
        EndedForEver(dial, Ended(Some(to), out), turns[i + 1..]);
        return Ended(Some(to), out);
      }
      i := i + 1;
    }
    r := Relaying(to, out);
  }

  /** `handleQuicStream` from the accepted request on: header mode if both values are there. */
  method HandleQuicStream(dial: Target -> bool, fields: seq<Field>, turns: seq<Turn>) returns (r: Relay)
    ensures r == Serve(dial, Start(dial, Accept(fields)), turns)
  {
    var network := Search(fields, PROTO_KEY);
    var address := Search(fields, DEST_KEY);
    var named := None;
    if network != Text("") && address != Text("") {
      named := Some(Target(network, address));
    }
    r := HandleConn(dial, named, turns);
  }

  lemma {:induction false} EndedForEver(dial: Target -> bool, r: Relay, turns: seq<Turn>)
    requires r.Ended?
    ensures Serve(dial, r, turns) == r
    decreases |turns|
  {
    if turns != [] {
      EndedForEver(dial, r, turns[1..]);
    }
  }

  // ---- What arrives ----

  /** Chunks as the remote side gets them: the first cut to `room`, the others to the buffer. */
  function Delivered(room: nat, chunks: seq<seq<Byte>>): seq<seq<Byte>>
    decreases |chunks|
  {
    if chunks == [] then [] else [Take(chunks[0], room)] + Delivered(BUFFER_SIZE, chunks[1..])
  }

  predicate Fits(room: nat, chunks: seq<seq<Byte>>)
    decreases |chunks|
  {
    chunks == [] || (|chunks[0]| <= room && Fits(32768, chunks[1..]))
  }

  /** No turn was stopped, failed or cut short. */
  ghost predicate Undisturbed(turns: seq<Turn>) {
    forall i :: 0 <= i < |turns| ==> turns[i].Clean()
  }

  /** The relay has dialled `to`, has written a prefix of `all`, and has written all of it if it is
      still going. */
  predicate Carries(r: Relay, to: Target, all: seq<Byte>) {
    && r.Dialled() == Some(to)
    && r.Written() <= all
    && (r.Relaying? ==> r.Written() == all)
  }

  lemma {:induction false} RelayCarries(dial: Target -> bool, to: Target, out: seq<Byte>, turns: seq<Turn>)
    ensures var r := Serve(dial, Relaying(to, out), turns);
      && Carries(r, to, out + Concat(Delivered(BUFFER_SIZE, MessagesOf(turns))))
      && (Undisturbed(turns) ==> r.Relaying?)
    decreases |turns|
  {
    if turns == [] {
      assert out + [] == out;
    } else {
      var data := Take(turns[0].message, BUFFER_SIZE);
      var rest := Concat(Delivered(BUFFER_SIZE, MessagesOf(turns[1..])));
      assert MessagesOf(turns)[1..] == MessagesOf(turns[1..]);
      assert out + Concat(Delivered(BUFFER_SIZE, MessagesOf(turns))) == out + data + rest;
      if Consume(dial, Relaying(to, out), turns[0]).Relaying? {
        RelayCarries(dial, to, out + data, turns[1..]);
      } else {
        EndedForEver(dial, Consume(dial, Relaying(to, out), turns[0]), turns[1..]);
      }
    }
  }

  lemma DeliveredHead(room: nat, chunks: seq<seq<Byte>>)
    requires chunks != []
    ensures Concat(Delivered(room, chunks)) == Take(chunks[0], room) + Concat(Delivered(BUFFER_SIZE, chunks[1..]))
  {
    assert Delivered(room, chunks)[1..] == Delivered(BUFFER_SIZE, chunks[1..]);
  }

  /** The turn neither ends nor cuts the relay of `data`. */
  predicate Whole(turn: Turn, data: seq<Byte>) {
    !turn.failed && turn.taken >= |data|
  }

  /** What the relay takes from the websocket in one turn. */
  function DataOf(turn: Turn): seq<Byte> {
    Take(turn.message, BUFFER_SIZE)
  }

  /** The exact outcome of the relay.  Turn `k` is the first in which the stream is found done, or the
      write fails or is short; if there is none, `k` is the number of turns.  Everything before it has
      been written, and of turn `k` what the write took, unless the stream was found done; then the
      relay is over, whatever comes after. */
  lemma {:induction false} RelayOutcome(dial: Target -> bool, to: Target, out: seq<Byte>, turns: seq<Turn>, k: nat)
    requires k <= |turns|
    requires forall j :: 0 <= j < k ==> !turns[j].stopped && Whole(turns[j], DataOf(turns[j]))
    requires k < |turns| ==> turns[k].stopped || !Whole(turns[k], DataOf(turns[k]))
    ensures var written := out + Concat(Delivered(BUFFER_SIZE, MessagesOf(turns[..k])));
      Serve(dial, Relaying(to, out), turns) ==
        if k == |turns| then Relaying(to, written)
        else Ended(Some(to), written + if turns[k].stopped then [] else Take(DataOf(turns[k]), turns[k].taken))
    decreases k
  {
    if k == 0 {
      assert MessagesOf(turns[..0]) == [];
      assert out + [] == out;
      if turns != [] {
        EndedForEver(dial, Consume(dial, Relaying(to, out), turns[0]), turns[1..]);
      }
    } else {
      var data := DataOf(turns[0]);
      RelayOutcome(dial, to, out + data, turns[1..], k - 1);
      assert turns[1..][..k - 1] == turns[..k][1..];
      assert MessagesOf(turns[..k])[1..] == MessagesOf(turns[..k][1..]);
      DeliveredHead(BUFFER_SIZE, MessagesOf(turns[..k]));
      var rest := Concat(Delivered(BUFFER_SIZE, MessagesOf(turns[..k][1..])));
      assert out + data + rest == out + (data + rest);
    }
  }

  /** In header mode the relay is dialled before the first turn. */
  lemma HeaderModeOutcome(dial: Target -> bool, to: Target, turns: seq<Turn>, k: nat)
    requires k <= |turns| && dial(to)
    requires forall j :: 0 <= j < k ==> !turns[j].stopped && Whole(turns[j], DataOf(turns[j]))
    requires k < |turns| ==> turns[k].stopped || !Whole(turns[k], DataOf(turns[k]))
    ensures var written := Concat(Delivered(BUFFER_SIZE, MessagesOf(turns[..k])));
      Serve(dial, Start(dial, Some(to)), turns) ==
        if k == |turns| then Relaying(to, written)
        else Ended(Some(to), written + if turns[k].stopped then [] else Take(DataOf(turns[k]), turns[k].taken))
  {
    RelayOutcome(dial, to, [], turns, k);
    var written := Concat(Delivered(BUFFER_SIZE, MessagesOf(turns[..k])));
    assert [] + written == written;
  }

  /** A destination that cannot be reached, and a first message that does not decode, end the
      connection before anything is dialled or written. */
  lemma RefusedMeansNothing(dial: Target -> bool, named: Option<Target>, turns: seq<Turn>)
    requires
      if named.Some? then !dial(named.value)
      else turns != [] &&
           (Decode(DataOf(turns[0])).Err? || !dial(TargetOfPacket(Decode(DataOf(turns[0])).value)))
    ensures Serve(dial, Start(dial, named), turns) == Ended(None, [])
  {
    EndedForEver(dial, Ended(None, []), turns);
    if named.None? {
      EndedForEver(dial, Ended(None, []), turns[1..]);
    }
  }

  /** Nothing is lost exactly when every message fits the server's buffer. */
  lemma {:induction false} LosslessIffFits(room: nat, chunks: seq<seq<Byte>>)
    ensures Fits(room, chunks) ==> Delivered(room, chunks) == chunks
    ensures !Fits(room, chunks) ==> |Concat(Delivered(room, chunks))| < |Concat(chunks)|
    ensures Concat(Delivered(room, chunks)) == Concat(chunks) <==> Fits(room, chunks)
    decreases |chunks|
  {
    if chunks != [] {
      LosslessIffFits(BUFFER_SIZE, chunks[1..]);
    }
  }

  /** The destination metadata names. */
  function TargetOf(m: Metadata): Target {
    Target(Text(ProtocolName(m.network)), Endpoint(m.dstIP.AsSlice(), m.dstPort))
  }

  /** The messages of a pooled connection: the header in front of the first chunk. */
  function Messages(header: seq<Byte>, chunks: seq<seq<Byte>>): seq<seq<Byte>>
    requires chunks != []
  {
    [header + chunks[0]] + chunks[1..]
  }

  /** The first turn of a pooled connection. */
  lemma FirstTurn(dial: Target -> bool, m: Metadata, chunk: seq<Byte>, turn: Turn)
    requires m.Matching() && dial(TargetOf(m)) && turn.message == HeaderBytes(m) + chunk
    ensures Consume(dial, Awaiting, turn) ==
            if |chunk| >= 2
            then Forward(TargetOf(m), [], Take(chunk, BUFFER_SIZE - HeaderLength(m)), turn)
            else Ended(None, [])
  {
    var first := Take(chunk, BUFFER_SIZE - HeaderLength(m));
    assert Take(turn.message, BUFFER_SIZE) == HeaderBytes(m) + first;
    DecodeInvertsHeader(m, first);
  }

  /** The first write and the relay after it. */
  lemma FirstWriteThenRelay(dial: Target -> bool, to: Target, first: seq<Byte>, turns: seq<Turn>)
    requires turns != [] && |first| <= BUFFER_SIZE
    ensures var r := Serve(dial, Forward(to, [], first, turns[0]), turns[1..]);
      && Carries(r, to, first + Concat(Delivered(BUFFER_SIZE, MessagesOf(turns[1..]))))
      && (Undisturbed(turns) ==> r.Relaying?)
  {
    var r1 := Forward(to, [], first, turns[0]);
    assert [] + first == first;
    if r1.Relaying? {
      RelayCarries(dial, to, first, turns[1..]);
    } else {
      EndedForEver(dial, r1, turns[1..]);
    }
  }

  /** End to end on a pooled connection, however the turns go: the server dials what the metadata says,
      and what it writes is at every moment a prefix of the chunks, each cut to the buffer and the
      first to what the header leaves of it; all of them unless a write fails or the stream ends.  A
      first chunk of fewer than two bytes ends the connection instead. */
  lemma PooledEndToEnd(dial: Target -> bool, m: Metadata, chunks: seq<seq<Byte>>, turns: seq<Turn>)
    requires m.Matching() && chunks != [] && dial(TargetOf(m))
    requires MessagesOf(turns) == Messages(HeaderBytes(m), chunks)
    ensures var r := Serve(dial, Awaiting, turns);
      if |chunks[0]| >= 2 then
        && Carries(r, TargetOf(m), Concat(Delivered(BUFFER_SIZE - HeaderLength(m), chunks)))
        && (Undisturbed(turns) ==> r.Relaying?)
      else r == Ended(None, [])
  {
    var room := BUFFER_SIZE - HeaderLength(m);
    var first := Take(chunks[0], room);
    assert |turns| == |MessagesOf(turns)| == |chunks|;
    assert turns[0].message == MessagesOf(turns)[0];
    FirstTurn(dial, m, chunks[0], turns[0]);
    assert MessagesOf(turns[1..]) == MessagesOf(turns)[1..] == chunks[1..];
    if |chunks[0]| >= 2 {
      DeliveredHead(room, chunks);
      FirstWriteThenRelay(dial, TargetOf(m), first, turns);
    } else {
      EndedForEver(dial, Ended(None, []), turns[1..]);
    }
  }

  /** How a pooled connection ends: `k` is the first turn behind the first write that breaks it off. */
  function PooledResult(to: Target, room: nat, chunks: seq<seq<Byte>>, turns: seq<Turn>, k: nat): Relay
    requires 0 < k <= |turns| == |chunks|
  {
    if !Whole(turns[0], Take(chunks[0], room)) then
      Ended(Some(to), Take(Take(chunks[0], room), turns[0].taken))
    else if k == |turns| then Relaying(to, Concat(Delivered(room, chunks)))
    else
      Ended(Some(to),
            Concat(Delivered(room, chunks[..k])) +
            if turns[k].stopped then [] else Take(Take(chunks[k], BUFFER_SIZE), turns[k].taken))
  }

  lemma FirstWriteOutcome(
    dial: Target -> bool, to: Target, room: nat, chunks: seq<seq<Byte>>, turns: seq<Turn>, k: nat)
    requires 0 < k <= |turns| == |chunks| && MessagesOf(turns)[1..] == chunks[1..]
    requires forall j :: 1 <= j < k ==> !turns[j].stopped && Whole(turns[j], DataOf(turns[j]))
    requires k < |turns| ==> turns[k].stopped || !Whole(turns[k], DataOf(turns[k]))
    ensures Serve(dial, Forward(to, [], Take(chunks[0], room), turns[0]), turns[1..]) ==
            PooledResult(to, room, chunks, turns, k)
  {
    var first := Take(chunks[0], room);
    assert [] + first == first && [] + Take(first, turns[0].taken) == Take(first, turns[0].taken);
    if Whole(turns[0], first) {
      var rest := turns[1..];
      RelayOutcome(dial, to, first, rest, k - 1);
      assert MessagesOf(rest[..k - 1]) == MessagesOf(turns)[1..][..k - 1] == chunks[..k][1..];
      DeliveredHead(room, chunks[..k]);
      assert k == |turns| ==> chunks[..k] == chunks;
      assert k < |turns| ==> turns[k].message == MessagesOf(turns)[1..][k - 1] == chunks[k];
    } else {
      EndedForEver(dial, Forward(to, [], first, turns[0]), turns[1..]);
    }
  }

  /** The exact outcome on a pooled connection whose first chunk has two bytes or more.  The first
      write is that of the first chunk, as far as the header leaves room for it, and the context is not
      tested before it. */
  lemma PooledOutcome(dial: Target -> bool, m: Metadata, chunks: seq<seq<Byte>>, turns: seq<Turn>, k: nat)
    requires m.Matching() && chunks != [] && |chunks[0]| >= 2 && dial(TargetOf(m))
    requires MessagesOf(turns) == Messages(HeaderBytes(m), chunks) && 0 < k <= |turns|
    requires forall j :: 1 <= j < k ==> !turns[j].stopped && Whole(turns[j], DataOf(turns[j]))
    requires k < |turns| ==> turns[k].stopped || !Whole(turns[k], DataOf(turns[k]))
    ensures |turns| == |chunks|
    ensures Serve(dial, Awaiting, turns) ==
            PooledResult(TargetOf(m), BUFFER_SIZE - HeaderLength(m), chunks, turns, k)
  {
    assert |turns| == |MessagesOf(turns)| == |chunks|;
    assert turns[0].message == MessagesOf(turns)[0];
    FirstTurn(dial, m, chunks[0], turns[0]);
    FirstWriteOutcome(dial, TargetOf(m), BUFFER_SIZE - HeaderLength(m), chunks, turns, k);
  }

  lemma ConcatPrefix(xs: seq<seq<Byte>>, k: nat)
    requires k <= |xs|
    ensures Concat(xs[..k]) <= Concat(xs)
  {
    assert xs == xs[..k] + xs[k..];
    ConcatAppend(xs[..k], xs[k..]);
  }

  /** As long as the consumed messages fit and the turns are undisturbed, the remote side has exactly
      their chunks: a prefix of the client's bytes, and all of them once all messages are consumed. */
  lemma EveryStepIsAPrefix(dial: Target -> bool, m: Metadata, chunks: seq<seq<Byte>>, turns: seq<Turn>, k: nat)
    requires m.Matching() && dial(TargetOf(m))
    requires 0 < k <= |chunks| && |chunks[0]| >= 2
    requires Fits(BUFFER_SIZE - HeaderLength(m), chunks[..k])
    requires MessagesOf(turns) == Messages(HeaderBytes(m), chunks) && Undisturbed(turns[..k])
    ensures var r := Serve(dial, Awaiting, turns[..k]);
      && r.Relaying? && r.to == TargetOf(m)
      && r.out == Concat(chunks[..k]) <= Concat(chunks)
      && (k == |chunks| ==> r.out == Concat(chunks))
  {
    var some := chunks[..k];
    assert MessagesOf(turns[..k]) == MessagesOf(turns)[..k];
    assert Messages(HeaderBytes(m), chunks)[..k] == Messages(HeaderBytes(m), some);
    LosslessIffFits(BUFFER_SIZE - HeaderLength(m), some);
    PooledEndToEnd(dial, m, some, turns[..k]);
    ConcatPrefix(chunks, k);
    if k == |chunks| {
      assert some == chunks;
    }
  }
}
