/** Client and server together: for every interleaving of the pool, every finished `Dial` and every
    sequence of chunks, the server reaches the destination the dial was made for. */
module Tunnel {
  import opened Bytes
  import opened Header
  import opened Runs
  import opened ConnPool
  import opened Server
  import A = ArgoConn

  function Decimal(n: nat): string {
    if n < 10 then ["0123456789"[n]] else Decimal(n / 10) + ["0123456789"[n % 10]]
  }

  /** `Network.String`. */
  function NetworkName(n: Byte): string {
    if n == 1 then "icmp" else if n == 6 then "tcp" else if n == 17 then "udp"
    else "network(" + Decimal(n) + ")"
  }

  /** `Websocket.header`: what a dial with or without metadata announces. */
  function ClientHeaders(host: string, m: Option<Metadata>): map<string, Value> {
    var plain := map["Host" := Text(host), "User-Agent" := Text("DEV")];
    if m.None? then plain
    else plain["Forward-Dest" := Endpoint(m.value.dstIP.AsSlice(), m.value.dstPort)]
              ["Forward-Proto" := Text(NetworkName(m.value.network))]
  }

  /** The edge carries header `name` faithfully: the request has it exactly when the client set it,
      with the client's value, in any position and among any other fields. */
  ghost predicate Carried(headers: map<string, Value>, fields: seq<Field>, name: string) {
    var key := "HttpHeader:" + name;
    && (name in headers ==> exists i :: 0 <= i < |fields| && fields[i].key == key)
    && (forall i :: 0 <= i < |fields| && fields[i].key == key ==>
          name in headers && fields[i].val == headers[name])
  }

  ghost predicate Faithful(headers: map<string, Value>, fields: seq<Field>) {
    Carried(headers, fields, "Forward-Proto") && Carried(headers, fields, "Forward-Dest")
  }

  lemma {:induction false} LookupFinds(fields: seq<Field>, key: string, v: Value)
    requires forall i :: 0 <= i < |fields| && fields[i].key == key ==> fields[i].val == v
    ensures Lookup(fields, key) ==
            if exists i :: 0 <= i < |fields| && fields[i].key == key then v else Text("")
  {
    if fields != [] {
      var rest := fields[1..];
      LookupFinds(rest, key, v);
      if fields[0].key != key {
        assert forall i :: 0 <= i < |rest| ==> rest[i] == fields[i + 1];
        assert forall i :: 0 < i < |fields| ==> fields[i] == rest[i - 1];
      }
    }
  }

  lemma LookupCarried(headers: map<string, Value>, fields: seq<Field>, name: string)
    requires Carried(headers, fields, name)
    ensures Lookup(fields, "HttpHeader:" + name) == if name in headers then headers[name] else Text("")
  {
    LookupFinds(fields, "HttpHeader:" + name, if name in headers then headers[name] else Text(""));
  }

  /** The protocol numbers both programs have a name for. */
  predicate KnownNetwork(n: Byte) {
    n == 1 || n == 6 || n == 17
  }

  /** The two programs name a protocol alike exactly when it is a known one. */
  lemma NamesAgree(n: Byte)
    ensures NetworkName(n) == ProtocolName(n) <==> KnownNetwork(n)
    ensures NetworkName(n) != ""
    ensures ProtocolName(n) == match n case 1 => "icmp" case 6 => "tcp" case 17 => "udp" case _ => ""
  {
  }

  lemma ProtoCarried(headers: map<string, Value>, fields: seq<Field>)
    requires Carried(headers, fields, "Forward-Proto")
    ensures Lookup(fields, PROTO_KEY) == if "Forward-Proto" in headers then headers["Forward-Proto"] else Text("")
  {
    LookupCarried(headers, fields, "Forward-Proto");
    assert "HttpHeader:" + "Forward-Proto" == PROTO_KEY;
  }

  lemma DestCarried(headers: map<string, Value>, fields: seq<Field>)
    requires Carried(headers, fields, "Forward-Dest")
    ensures Lookup(fields, DEST_KEY) == if "Forward-Dest" in headers then headers["Forward-Dest"] else Text("")
  {
    LookupCarried(headers, fields, "Forward-Dest");
    assert "HttpHeader:" + "Forward-Dest" == DEST_KEY;
  }

  lemma HeadersOf(host: string, m: Option<Metadata>)
    ensures "Forward-Proto" in ClientHeaders(host, m) <==> m.Some?
    ensures "Forward-Dest" in ClientHeaders(host, m) <==> m.Some?
    ensures m.Some? ==>
      && ClientHeaders(host, m)["Forward-Proto"] == Text(NetworkName(m.value.network))
      && ClientHeaders(host, m)["Forward-Dest"] == Endpoint(m.value.dstIP.AsSlice(), m.value.dstPort)
  {
    assert "Forward-Proto" != "Forward-Dest" by {
      assert "Forward-Proto"[8] != "Forward-Dest"[8];
    }
    assert "Host"[0] == 'H' && "User-Agent"[0] == 'U';
  }

  /** What the server looks up. */
  lemma RequestLookups(host: string, m: Option<Metadata>, fields: seq<Field>)
    requires Faithful(ClientHeaders(host, m), fields)
    ensures m.None? ==> Lookup(fields, PROTO_KEY) == Text("") && Lookup(fields, DEST_KEY) == Text("")
    ensures m.Some? ==>
      && Lookup(fields, PROTO_KEY) == Text(NetworkName(m.value.network))
      && Lookup(fields, DEST_KEY) == Endpoint(m.value.dstIP.AsSlice(), m.value.dstPort)
  {
    ProtoCarried(ClientHeaders(host, m), fields);
    DestCarried(ClientHeaders(host, m), fields);
    HeadersOf(host, m);
  }

  /** The server takes header mode exactly for connections dialled with metadata, and then names the
      destination by the same protocol, address bytes and port as the in-band header would. */
  lemma AcceptSeesTheMode(host: string, m: Option<Metadata>, fields: seq<Field>)
    requires Faithful(ClientHeaders(host, m), fields)
    ensures Accept(fields).Some? <==> m.Some?
    ensures m.Some? ==> (Accept(fields).value == TargetOf(m.value) <==> KnownNetwork(m.value.network))
  {
    RequestLookups(host, m, fields);
    if m.Some? {
      NamesAgree(m.value.network);
    }
  }

  /** The messages `Argo.Dial`'s connection sends for the given chunks: verbatim when the header has
      been sent, and through an `argoConn` otherwise. */
  function SentMessages(headerSent: bool, m: Metadata, chunks: seq<seq<Byte>>): seq<seq<Byte>> {
    if headerSent then chunks else A.WriteAll(A.Writer(false, []), HeaderBytes(m), Calls(chunks)).sent
  }

  function Calls(chunks: seq<seq<Byte>>): seq<A.Call> {
    seq(|chunks|, i requires 0 <= i < |chunks| => A.Call(chunks[i], true))
  }

  lemma {:induction false} AllAccepted(calls: seq<A.Call>, chunks: seq<seq<Byte>>)
    requires |calls| == |chunks|
    requires forall i :: 0 <= i < |calls| ==> calls[i] == A.Call(chunks[i], true)
    ensures A.AcceptedChunks(calls) == chunks
  {
    if calls != [] {
      AllAccepted(calls[1..], chunks[1..]);
      assert chunks == [chunks[0]] + chunks[1..];
    }
  }

  lemma SentMessagesAre(m: Metadata, chunks: seq<seq<Byte>>)
    requires chunks != []
    ensures SentMessages(false, m, chunks) == Messages(HeaderBytes(m), chunks)
  {
    var calls := Calls(chunks);
    A.HeaderGoesOutOnce(HeaderBytes(m), calls);
    AllAccepted(calls[1..], chunks[1..]);
  }

  /** What the header leaves of the server's buffer for the first chunk. */
  function Room(headerSent: bool, m: Metadata): nat {
    if headerSent then BUFFER_SIZE else BUFFER_SIZE - HeaderLength(m)
  }

  /** What connection `c` announced when it was dialled. */
  function Announcement(s: State, c: ConnId): Option<Metadata> {
    if c < |s.shared.announced| then s.shared.announced[c] else None
  }

  /** Mode agreement, end to end.  Whatever the schedule of the pool, a connection handed to a `Dial`
      is served in header mode if and only if the dial reported its header as sent, and in both modes
      the server dials the dial's own destination and writes a prefix of its chunks, cut to the
      buffer: all of them unless a write fails or the stream ends. */
  lemma EveryDialReachesItsDestination(
    poolSize: nat, run: seq<Action>, t: nat, th: Thread,
    host: string, fields: seq<Field>, dial: Target -> bool, chunks: seq<seq<Byte>>, turns: seq<Turn>)
    requires poolSize < 0x8000_0000
    requires Legal(Step, Init(poolSize), run) && Returned(After(Step, Init(poolSize), run), t, th)
    requires Faithful(ClientHeaders(host, Announcement(After(Step, Init(poolSize), run), th.conn)), fields)
    requires th.dest.Matching() && KnownNetwork(th.dest.network) && dial(TargetOf(th.dest))
    requires chunks != [] && MessagesOf(turns) == SentMessages(th.headerSent, th.dest, chunks)
    ensures Accept(fields).Some? <==> th.headerSent
    ensures var r := Serve(dial, Start(dial, Accept(fields)), turns);
      if th.headerSent || |chunks[0]| >= 2 then
        && Carries(r, TargetOf(th.dest), Concat(Delivered(Room(th.headerSent, th.dest), chunks)))
        && (Undisturbed(turns) ==> r.Relaying?)
      else r == Ended(None, [])
  {
    HeaderSentTellsTheMode(poolSize, run, t, th);
    AcceptSeesTheMode(host, if th.headerSent then Some(th.dest) else None, fields);
    if th.headerSent {
      RelayCarries(dial, TargetOf(th.dest), [], turns);
      assert [] + Concat(Delivered(BUFFER_SIZE, chunks)) == Concat(Delivered(BUFFER_SIZE, chunks));
    } else {
      SentMessagesAre(th.dest, chunks);
      PooledEndToEnd(dial, th.dest, chunks, turns);
    }
  }
}
