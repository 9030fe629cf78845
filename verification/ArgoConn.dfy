/** The client end of a tunnelled connection: `argoConn` (client/tun/proxy/argo.go), which puts the
    destination header in front of the first write, and `GorillaConn`
    (client/tun/transport/argo/connection.go), which turns messages into a byte stream. */
module ArgoConn {
  import opened Bytes
  import opened Header

  /** What a writer has done so far: whether the header is spent, and the messages that went out. */
  datatype Writer = Writer(headerSent: bool, sent: seq<seq<Byte>>)

  /** A call of `Write`: the chunk, and whether the embedded connection takes the message. */
  datatype Call = Call(chunk: seq<Byte>, accepted: bool)

  function WriteOne(w: Writer, header: seq<Byte>, c: Call): Writer {
    var message := if w.headerSent then c.chunk else header + c.chunk;
    Writer(true, if c.accepted then w.sent + [message] else w.sent)
  }

  function WriteAll(w: Writer, header: seq<Byte>, calls: seq<Call>): Writer
    decreases |calls|
  {
    if calls == [] then w else WriteAll(WriteOne(w, header, calls[0]), header, calls[1..])
  }

  /** The chunks of the calls whose message went out. */
  function AcceptedChunks(calls: seq<Call>): seq<seq<Byte>> {
    if calls == [] then []
    else (if calls[0].accepted then [calls[0].chunk] else []) + AcceptedChunks(calls[1..])
  }

  lemma {:induction false} LaterWritesAreVerbatim(w: Writer, header: seq<Byte>, calls: seq<Call>)
    requires w.headerSent
    ensures WriteAll(w, header, calls) == Writer(true, w.sent + AcceptedChunks(calls))
    decreases |calls|
  {
    if calls == [] {
      assert w.sent + [] == w.sent;
    } else {
      LaterWritesAreVerbatim(WriteOne(w, header, calls[0]), header, calls[1..]);
      var rest := AcceptedChunks(calls[1..]);
      assert w.sent + [calls[0].chunk] + rest == w.sent + ([calls[0].chunk] + rest);
      assert w.sent + rest == w.sent + ([] + rest);
    }
  }

  /** The header is in front of the first chunk and nowhere else; if that one message is refused,
      the header is never sent at all. */
  lemma HeaderGoesOutOnce(header: seq<Byte>, calls: seq<Call>)
    requires calls != []
    ensures WriteAll(Writer(false, []), header, calls).sent ==
            (if calls[0].accepted then [header + calls[0].chunk] else []) + AcceptedChunks(calls[1..])
  {
    LaterWritesAreVerbatim(WriteOne(Writer(false, []), header, calls[0]), header, calls[1..]);
  }

  class ArgoConn {
    var header: array<Byte>
    var hdrLen: nat
    var headerSent: bool
    var sent: seq<seq<Byte>>  // what the embedded connection has taken

    ghost predicate Valid()
      reads this, header
    {
      hdrLen == header.Length
    }

    function View(): Writer
      reads this
    {
      Writer(headerSent, sent)
    }

    /** What `Argo.Dial` builds around a pooled connection. */
    constructor (m: Metadata)
      ensures Valid() && fresh(header) && header[..] == HeaderBytes(m)
      ensures View() == Writer(false, [])
    {
      var bytes, length := ParseHeader(m);
      header, hdrLen := bytes, length;
      headerSent, sent := false, [];
    }

    method AddHeader(p: seq<Byte>) returns (buf: array<Byte>)
      requires Valid()
      ensures fresh(buf) && buf[..] == header[..] + p
    {
      buf := new Byte[|p| + hdrLen](_ => 0);
      forall i | 0 <= i < header.Length {
        buf[i] := header[i];
      }
      forall i | 0 <= i < |p| {
        buf[hdrLen + i] := p[i];
      }
      assert buf[..] == header[..] + p;
    }

    method Write(p: seq<Byte>, accepted: bool) returns (n: nat, err: bool)
      requires Valid()
      modifies this`headerSent, this`sent
      ensures Valid()
      ensures View() == WriteOne(old(View()), header[..], Call(p, accepted))
      ensures err == !accepted && n == if accepted then |p| else 0
    {
      if headerSent {
        if accepted {
          sent := sent + [p];
        }
        return if accepted then |p| else 0, !accepted;
      }
      headerSent := true;
      var payload := AddHeader(p);
      if !accepted {
        return 0, true;
      }
      sent := sent + [payload[..]];
      return |p|, false;
    }
  }

  // ---- Messages to stream ----

  /** A reader's buffered bytes, and the messages that are still to come. */
  datatype Reader = Reader(readBuf: seq<Byte>, inbox: seq<seq<Byte>>)

  /** The bytes a reader has not handed out yet. */
  function Pending(r: Reader): seq<Byte> {
    r.readBuf + Concat(r.inbox)
  }

  /** `Read` into a buffer of `size` bytes; without a message it fails and changes nothing. */
  function ReadOne(r: Reader, size: nat): (Reader, seq<Byte>) {
    if r.readBuf != [] then
      (r.(readBuf := r.readBuf[|Take(r.readBuf, size)|..]), Take(r.readBuf, size))
    else if r.inbox == [] then (r, [])
    else
      var message := r.inbox[0];
      (Reader(message[|Take(message, size)|..], r.inbox[1..]), Take(message, size))
  }

  /** All the bytes handed out by reads of the given sizes, and the reader they leave. */
  function ReadAll(r: Reader, sizes: seq<nat>): (Reader, seq<Byte>)
    decreases |sizes|
  {
    if sizes == [] then (r, [])
    else
      var (r', out) := ReadOne(r, sizes[0]);
      var (r'', more) := ReadAll(r', sizes[1..]);
      (r'', out + more)
  }

  lemma ReadOneConserves(r: Reader, size: nat)
    ensures ReadOne(r, size).1 + Pending(ReadOne(r, size).0) == Pending(r)
    ensures |ReadOne(r, size).1| <= size
  {
    if r.readBuf == [] && r.inbox != [] {
      var message := r.inbox[0];
      assert Take(message, size) + message[|Take(message, size)|..] == message;
    }
  }

  /** For any messages and any read sizes nothing is lost, repeated or reordered. */
  lemma {:induction false} StreamIsConserved(r: Reader, sizes: seq<nat>)
    ensures ReadAll(r, sizes).1 + Pending(ReadAll(r, sizes).0) == Pending(r)
    decreases |sizes|
  {
    if sizes != [] {
      ReadOneConserves(r, sizes[0]);
      var (r', out) := ReadOne(r, sizes[0]);
      StreamIsConserved(r', sizes[1..]);
      var (r'', more) := ReadAll(r', sizes[1..]);
      assert (out + more) + Pending(r'') == out + (more + Pending(r''));
    }
  }

  /** A read that is offered room makes progress whenever a byte is buffered or a message waits. */
  lemma ReadMakesProgress(r: Reader, size: nat)
    requires size > 0 && (r.readBuf != [] || r.inbox != [])
    ensures var r' := ReadOne(r, size).0;
      |r'.inbox| < |r.inbox| || (r'.inbox == r.inbox && |r'.readBuf| < |r.readBuf|)
  {
  }

  /** A read stops short of its buffer only at the end of a message, and a message is only begun when
      the one before is used up. */
  lemma ReadIsGreedy(r: Reader, size: nat)
    ensures var (r', out) := ReadOne(r, size);
      && (|out| == size || r'.readBuf == [])
      && r'.inbox == if r.readBuf == [] && r.inbox != [] then r.inbox[1..] else r.inbox
  {
  }

  /** How many reads at most until everything has been handed out. */
  function ReadsLeft(r: Reader): nat {
    |Pending(r)| + |r.inbox|
  }

  /** Enough reads with room hand out every byte of every message. */
  lemma {:induction false} ReadsDrain(r: Reader, sizes: seq<nat>)
    requires |sizes| >= ReadsLeft(r) && forall i :: 0 <= i < |sizes| ==> sizes[i] > 0
    ensures ReadAll(r, sizes).1 == Pending(r)
    decreases |sizes|
  {
    StreamIsConserved(r, sizes);
    if ReadsLeft(r) == 0 {
      NothingLeft(r, sizes);
    } else {
      ReadOneConserves(r, sizes[0]);
      ReadMakesProgress(r, sizes[0]);
      ReadIsGreedy(r, sizes[0]);
      var (r', out) := ReadOne(r, sizes[0]);
      assert |out| + |Pending(r')| == |Pending(r)|;
      ReadsDrain(r', sizes[1..]);
    }
  }

  lemma {:induction false} NothingLeft(r: Reader, sizes: seq<nat>)
    requires r == Reader([], [])
    ensures ReadAll(r, sizes).1 == []
    decreases |sizes|
  {
    if sizes != [] {
      NothingLeft(r, sizes[1..]);
    }
  }

  class GorillaConn {
    var readBuf: seq<Byte>
    var inbox: seq<seq<Byte>>  // messages the websocket library has yet to return
    var sent: seq<seq<Byte>>   // messages it has been given

    constructor (messages: seq<seq<Byte>>)
      ensures View() == Reader([], messages) && sent == []
    {
      readBuf, inbox, sent := [], messages, [];
    }

    function View(): Reader
      reads this
    {
      Reader(readBuf, inbox)
    }

    method Read(p: array<Byte>) returns (n: nat, err: bool)
      modifies this`readBuf, this`inbox, p
      ensures View() == ReadOne(old(View()), p.Length).0
      ensures n <= p.Length && p[..n] == ReadOne(old(View()), p.Length).1
      ensures p[n..] == old(p[..])[n..]
      ensures err <==> old(readBuf == [] && inbox == [])
    {
      if readBuf != [] {
        n := Copy(p, readBuf);
        readBuf := readBuf[n..];
        return n, false;
      }
      if inbox == [] {
        return 0, true;
      }
      var message := inbox[0];
      inbox := inbox[1..];
      n := Copy(p, message);
      readBuf := readBuf + message[n..];
      err := false;
    }

    method Write(p: seq<Byte>, accepted: bool) returns (n: nat, err: bool)
      modifies this`sent
      ensures err == !accepted && n == if accepted then |p| else 0
      ensures sent == if accepted then old(sent) + [p] else old(sent)
    {
      if !accepted {
        return 0, true;
      }
      sent := sent + [p];
      return |p|, false;
    }
  }
}
