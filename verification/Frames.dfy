/** Unmasked, unfragmented WebSocket frames (section 5.2 of RFC 6455), as the server emits them, and
    what a receiver reads out of a byte stream. */
module Frames {
  import opened Bytes
  import opened Runs

  datatype Frame = Frame(opcode: Byte, payload: seq<Byte>)
  {
    predicate Valid() {
      opcode < 16 && |payload| < 0x8000_0000_0000_0000
    }
  }

  const BINARY: Byte := 2
  const PING: Byte := 9

  function LengthBytes(n: nat): seq<Byte> {
    if n <= 125 then [n]
    else if n <= 65535 then [126] + BigEndian(n, 2)
    else [127] + BigEndian(n, 8)
  }

  function Encode(f: Frame): (r: seq<Byte>)
    requires f.Valid()
    ensures |r| >= 2 + |f.payload|
  {
    [(128 + f.opcode) as Byte] + LengthBytes(|f.payload|) + f.payload
  }

  datatype Parsed = Parsed(frame: Frame, size: nat)

  /** How many bytes the extended length takes. */
  function Extension(b: Byte): nat {
    if b == 126 then 2 else if b == 127 then 8 else 0
  }

  /** The payload length announced behind the first byte, once all its bytes are there. */
  function AnnouncedLength(bytes: seq<Byte>): nat
    requires |bytes| >= 2 && |bytes| >= 2 + Extension(bytes[1])
  {
    if Extension(bytes[1]) == 0 then bytes[1] else FromBigEndian(bytes[2..2 + Extension(bytes[1])])
  }

  /** The first frame of a stream, if it is complete. */
  function Parse(bytes: seq<Byte>): (r: Option<Parsed>)
    ensures r.Some? ==> 0 < r.value.size <= |bytes|
  {
    if |bytes| < 2 || bytes[0] < 128 || bytes[0] >= 144 || bytes[1] >= 128 then None
    else
      var start := 2 + Extension(bytes[1]);
      if |bytes| < start || |bytes| < start + AnnouncedLength(bytes) then None
      else
        var end := start + AnnouncedLength(bytes);
        Some(Parsed(Frame((bytes[0] - 128) as Byte, bytes[start..end]), end))
  }

  /** All complete frames of a stream, and the bytes behind the last one. */
  function ParseAll(bytes: seq<Byte>): (seq<Frame>, seq<Byte>)
    decreases |bytes|
  {
    match Parse(bytes)
    case None => ([], bytes)
    case Some(p) =>
      var (frames, rest) := ParseAll(bytes[p.size..]);
      ([p.frame] + frames, rest)
  }

  lemma Powers()
    ensures Pow256(2) == 65536
    ensures Pow256(8) >= 0x8000_0000_0000_0000
  {
    assert Pow256(1) == 256 * Pow256(0);
    assert Pow256(3) == 256 * Pow256(2);
    assert Pow256(4) == 256 * Pow256(3);
    assert Pow256(5) == 256 * Pow256(4);
    assert Pow256(6) == 256 * Pow256(5);
    assert Pow256(7) == 256 * Pow256(6);
    assert Pow256(8) == 256 * Pow256(7);
  }

  /** A length of one byte. */
  lemma ShortLength(n: nat, bytes: seq<Byte>)
    requires n <= 125 && |bytes| >= 2 && bytes[1..2] == LengthBytes(n)
    ensures Extension(bytes[1]) == 0 && AnnouncedLength(bytes) == n
  {
    assert bytes[1] == bytes[1..2][0];
  }

  /** A length of two or eight bytes behind a marker. */
  lemma ExtendedLength(n: nat, bytes: seq<Byte>, marker: Byte, k: nat)
    requires (marker == 126 && k == 2) || (marker == 127 && k == 8)
    requires n < Pow256(k) && |bytes| >= 2 + k && bytes[1] == marker && bytes[2..2 + k] == BigEndian(n, k)
    ensures Extension(bytes[1]) == k && AnnouncedLength(bytes) == n
  {
    BigEndianRoundTrip(n, k);
  }

  lemma LengthBytesLength(n: nat)
    ensures |LengthBytes(n)| == if n <= 125 then 1 else if n <= 65535 then 3 else 9
  {
  }

  /** The length field says how long it is itself, and reads back as the length. */
  lemma LengthReadsBack(n: nat, bytes: seq<Byte>)
    requires n < 0x8000_0000_0000_0000
    requires |bytes| >= 1 + |LengthBytes(n)| && bytes[1..1 + |LengthBytes(n)|] == LengthBytes(n)
    ensures |bytes| >= 2 && bytes[1] < 128 && 1 + |LengthBytes(n)| == 2 + Extension(bytes[1])
    ensures AnnouncedLength(bytes) == n
  {
    Powers();
    LengthBytesLength(n);
    assert bytes[1] == LengthBytes(n)[0];
    if n <= 125 {
      ShortLength(n, bytes);
    } else {
      var k := if n <= 65535 then 2 else 8;
      assert bytes[2..2 + k] == LengthBytes(n)[1..] == BigEndian(n, k);
      ExtendedLength(n, bytes, bytes[1], k);
    }
  }

  lemma LengthRoundTrip(f: Frame, bytes: seq<Byte>)
    requires f.Valid() && Encode(f)[..1 + |LengthBytes(|f.payload|)|] <= bytes
    ensures |bytes| >= 2 && bytes[0] == 128 + f.opcode && bytes[1] < 128
    ensures 1 + |LengthBytes(|f.payload|)| == 2 + Extension(bytes[1]) <= |bytes|
    ensures AnnouncedLength(bytes) == |f.payload|
  {
    var n := |f.payload|;
    var header := Encode(f)[..1 + |LengthBytes(n)|];
    assert header == [(128 + f.opcode) as Byte] + LengthBytes(n);
    assert bytes[0] == header[0];
    assert bytes[1..1 + |LengthBytes(n)|] == header[1..] == LengthBytes(n);
    LengthReadsBack(n, bytes);
  }

  /** A complete frame is read back, whatever follows it. */
  lemma ParseInvertsEncode(f: Frame, rest: seq<Byte>)
    requires f.Valid()
    ensures Parse(Encode(f) + rest) == Some(Parsed(f, |Encode(f)|))
  {
    var bytes := Encode(f) + rest;
    LengthRoundTrip(f, bytes);
    assert bytes[2 + Extension(bytes[1])..|Encode(f)|] == f.payload;
  }

  /** A frame that is not complete yet is not read at all. */
  lemma PartialFrameIsNotRead(f: Frame, k: nat)
    requires f.Valid() && k < |Encode(f)|
    ensures Parse(Encode(f)[..k]) == None
  {
    var bytes := Encode(f)[..k];
    var header := 1 + |LengthBytes(|f.payload|)|;
    if k >= header {
      assert Encode(f)[..header] <= bytes;
      LengthRoundTrip(f, bytes);
    } else if k >= 2 {
      LengthRoundTrip(f, Encode(f));
      assert bytes[1] == Encode(f)[1];
    }
  }

  predicate AllValid(frames: seq<Frame>) {
    forall i :: 0 <= i < |frames| ==> frames[i].Valid()
  }

  function EncodeAll(frames: seq<Frame>): seq<Byte>
    requires AllValid(frames)
  {
    if frames == [] then [] else Encode(frames[0]) + EncodeAll(frames[1..])
  }

  lemma ParseAllSkips(f: Frame, rest: seq<Byte>)
    requires f.Valid()
    ensures ParseAll(Encode(f) + rest) == ([f] + ParseAll(rest).0, ParseAll(rest).1)
  {
    ParseInvertsEncode(f, rest);
    assert (Encode(f) + rest)[|Encode(f)|..] == rest;
  }

  lemma ParseAllCons(frames: seq<Frame>, tail: seq<Byte>)
    requires AllValid(frames) && frames != [] && ParseAll(EncodeAll(frames[1..]) + tail) == (frames[1..], tail)
    ensures ParseAll(EncodeAll(frames) + tail) == (frames, tail)
  {
    var rest := EncodeAll(frames[1..]) + tail;
    assert EncodeAll(frames) + tail == Encode(frames[0]) + rest;
    ParseAllSkips(frames[0], rest);
    assert [frames[0]] + frames[1..] == frames;
  }

  /** A receiver of whole frames followed by an unfinished one reads exactly the whole ones. */
  lemma {:induction false} ParseAllInvertsEncodeAll(frames: seq<Frame>, tail: seq<Byte>)
    requires AllValid(frames) && Parse(tail).None?
    ensures ParseAll(EncodeAll(frames) + tail) == (frames, tail)
    decreases |frames|
  {
    if frames == [] {
      assert EncodeAll(frames) + tail == tail;
    } else {
      ParseAllInvertsEncodeAll(frames[1..], tail);
      ParseAllCons(frames, tail);
    }
  }

  /** The wire format of an unmasked final frame: the opcode behind the FIN bit, the length in the
      shortest of the three forms, then the payload. */
  lemma WireFormat(f: Frame)
    requires f.Valid()
    ensures var bytes := Encode(f); var n := |f.payload|;
      && bytes[0] == 0x80 + f.opcode
      && |bytes| == n + (if n < 126 then 2 else if n < 65536 then 4 else 10)
      && bytes[|bytes| - n..] == f.payload
      && (n < 126 ==> bytes[1] == n)
      && (126 <= n < 65536 ==> bytes[1] == 126 && bytes[2] == n / 256 && bytes[3] == n % 256)
      && (65536 <= n ==> bytes[1] == 127 && FromBigEndian(bytes[2..10]) == n)
  {
    var bytes, n := Encode(f), |f.payload|;
    LengthBytesLength(n);
    if n >= 65536 {
      Powers();
      assert bytes[2..10] == BigEndian(n, 8);
      BigEndianRoundTrip(n, 8);
    } else if n >= 126 {
      assert BigEndian(n, 2) == BigEndian(n / 256, 1) + [n % 256];
      assert BigEndian(n / 256, 1) == BigEndian(n / 256 / 256, 0) + [n / 256 % 256];
      assert bytes[2..4] == BigEndian(n, 2);
      assert bytes[2] == bytes[2..4][0] && bytes[3] == bytes[2..4][1];
    }
  }
}
