/** The in-band destination header: the client's encoder (client/tun/proxy/argo.go) and the server's
    decoder (server/cfd/packet.go), which live in different programs and must agree. */
module Header {
  import opened Bytes

  type Octets4 = s: seq<Byte> | |s| == 4 witness [0, 0, 0, 0]
  type Octets16 = s: seq<Byte> | |s| == 16 witness seq(16, _ => 0)

  /** `netip.Addr`; `NoIP` is its zero value. */
  datatype IP = V4(v4: Octets4) | V6(v6: Octets16) | NoIP
  {
    function AsSlice(): seq<Byte> {
      match this
      case V4(o) => o
      case V6(o) => o
      case NoIP => []
    }
  }

  datatype Metadata = Metadata(network: Byte, ipVersion: Byte, dstIP: IP, dstPort: Port)
  {
    /** The version byte agrees with the address, as `handleTCPConn` and `handleUDPConn` set it for
        every valid address. */
    predicate Matching() {
      (dstIP.V4? && ipVersion == 4) || (dstIP.V6? && ipVersion == 6)
    }
  }

  datatype Packet = Packet(version: Byte, protocol: Byte, ip: seq<Byte>, port: Port, payload: seq<Byte>)

  datatype DecodeError = TooShort | BadIPv4Length | BadIPv6Length | UnsupportedVersion | MissingPort

  datatype Result<+T> = Ok(value: T) | Err(error: DecodeError)

  function HeaderLength(m: Metadata): nat {
    if m.dstIP.V6? then 20 else 8
  }

  /** The header a connection announces: a zeroed buffer whose front is overwritten. */
  function HeaderBytes(m: Metadata): (r: seq<Byte>)
    ensures |r| == HeaderLength(m)
  {
    var filled := [m.ipVersion, m.network] + m.dstIP.AsSlice() + BigEndian(m.dstPort, 2);
    filled + seq(HeaderLength(m) - |filled|, _ => 0)
  }

  lemma PortBytes(port: Port)
    ensures BigEndian(port, 2) == [port / 256, port % 256]
  {
    assert BigEndian(port / 256, 1) == BigEndian(port / 256 / 256, 0) + [port / 256 % 256];
  }

  /** The layout of an announcement: version, protocol, address, port with the high byte first. */
  lemma AnnouncementLayout(m: Metadata)
    requires m.Matching()
    ensures var bytes := HeaderBytes(m); var n := |m.dstIP.AsSlice()|;
      && |bytes| == n + 4 && bytes[0] == m.ipVersion && bytes[1] == m.network
      && bytes[2..2 + n] == m.dstIP.AsSlice()
      && bytes[2 + n] == m.dstPort / 256 && bytes[3 + n] == m.dstPort % 256
  {
    PortBytes(m.dstPort);
  }

  /** `parseHeader`: fill a fresh buffer in place behind a moving position. */
  method ParseHeader(m: Metadata) returns (header: array<Byte>, hdrLen: nat)
    ensures fresh(header) && header[..] == HeaderBytes(m) && hdrLen == header.Length == HeaderLength(m)
  {
    hdrLen := 8;
    if m.dstIP.V6? {
      hdrLen := 20;
    }
    header := new Byte[hdrLen](_ => 0);
    var pos := 0;
    header[pos] := m.ipVersion;
    pos := pos + 1;
    header[pos] := m.network;
    pos := pos + 1;
    var ip := m.dstIP.AsSlice();
    forall i | 0 <= i < |ip| {
      header[pos + i] := ip[i];
    }
    pos := pos + |ip|;
    header[pos], header[pos + 1] := m.dstPort / 256, m.dstPort % 256;
    PortBytes(m.dstPort);
    assert header[..] == HeaderBytes(m);
  }

  /** `Decode`, with its length tests in the source's order. */
  function Decode(data: seq<Byte>): Result<Packet> {
    if |data| < 2 then Err(TooShort)
    else if data[0] == 4 then
      if |data| < 8 then Err(BadIPv4Length) else DecodeFrom(data, 6)
    else if data[0] == 6 then
      if |data| < 20 then Err(BadIPv6Length) else DecodeFrom(data, 18)
    else Err(UnsupportedVersion)
  }

  /** The part of `Decode` behind the address, which ends at `offset`. */
  function DecodeFrom(data: seq<Byte>, offset: nat): Result<Packet>
    requires 2 <= offset && offset + 2 <= |data|
  {
    if |data| < offset + 4 then Err(MissingPort)
    else
      Ok(Packet(data[0], data[1], data[2..offset],
                256 * (data[offset] as int) + data[offset + 1], data[offset + 2..]))
  }

  /** `Decode` as written: a packet filled field by field behind a moving offset. */
  method DecodePacket(data: seq<Byte>) returns (r: Result<Packet>)
    ensures r == Decode(data)
  {
    if |data| < 2 {
      return Err(TooShort);
    }
    var version, protocol := data[0], data[1];
    var offset := 2;
    var ip;
    if version == 4 {
      if |data| < offset + 4 + 2 {
        return Err(BadIPv4Length);
      }
      ip := data[offset..offset + 4];
      offset := offset + 4;
    } else if version == 6 {
      if |data| < offset + 16 + 2 {
        return Err(BadIPv6Length);
      }
      ip := data[offset..offset + 16];
      offset := offset + 16;
    } else {
      return Err(UnsupportedVersion);
    }
    if |data| < offset + 4 {
      return Err(MissingPort);
    }
    var port := 256 * (data[offset] as int) + data[offset + 1];
    offset := offset + 2;
    r := Ok(Packet(version, protocol, ip, port, data[offset..]));
  }

  /** The decoder inverts the encoder exactly when the first chunk has at least two bytes: the test
      for "missing port fields" asks for four bytes behind the address where the port takes two. */
  lemma DecodeInvertsHeader(m: Metadata, p: seq<Byte>)
    requires m.Matching()
    ensures Decode(HeaderBytes(m) + p) ==
            if |p| >= 2 then Ok(Packet(m.ipVersion, m.network, m.dstIP.AsSlice(), m.dstPort, p))
            else Err(MissingPort)
  {
    var data := HeaderBytes(m) + p;
    PortBytes(m.dstPort);
    var offset := HeaderLength(m) - 2;
    assert data[2..offset] == m.dstIP.AsSlice();
    assert data[offset + 2..] == p;
  }

  /** What a cut announcement is answered with: an error that tells how far it got. */
  lemma TruncatedAnnouncement(m: Metadata, p: seq<Byte>, k: nat)
    requires m.Matching() && k <= HeaderLength(m) + |p|
    ensures Decode((HeaderBytes(m) + p)[..k]) ==
            if k < 2 then Err(TooShort)
            else if k < HeaderLength(m) then Err(if m.dstIP.V4? then BadIPv4Length else BadIPv6Length)
            else if k < HeaderLength(m) + 2 then Err(MissingPort)
            else Ok(Packet(m.ipVersion, m.network, m.dstIP.AsSlice(), m.dstPort, p[..k - HeaderLength(m)]))
  {
    var data := (HeaderBytes(m) + p)[..k];
    if k >= 2 {
      assert data[0] == HeaderBytes(m)[0] == m.ipVersion;
    }
    if k >= HeaderLength(m) {
      assert data == HeaderBytes(m) + p[..k - HeaderLength(m)];
      DecodeInvertsHeader(m, p[..k - HeaderLength(m)]);
    }
  }

  /** Anything of two bytes or more that starts with neither version is refused as unsupported, and
      nothing else is. */
  lemma UnsupportedIff(data: seq<Byte>)
    ensures Decode(data) == Err(UnsupportedVersion) <==> |data| >= 2 && data[0] != 4 && data[0] != 6
  {
  }

  /** The destination a packet names. */
  function MetadataOf(p: Packet): Metadata
    requires (p.version == 4 && |p.ip| == 4) || (p.version == 6 && |p.ip| == 16)
  {
    Metadata(p.protocol, p.version, if p.version == 4 then V4(p.ip) else V6(p.ip), p.port)
  }

  /** Whatever the decoder accepts is the header of one destination followed by the payload, so the
      codec is a bijection between accepted byte strings and (destination, payload) pairs. */
  lemma HeaderInvertsDecode(data: seq<Byte>)
    requires Decode(data).Ok?
    ensures var p := Decode(data).value;
            && |p.payload| >= 2
            && ((p.version == 4 && |p.ip| == 4) || (p.version == 6 && |p.ip| == 16))
            && MetadataOf(p).Matching()
            && HeaderBytes(MetadataOf(p)) + p.payload == data
  {
    var p := Decode(data).value;
    PortBytes(p.port);
    assert data == data[..2] + p.ip + data[2 + |p.ip|..4 + |p.ip|] + p.payload;
  }

  /** Why the address must be valid: an announcement without one is either refused or read as an IPv6
      address made of the port, four zero bytes and the first ten bytes of payload. */
  lemma NoAddressIsMisread(m: Metadata, p: seq<Byte>)
    requires m.dstIP.NoIP? && m.ipVersion == 6
    ensures Decode(HeaderBytes(m) + p).Ok? <==> |p| >= 14
    ensures |p| >= 14 ==>
      Decode(HeaderBytes(m) + p).value.ip == BigEndian(m.dstPort, 2) + [0, 0, 0, 0] + p[..10]
  {
    var data := HeaderBytes(m) + p;
    PortBytes(m.dstPort);
    if |p| >= 14 {
      assert data[2..18] == BigEndian(m.dstPort, 2) + [0, 0, 0, 0] + p[..10];
    }
  }
}
