/**
 * The endpoint resolver of `ZipkinApi`: the local IPv4 address as a signed 32-bit
 * integer (`_ipv4_to_long`, `_get_my_ip`) and the `Endpoint` built once in `__init__`.
 * The host name lookup itself is not modelled: its outcome is a parameter, `None` when
 * `socket.gethostname` or `socket.gethostbyname` raises.
 */
module Endpoints {
  import opened Wrappers
  import opened Bytes
  import opened Text

  /** The Thrift `Endpoint`: address, port and service name of the process recording an annotation. */
  datatype Endpoint = Endpoint(ipv4: Option<int>, port: Option<int>, serviceName: string)

  /** One octet of the strict dotted-quad syntax: decimal digits, no leading zero, at most 255. */
  function ParseOctet(p: string): Option<Byte> {
    if p != [] && AllDigits(p) && (p[0] != '0' || |p| == 1) && ParseDecimal(p) < 256
    then Some(ParseDecimal(p))
    else None
  }

  /** The four address bytes of a strict dotted quad `a.b.c.d`, in network order. */
  function ParseDottedQuad(s: string): (r: Option<seq<Byte>>)
    ensures r.Some? ==> |r.value| == 4
  {
    var parts := SplitOn(s, '.');
    if |parts| != 4 then None
    else
      match (ParseOctet(parts[0]), ParseOctet(parts[1]), ParseOctet(parts[2]), ParseOctet(parts[3]))
      case (Some(a), Some(b), Some(c), Some(d)) => Some([a, b, c, d])
      case _ => None
  }

  /** The dotted-quad text of four address bytes, as `socket.gethostbyname` reports an address. */
  function DottedQuad(q: seq<Byte>): string
    requires |q| == 4
  {
    DecimalDigits(q[0]) + "." + DecimalDigits(q[1]) + "." + DecimalDigits(q[2]) + "." + DecimalDigits(q[3])
  }

  lemma ParseOctetDigits(n: Byte)
    ensures ParseOctet(DecimalDigits(n)) == Some(n)
  {
    ParseDecimalDigits(n);
  }

  /** The digits of a number contain no dot. */
  lemma NoDotInDigits(n: nat)
    ensures '.' !in DecimalDigits(n)
  {
  }

  /** A printed dotted quad splits at its dots into the four digit strings. */
  lemma SplitDottedQuad(q: seq<Byte>)
    requires |q| == 4
    ensures SplitOn(DottedQuad(q), '.') ==
              [DecimalDigits(q[0]), DecimalDigits(q[1]), DecimalDigits(q[2]), DecimalDigits(q[3])]
  {
    var d0, d1, d2, d3 := DecimalDigits(q[0]), DecimalDigits(q[1]), DecimalDigits(q[2]), DecimalDigits(q[3]);
    NoDotInDigits(q[0]);
    NoDotInDigits(q[1]);
    NoDotInDigits(q[2]);
    NoDotInDigits(q[3]);
    var tail2 := d2 + "." + d3;
    var tail1 := d1 + "." + tail2;
    assert DottedQuad(q) == d0 + "." + tail1;
    SplitOnPiece(d0, '.', tail1);
    SplitOnPiece(d1, '.', tail2);
    SplitOnPiece(d2, '.', d3);
    SplitOnWhole(d3, '.');
  }

  /** Every address printed as a dotted quad parses back to its four bytes. */
  lemma ParseDottedQuadRoundTrip(q: seq<Byte>)
    requires |q| == 4
    ensures ParseDottedQuad(DottedQuad(q)) == Some(q)
  {
    SplitDottedQuad(q);
    ParseOctetDigits(q[0]);
    ParseOctetDigits(q[1]);
    ParseOctetDigits(q[2]);
    ParseOctetDigits(q[3]);
    assert q == [q[0], q[1], q[2], q[3]];
  }

  /**
   * `_ipv4_to_long`: the address bytes read as one signed 32-bit big-endian integer
   * (`struct.unpack("!i", ...)`); `None` where `socket.inet_aton` raises.
   */
  function Ipv4ToLong(ip: string): (r: Option<int>)
    ensures r.Some? <==> ParseDottedQuad(ip).Some?
    ensures r.Some? ==> -0x8000_0000 <= r.value < 0x8000_0000
    ensures r.Some? ==> PackSigned(r.value, 4) == ParseDottedQuad(ip).value
  {
    match ParseDottedQuad(ip)
    case None => None
    case Some(q) =>
      PackUnpackSigned(q);
      Some(UnpackSigned(q))
  }

  /**
   * The dotted quad `a.b.c.d` becomes a·2^24 + b·2^16 + c·2^8 + d, less 2^32 when the
   * top bit is set.
   */
  lemma Ipv4ToLongValue(a: Byte, b: Byte, c: Byte, d: Byte)
    ensures Ipv4ToLong(DottedQuad([a, b, c, d])) ==
              Some(a * 0x100_0000 + b * 0x1_0000 + c * 0x100 + d - (if a >= 128 then 0x1_0000_0000 else 0))
  {
    var q := [a, b, c, d];
    ParseDottedQuadRoundTrip(q);
    assert [a][..0] == [] && [a, b][..1] == [a] && [a, b, c][..2] == [a, b] && q[..3] == [a, b, c];
    assert FromBigEndian([a]) == a;
    assert FromBigEndian([a, b]) == a * 256 + b;
    assert FromBigEndian([a, b, c]) == (a * 256 + b) * 256 + c;
    assert FromBigEndian(q) == ((a * 256 + b) * 256 + c) * 256 + d;
    assert Pow256(4) == 0x1_0000_0000;
  }

  /** `_get_my_ip`: the address of the local host name, or `None` when the lookup fails; it never raises. */
  function GetMyIp(hostAddress: Option<string>): (r: Option<int>)
    ensures hostAddress.None? ==> r.None?
    ensures hostAddress.Some? ==> r == Ipv4ToLong(hostAddress.value)
  {
    match hostAddress
    case None => None
    case Some(ip) => Ipv4ToLong(ip)
  }

  /**
   * The endpoint built in `__init__`: the local address (or `None`), no port, and the
   * given service name unless it is `None` or empty, in which case the configured default.
   */
  function LocalEndpoint(hostAddress: Option<string>, serviceName: Option<string>, defaultServiceName: string): (e: Endpoint)
    ensures e.port.None?
    ensures hostAddress.None? ==> e.ipv4.None?
    ensures e.ipv4 == GetMyIp(hostAddress)
    ensures serviceName.Some? && serviceName.value != [] ==> e.serviceName == serviceName.value
    ensures serviceName.None? || serviceName.value == [] ==> e.serviceName == defaultServiceName
  {
    var name := match serviceName
      case Some(n) => if n != [] then n else defaultServiceName
      case None => defaultServiceName;
    Endpoint(GetMyIp(hostAddress), None, name)
  }
}
