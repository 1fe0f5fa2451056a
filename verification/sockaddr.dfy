/**
 The `sockaddr_in6` extension: a port and an IP address read and written in host terms over
 a structure that keeps them in network byte order, the IPv4-mapped form of section 2.5.5.2
 of RFC 4291 for four-byte addresses, and the initialisers from `sockaddr_in` and `addrinfo`.

 Structures are modelled at the byte level as Darwin lays them out (`sin6_len`,
 `sin6_family`, `sin6_port`, `sin6_flowinfo`, `sin6_addr`, `sin6_scope_id`: 28 bytes;
 `sin_len`, `sin_family`, `sin_port`, `sin_addr`, `sin_zero`: 16 bytes) on a little-endian
 host, where `.bigEndian` swaps the bytes of an integer.
 */
module Sockaddr {
  import opened Posix

  /** Darwin's address families and structure sizes. */
  const AF_INET: int := 2
  const AF_INET6: int := 30
  const SizeofSockaddrIn6: int := 28
  const SizeofSockaddrIn: int := 16

  /** The sixteen bytes of `sin6_addr`, most significant first. */
  type In6Addr = a: seq<bv8> | |a| == 16 witness [0, 0, 0, 0, 0, 0, 0, 0, 0, 0, 0, 0, 0, 0, 0, 0]

  /**
   `sockaddr_in6`; `netPort` is the value of `sin6_port` as the host reads it, that is, the
   port in network byte order seen through a little-endian load.
   */
  datatype SockaddrIn6 = SockaddrIn6(len: bv8, family: bv8, netPort: bv16, flowInfo: bv32, addr: In6Addr, scopeId: bv32)

  /** `sockaddr_in`, with `sin_port` and `sin_addr.s_addr` as the host reads them. */
  datatype SockaddrIn = SockaddrIn(len: bv8, family: bv8, netPort: bv16, netAddr: bv32)

  /** `UInt16.bigEndian` on a little-endian host. */
  function Swap16(x: bv16): (r: bv16)
    ensures (r >> 8) as bv8 == (x & 0xFF) as bv8 && (r & 0xFF) as bv8 == (x >> 8) as bv8
  {
    (x << 8) | (x >> 8)
  }

  lemma Swap16Involution(x: bv16)
    ensures Swap16(Swap16(x)) == x
  {
  }

  /** `UInt32.bigEndian` on a little-endian host. */
  function Swap32(x: bv32): bv32
  {
    (x << 24) | ((x << 8) & 0x00FF_0000) | ((x >> 8) & 0x0000_FF00) | (x >> 24)
  }

  /** A little-endian load of two bytes, and the store it undoes. */
  function Load16(b0: bv8, b1: bv8): bv16
  {
    ((b1 as bv16) << 8) | (b0 as bv16)
  }

  function Store16(x: bv16): (r: seq<bv8>)
    ensures |r| == 2 && Load16(r[0], r[1]) == x
  {
    [(x & 0xFF) as bv8, (x >> 8) as bv8]
  }

  function Load32(b: seq<bv8>): bv32
    requires |b| == 4
  {
    Load4(b[0], b[1], b[2], b[3])
  }

  function Store32(x: bv32): (r: seq<bv8>)
    ensures |r| == 4 && Load32(r) == x
  {
    [(x & 0xFF) as bv8, ((x >> 8) & 0xFF) as bv8, ((x >> 16) & 0xFF) as bv8, (x >> 24) as bv8]
  }

  lemma LoadStore16(b0: bv8, b1: bv8)
    ensures Store16(Load16(b0, b1)) == [b0, b1]
  {
  }

  lemma LoadStore32(b: seq<bv8>)
    requires |b| == 4
    ensures Store32(Load32(b)) == b
  {
  }

  /** The 28 bytes of a `sockaddr_in6` in memory. */
  function Encode6(s: SockaddrIn6): (b: seq<bv8>)
    ensures |b| == SizeofSockaddrIn6
  {
    [s.len, s.family] + Store16(s.netPort) + Store32(s.flowInfo) + s.addr + Store32(s.scopeId)
  }

  /** The `sockaddr_in6` stored in the first 28 bytes of `b`. */
  function Decode6(b: seq<bv8>): SockaddrIn6
    requires |b| >= SizeofSockaddrIn6
  {
    SockaddrIn6(b[0], b[1], Load16(b[2], b[3]), Load32(b[4..8]), b[8..24], Load32(b[24..28]))
  }

  /** Reading back a stored structure gives it back. */
  lemma DecodeEncode6(s: SockaddrIn6)
    ensures Decode6(Encode6(s)) == s
  {
    var head := [s.len, s.family] + Store16(s.netPort);
    var front := head + Store32(s.flowInfo) + s.addr;
    var b := front + Store32(s.scopeId);
    assert b == Encode6(s);
    assert |head| == 4 && |front| == 24;
    assert b[..24] == front && b[24..] == Store32(s.scopeId);
    assert b[4..8] == front[4..8] == Store32(s.flowInfo);
    assert b[8..24] == front[8..24] == s.addr;
    assert b[24..28] == b[24..];
  }

  /** Storing a structure read from memory writes back the bytes it was read from. */
  lemma EncodeDecode6(b: seq<bv8>)
    requires |b| >= SizeofSockaddrIn6
    ensures Encode6(Decode6(b)) == b[..28]
  {
    LoadStore16(b[2], b[3]);
    LoadStore32(b[4..8]);
    LoadStore32(b[24..28]);
    assert b[..28] == [b[0], b[1]] + [b[2], b[3]] + b[4..8] + b[8..24] + b[24..28];
  }

  /** The `sockaddr_in` stored in the first 16 bytes of `b` (`sin_zero` is not kept). */
  function Decode4(b: seq<bv8>): SockaddrIn
    requires |b| >= SizeofSockaddrIn
  {
    SockaddrIn(b[0], b[1], Load16(b[2], b[3]), Load32(b[4..8]))
  }

  /** The `port` getter. */
  function Port(s: SockaddrIn6): bv16
  {
    Swap16(s.netPort)
  }

  /** The `port` setter. */
  function SetPort(s: SockaddrIn6, port: bv16): (r: SockaddrIn6)
    ensures r == s.(netPort := r.netPort)
  {
    s.(netPort := Swap16(port))
  }

  /**
   Setting the port and reading it back gives the same port, setting the port read changes
   nothing, and the port is stored most significant byte first, as the network expects.
   */
  lemma PortRoundTrip(s: SockaddrIn6, port: bv16)
    ensures Port(SetPort(s, port)) == port
    ensures SetPort(s, Port(s)) == s
    ensures Encode6(SetPort(s, port))[2..4] == [(port >> 8) as bv8, (port & 0xFF) as bv8]
  {
    Swap16Involution(port);
    Swap16Involution(s.netPort);
  }

  /** The port of a structure read from memory is the big-endian value of bytes 2 and 3. */
  lemma PortIsNetworkOrder(b: seq<bv8>)
    requires |b| >= SizeofSockaddrIn6
    ensures Port(Decode6(b)) == ((b[2] as bv16) << 8) | (b[3] as bv16)
  {
  }

  /** The `ip` getter: always sixteen bytes. */
  function Ip(s: SockaddrIn6): (r: seq<bv8>)
    ensures |r| == 16
  {
    s.addr
  }

  /** An IPv4-mapped IPv6 address (section 2.5.5.2 of RFC 4291): 80 zero bits, 16 one bits, then the IPv4 address. */
  predicate IsV4Mapped(a: seq<bv8>)
  {
    |a| == 16 && (forall i :: 0 <= i < 10 ==> a[i] == 0) && a[10] == 0xFF && a[11] == 0xFF
  }

  /**
   The `ip` setter: four bytes are stored in IPv4-mapped form, sixteen bytes verbatim; any
   other length stops the program (`fatalError()`), so callers must not pass one.
   */
  function SetIp(s: SockaddrIn6, bytes: seq<bv8>): (r: SockaddrIn6)
    requires |bytes| == 4 || |bytes| == 16
    ensures r == s.(addr := r.addr)
    ensures |bytes| == 16 ==> Ip(r) == bytes
    ensures |bytes| == 4 ==> IsV4Mapped(Ip(r)) && Ip(r)[12..] == bytes
  {
    var full := if |bytes| == 4 then [0, 0, 0, 0, 0, 0, 0, 0, 0, 0, 0xFF, 0xFF] + bytes else bytes;
    s.(addr := full)
  }

  /** Setting the address read changes nothing; a set four-byte address can be read back. */
  lemma IpRoundTrip(s: SockaddrIn6, v4: seq<bv8>)
    requires |v4| == 4
    ensures SetIp(s, Ip(s)) == s
    ensures SetIp(SetIp(s, v4), Ip(SetIp(s, v4))) == SetIp(s, v4)
    ensures V4Of(Ip(SetIp(s, v4))) == Some(v4)
  {
  }

  /** The IPv4 address inside an IPv4-mapped address, if it is one. */
  function V4Of(a: seq<bv8>): (r: Option<seq<bv8>>)
    ensures r.Some? <==> IsV4Mapped(a)
    ensures r.Some? ==> |r.value| == 4 && a == a[..12] + r.value
  {
    if IsV4Mapped(a) then Some(a[12..]) else None
  }

  /** `valid`: the family is AF_INET6 and `sin6_len` is the structure's size. */
  predicate Valid(s: SockaddrIn6)
  {
    s.family as int == AF_INET6 && s.len as int == SizeofSockaddrIn6
  }

  /** `init()`: a valid structure with every other field zero, that is, `[::]:0`. */
  function Init(): (s: SockaddrIn6)
    ensures Valid(s)
    ensures Port(s) == 0 && s.flowInfo == 0 && s.scopeId == 0
    ensures forall i :: 0 <= i < 16 ==> Ip(s)[i] == 0
  {
    SockaddrIn6(SizeofSockaddrIn6 as bv8, AF_INET6 as bv8, 0, 0, [0, 0, 0, 0, 0, 0, 0, 0, 0, 0, 0, 0, 0, 0, 0, 0], 0)
  }

  /** `init(ip:port:)`: a valid structure with the given address (mapped when it has four bytes) and port. */
  function InitIpPort(ip: seq<bv8>, port: bv16): (s: SockaddrIn6)
    requires |ip| == 4 || |ip| == 16
    ensures Valid(s) && Port(s) == port && s.flowInfo == 0 && s.scopeId == 0
    ensures |ip| == 16 ==> Ip(s) == ip
    ensures |ip| == 4 ==> V4Of(Ip(s)) == Some(ip)
  {
    PortRoundTrip(SetIp(Init(), ip), port);
    SetPort(SetIp(Init(), ip), port)
  }

  /** `any(port:)`: the unspecified address `::` with the given port. */
  function Any(port: bv16): (s: SockaddrIn6)
    ensures Valid(s) && Port(s) == port
    ensures forall i :: 0 <= i < 16 ==> Ip(s)[i] == 0
  {
    InitIpPort([0, 0, 0, 0, 0, 0, 0, 0, 0, 0, 0, 0, 0, 0, 0, 0], port)
  }

  /** `loopback(port:)`: the loopback address `::1` with the given port. */
  function Loopback(port: bv16): (s: SockaddrIn6)
    ensures Valid(s) && Port(s) == port
    ensures (forall i :: 0 <= i < 15 ==> Ip(s)[i] == 0) && Ip(s)[15] == 1
  {
    InitIpPort([0, 0, 0, 0, 0, 0, 0, 0, 0, 0, 0, 0, 0, 0, 0, 1], port)
  }

  /** The octets of a 32-bit value, least significant first: `(ip4 >> (i*8)) & 0xFF` for i = 0, 1, 2, 3. */
  function OctetsLsbFirst(ip4: bv32): (r: seq<bv8>)
    ensures |r| == 4
  {
    [(ip4 & 0xFF) as bv8, ((ip4 >> 8) & 0xFF) as bv8, ((ip4 >> 16) & 0xFF) as bv8, ((ip4 >> 24) & 0xFF) as bv8]
  }

  /** The octets of a 32-bit value, most significant first, the order a dotted quad is written in. */
  function OctetsMsbFirst(ip4: bv32): (r: seq<bv8>)
    ensures |r| == 4
  {
    [((ip4 >> 24) & 0xFF) as bv8, ((ip4 >> 16) & 0xFF) as bv8, ((ip4 >> 8) & 0xFF) as bv8, (ip4 & 0xFF) as bv8]
  }

  /**
   `init(sa:)` as written: `s_addr.bigEndian` holds the IPv4 address most significant octet
   first, and the octets are then listed least significant first.
   */
  function InitSaAsWritten(sa: SockaddrIn): (s: SockaddrIn6)
    ensures Valid(s) && Port(s) == Swap16(sa.netPort)
    ensures V4Of(Ip(s)) == Some(OctetsLsbFirst(Swap32(sa.netAddr)))
  {
    InitIpPort(OctetsLsbFirst(Swap32(sa.netAddr)), Swap16(sa.netPort))
  }

  /** `init(sa:)` as evidently intended: the octets most significant first, as an IPv4-mapped address spells them. */
  function InitSa(sa: SockaddrIn): (s: SockaddrIn6)
    ensures Valid(s) && Port(s) == Swap16(sa.netPort)
    ensures V4Of(Ip(s)) == Some(OctetsMsbFirst(Swap32(sa.netAddr)))
  {
    InitIpPort(OctetsMsbFirst(Swap32(sa.netAddr)), Swap16(sa.netPort))
  }

  /** A network-order address loaded by a little-endian host and byte-swapped lists its bytes in memory order, most significant first. */
  lemma SwapOctets(m: seq<bv8>)
    requires |m| == 4
    ensures OctetsMsbFirst(Swap32(Load32(m))) == m
    ensures OctetsLsbFirst(Swap32(Load32(m))) == [m[3], m[2], m[1], m[0]]
  {
    SwapLoad(m[0], m[1], m[2], m[3]);
    PackOctets(m[0], m[1], m[2], m[3]);
  }

  function Load4(m0: bv8, m1: bv8, m2: bv8, m3: bv8): bv32
  {
    ((m3 as bv32) << 24) | ((m2 as bv32) << 16) | ((m1 as bv32) << 8) | (m0 as bv32)
  }

  /** The 32-bit value whose octets, most significant first, are the four arguments. */
  function Pack(m0: bv8, m1: bv8, m2: bv8, m3: bv8): bv32
  {
    ((m0 as bv32) << 24) | ((m1 as bv32) << 16) | ((m2 as bv32) << 8) | (m3 as bv32)
  }

  lemma SwapLoad(m0: bv8, m1: bv8, m2: bv8, m3: bv8)
    ensures Swap32(Load4(m0, m1, m2, m3)) == Pack(m0, m1, m2, m3)
  {
  }

  lemma PackOctets(m0: bv8, m1: bv8, m2: bv8, m3: bv8)
    ensures OctetsMsbFirst(Pack(m0, m1, m2, m3)) == [m0, m1, m2, m3]
    ensures OctetsLsbFirst(Pack(m0, m1, m2, m3)) == [m3, m2, m1, m0]
  {
    var x := Pack(m0, m1, m2, m3);
    Octet3(m0, m1, m2, m3);
    Octet2(m0, m1, m2, m3);
    Octet1(m0, m1, m2, m3);
    Octet0(m0, m1, m2, m3);
  }

  lemma Octet3(m0: bv8, m1: bv8, m2: bv8, m3: bv8)
    ensures ((Pack(m0, m1, m2, m3) >> 24) & 0xFF) as bv8 == m0
  {
  }

  lemma Octet2(m0: bv8, m1: bv8, m2: bv8, m3: bv8)
    ensures ((Pack(m0, m1, m2, m3) >> 16) & 0xFF) as bv8 == m1
  {
  }

  lemma Octet1(m0: bv8, m1: bv8, m2: bv8, m3: bv8)
    ensures ((Pack(m0, m1, m2, m3) >> 8) & 0xFF) as bv8 == m2
  {
  }

  lemma Octet0(m0: bv8, m1: bv8, m2: bv8, m3: bv8)
    ensures (Pack(m0, m1, m2, m3) & 0xFF) as bv8 == m3
  {
  }

  /**
   For an IPv4 socket address read from memory, the initialiser as written stores the four
   address bytes in reverse order, so `a.b.c.d` becomes `::ffff:d.c.b.a`.
   */
  lemma InitSaReversesOctets(b: seq<bv8>)
    requires |b| >= SizeofSockaddrIn
    ensures V4Of(Ip(InitSaAsWritten(Decode4(b)))) == Some([b[7], b[6], b[5], b[4]])
    ensures Port(InitSaAsWritten(Decode4(b))) == ((b[2] as bv16) << 8) | (b[3] as bv16)
  {
    SwapOctets(b[4..8]);
  }

  /**
   The corrected initialiser maps `a.b.c.d`, stored in memory in network order, to
   `::ffff:a.b.c.d`, and keeps the port, also read in network order.
   */
  lemma InitSaKeepsAddress(b: seq<bv8>)
    requires |b| >= SizeofSockaddrIn
    ensures V4Of(Ip(InitSa(Decode4(b)))) == Some(b[4..8])
    ensures Port(InitSa(Decode4(b))) == ((b[2] as bv16) << 8) | (b[3] as bv16)
  {
    SwapOctets(b[4..8]);
  }

  /** 192.168.1.2, port 80, becomes `::ffff:2.1.168.192` under the initialiser as written. */
  lemma InitSaCounterexample()
    ensures var b: seq<bv8> := [16, 2, 0, 80, 192, 168, 1, 2, 0, 0, 0, 0, 0, 0, 0, 0];
      && V4Of(Ip(InitSaAsWritten(Decode4(b)))) == Some([2, 1, 168, 192])
      && V4Of(Ip(InitSa(Decode4(b)))) == Some([192, 168, 1, 2])
      && Port(InitSa(Decode4(b))) == 80
  {
    var b: seq<bv8> := [16, 2, 0, 80, 192, 168, 1, 2, 0, 0, 0, 0, 0, 0, 0, 0];
    assert b[4..8] == [192, 168, 1, 2];
    InitSaReversesOctets(b);
    InitSaKeepsAddress(b);
  }

  /**
   An `addrinfo` entry: `ai_family`, `ai_addrlen`, and the memory `ai_addr` points to (none
   for a null pointer).
   */
  datatype Addrinfo = Addrinfo(family: int, addrlen: int, addr: Option<seq<bv8>>)

  /** `ai_addr` points to at least `ai_addrlen` readable bytes, as `getaddrinfo` promises. */
  predicate WellFormed(ai: Addrinfo)
  {
    ai.addr.Some? ==> |ai.addr.value| >= ai.addrlen
  }

  /** Which `init(sa:)` an IPv4 conversion goes through: the code as written, or the corrected one. */
  datatype SaInit = SaAsWritten | SaIntended

  /** `init(sa:)` as chosen by `init`. */
  function FromSa(init: SaInit, sa: SockaddrIn): SockaddrIn6
  {
    match init
    case SaAsWritten => InitSaAsWritten(sa)
    case SaIntended => InitSa(sa)
  }

  /**
   `init?(ai:)`: an AF_INET6 entry whose length is that of `sockaddr_in6` gives its address
   and port (the flow label and scope are not carried over); an AF_INET entry whose length
   is that of `sockaddr_in` goes through `init(sa:)` (as chosen by `init`), which keeps the
   port and, as written, reverses the address octets; anything else, or a null address,
   gives nil.
   */
  function InitAi(init: SaInit, ai: Addrinfo): (r: Option<SockaddrIn6>)
    requires WellFormed(ai)
    ensures r.Some? <==> (ai.addr.Some?
      && ((ai.family == AF_INET6 && ai.addrlen == SizeofSockaddrIn6) || (ai.family == AF_INET && ai.addrlen == SizeofSockaddrIn)))
    ensures r.Some? ==> Valid(r.value) && r.value.flowInfo == 0 && r.value.scopeId == 0
    ensures r.Some? && ai.family == AF_INET6 ==>
      Ip(r.value) == Ip(Decode6(ai.addr.value)) && Port(r.value) == Port(Decode6(ai.addr.value))
    ensures r.Some? && ai.family == AF_INET ==>
      Port(r.value) == ((ai.addr.value[2] as bv16) << 8) | (ai.addr.value[3] as bv16)
    ensures r.Some? && ai.family == AF_INET && init == SaIntended ==>
      V4Of(Ip(r.value)) == Some(ai.addr.value[4..8])
    ensures r.Some? && ai.family == AF_INET && init == SaAsWritten ==>
      var b := ai.addr.value; V4Of(Ip(r.value)) == Some([b[7], b[6], b[5], b[4]])
  {
    if ai.family == AF_INET6 then
      if ai.addrlen != SizeofSockaddrIn6 || ai.addr.None? then None
      else var sa6 := Decode6(ai.addr.value); Some(InitIpPort(Ip(sa6), Port(sa6)))
    else if ai.family == AF_INET then
      if ai.addrlen != SizeofSockaddrIn || ai.addr.None? then None
      else
        InitSaKeepsAddress(ai.addr.value);
        InitSaReversesOctets(ai.addr.value);
        Some(FromSa(init, Decode4(ai.addr.value)))
    else None
  }
}
