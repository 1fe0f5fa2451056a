/**
 The earlier copy of the `sockaddr_in6` extension (`SwiftySockets/sockaddr_in6.swift`). Its
 `port`, `ip`, `valid`, `any`, `loopback`, `init()`, `init(ip:port:)` and `init(sa:)` are the
 same code as in the current copy and are modelled once, in `Sockaddr`; what is its own is
 `init?(sockaddr:)`, which dispatches on the header of a generic `sockaddr` rather than on an
 `addrinfo` entry.
 */
module LegacySockaddr {
  import opened Posix
  import opened Sockaddr

  /**
   The memory a `sockaddr` pointer designates: at least the header (`sa_len`, `sa_family`),
   and at least `sa_len` readable bytes.
   */
  predicate Readable(b: seq<bv8>)
  {
    |b| >= 2 && |b| >= b[0] as int
  }

  /**
   `init?(sockaddr:)`: an AF_INET6 header with `sa_len` equal to the size of `sockaddr_in6`
   copies the whole structure; an AF_INET header with `sa_len` equal to the size of
   `sockaddr_in` goes through `init(sa:)` (as chosen by `init`), which keeps the port and,
   as written, reverses the address octets; any other header gives nil.
   */
  function InitSockaddr(init: SaInit, b: seq<bv8>): (r: Option<SockaddrIn6>)
    requires Readable(b)
    ensures r.Some? <==> ((b[1] as int == AF_INET6 && b[0] as int == SizeofSockaddrIn6)
                      || (b[1] as int == AF_INET && b[0] as int == SizeofSockaddrIn))
    ensures r.Some? ==> Valid(r.value)
    ensures r.Some? && b[1] as int == AF_INET6 ==> Encode6(r.value) == b[..28]
    ensures r.Some? && b[1] as int == AF_INET ==> Port(r.value) == ((b[2] as bv16) << 8) | (b[3] as bv16)
    ensures r.Some? && b[1] as int == AF_INET && init == SaIntended ==> V4Of(Ip(r.value)) == Some(b[4..8])
    ensures r.Some? && b[1] as int == AF_INET && init == SaAsWritten ==>
      V4Of(Ip(r.value)) == Some([b[7], b[6], b[5], b[4]])
  {
    if b[1] as int == AF_INET6 then
      if b[0] as int != SizeofSockaddrIn6 then None
      else
        EncodeDecode6(b);
        Some(Decode6(b))
    else if b[1] as int == AF_INET then
      if b[0] as int != SizeofSockaddrIn then None
      else
        InitSaKeepsAddress(b);
        InitSaReversesOctets(b);
        Some(FromSa(init, Decode4(b)))
    else None
  }

  /**
   The two versions read the same address and port from the same memory, whether it is
   reached through an `addrinfo` entry or directly, with the same `init(sa:)`; only the
   earlier one keeps the flow label and scope of an IPv6 address.
   */
  lemma InitializersAgree(init: SaInit, b: seq<bv8>)
    requires Readable(b)
    ensures var ai := Addrinfo(b[1] as int, b[0] as int, Some(b));
      WellFormed(ai) && (InitAi(init, ai).Some? <==> InitSockaddr(init, b).Some?)
    ensures var ai := Addrinfo(b[1] as int, b[0] as int, Some(b));
      InitAi(init, ai).Some? ==> (Ip(InitAi(init, ai).value) == Ip(InitSockaddr(init, b).value)
                            && Port(InitAi(init, ai).value) == Port(InitSockaddr(init, b).value))
  {
    var ai := Addrinfo(b[1] as int, b[0] as int, Some(b));
    if InitAi(init, ai).Some? && b[1] as int == AF_INET {
      assert InitAi(init, ai).value == FromSa(init, Decode4(b)) == InitSockaddr(init, b).value;
    }
  }
}
