/**
 The `Socket6` property extension: boolean socket options read and written through
 `getsockopt`/`setsockopt` with every failure swallowed, the `NetServiceType` enumeration and
 its table of Darwin `NET_SERVICE_TYPE_*` values, and `getError`.

 The kernel's option values are a map from (level, option name) to the 32-bit value last
 stored; a read of a missing key is a failed `getsockopt`. Whether a `setsockopt` succeeds is
 a parameter.
 */
module SocketProperties {
  import opened Posix

  /** Darwin's option levels and names. */
  const SOL_SOCKET: int := 0xFFFF
  const SO_ACCEPTCONN: int := 0x0002
  const SO_REUSEADDR: int := 0x0004
  const SO_KEEPALIVE: int := 0x0008
  const SO_DONTROUTE: int := 0x0010
  const SO_BROADCAST: int := 0x0020
  const SO_NET_SERVICE_TYPE: int := 0x1116
  const IPPROTO_TCP: int := 6
  const TCP_NODELAY: int := 0x01
  const IPPROTO_IPV6: int := 41
  const IPV6_V6ONLY: int := 27

  datatype Key = Key(level: int, name: int)

  /** The option values the kernel holds for one socket. */
  type Options = map<Key, int32>

  /** The boolean properties: `reuseAddress`, `keepAlive`, `broadcast`, `dontRoute`, `noDelay`, `ip6Only`, and the read-only `isListening`. */
  datatype BoolOption = ReuseAddress | KeepAlive | Broadcast | DontRoute | NoDelay | Ip6Only | IsListening

  /** The level and option name each property reads and writes. */
  function KeyOf(o: BoolOption): Key
  {
    match o
    case ReuseAddress => Key(SOL_SOCKET, SO_REUSEADDR)
    case KeepAlive => Key(SOL_SOCKET, SO_KEEPALIVE)
    case Broadcast => Key(SOL_SOCKET, SO_BROADCAST)
    case DontRoute => Key(SOL_SOCKET, SO_DONTROUTE)
    case NoDelay => Key(IPPROTO_TCP, TCP_NODELAY)
    case Ip6Only => Key(IPPROTO_IPV6, IPV6_V6ONLY)
    case IsListening => Key(SOL_SOCKET, SO_ACCEPTCONN)
  }

  /** No two properties share an option, and none is the service-type option. */
  lemma KeysDistinct(a: BoolOption, b: BoolOption)
    ensures KeyOf(a) == KeyOf(b) <==> a == b
    ensures KeyOf(a) != Key(SOL_SOCKET, SO_NET_SERVICE_TYPE)
  {
  }

  /** `setboolopt`'s encoding: true as 1, false as 0. */
  function EncodeBool(v: bool): (x: int32)
    ensures x == 0 || x == 1
  {
    if v then 1 else 0
  }

  /** `getboolopt`'s decoding: any nonzero value is true. */
  function DecodeBool(x: int32): bool
  {
    x != 0
  }

  /** Decoding undoes encoding; encoding a decoded value keeps its truth but normalises it to 0 or 1. */
  lemma BoolRoundTrip(v: bool, x: int32)
    ensures DecodeBool(EncodeBool(v)) == v
    ensures DecodeBool(EncodeBool(DecodeBool(x))) == DecodeBool(x)
    ensures EncodeBool(DecodeBool(x)) == x <==> x == 0 || x == 1
  {
  }

  /** A property getter: `(try? getboolopt(level, name)) ?? false`. */
  function GetBool(opts: Options, o: BoolOption): (v: bool)
    ensures KeyOf(o) !in opts ==> !v
    ensures KeyOf(o) in opts ==> (v <==> opts[KeyOf(o)] != 0)
  {
    if KeyOf(o) in opts then DecodeBool(opts[KeyOf(o)]) else false
  }

  /** A property setter: `try? setboolopt(level, name, value)`; a failed call changes nothing. */
  function SetBool(opts: Options, o: BoolOption, v: bool, succeeds: bool): (r: Options)
    requires o != IsListening
    ensures !succeeds ==> r == opts
    ensures succeeds ==> KeyOf(o) in r && r[KeyOf(o)] == EncodeBool(v)
    ensures forall k :: k != KeyOf(o) ==> (k in r <==> k in opts)
    ensures forall k :: k in opts && k != KeyOf(o) ==> r[k] == opts[k]
  {
    if succeeds then opts[KeyOf(o) := EncodeBool(v)] else opts
  }

  /**
   Reading a property after a successful write gives the written value, and writing one
   property leaves every other property, and the service type, as it was.
   */
  lemma SetThenGet(opts: Options, o: BoolOption, other: BoolOption, v: bool)
    requires o != IsListening && other != o
    ensures GetBool(SetBool(opts, o, v, true), o) == v
    ensures GetBool(SetBool(opts, o, v, true), other) == GetBool(opts, other)
    ensures GetServiceType(SetBool(opts, o, v, true)) == GetServiceType(opts)
  {
    KeysDistinct(o, other);
    KeysDistinct(o, o);
  }

  /** `NetServiceType`, in raw-value order 0 to 8. */
  datatype NetServiceType = BestEffort | Background | Signaling | InteractiveVideo | InteractiveVoice
                          | ResponsiveAV | StreamingAV | Management | ResponsiveData

  /** The enumeration's `rawValue`. */
  function RawValue(t: NetServiceType): (i: nat)
    ensures i < 9
  {
    match t
    case BestEffort => 0
    case Background => 1
    case Signaling => 2
    case InteractiveVideo => 3
    case InteractiveVoice => 4
    case ResponsiveAV => 5
    case StreamingAV => 6
    case Management => 7
    case ResponsiveData => 8
  }

  /** `init(rawValue:)`: the case with that raw value, if any. */
  function FromRawValue(i: int): (t: Option<NetServiceType>)
    ensures t.Some? <==> 0 <= i < 9
    ensures t.Some? ==> RawValue(t.value) == i
  {
    if i == 0 then Some(BestEffort)
    else if i == 1 then Some(Background)
    else if i == 2 then Some(Signaling)
    else if i == 3 then Some(InteractiveVideo)
    else if i == 4 then Some(InteractiveVoice)
    else if i == 5 then Some(ResponsiveAV)
    else if i == 6 then Some(StreamingAV)
    else if i == 7 then Some(Management)
    else if i == 8 then Some(ResponsiveData)
    else None
  }

  /**
   `rawServiceTypes`: NET_SERVICE_TYPE_BE, _BK, _SIG, _VI, _VO, _RV, _AV, _OAM and _RD, whose
   Darwin values are 0 to 8.
   */
  const RawServiceTypes: seq<int32> := [0, 1, 2, 3, 4, 5, 6, 7, 8]

  /** `Array.index(of:)`: the first position holding `x`. */
  function IndexOf(s: seq<int32>, x: int32): (r: Option<nat>)
    ensures r.Some? ==> r.value < |s| && s[r.value] == x && forall j :: 0 <= j < r.value ==> s[j] != x
    ensures r.None? ==> x !in s
  {
    IndexFrom(s, x, 0)
  }

  /** The first position at or after `i` holding `x`. */
  function IndexFrom(s: seq<int32>, x: int32, i: nat): (r: Option<nat>)
    requires i <= |s| && forall j :: 0 <= j < i ==> s[j] != x
    ensures r.Some? ==> i <= r.value < |s| && s[r.value] == x && forall j :: 0 <= j < r.value ==> s[j] != x
    ensures r.None? ==> x !in s
    decreases |s| - i
  {
    if i == |s| then None
    else if s[i] == x then Some(i)
    else IndexFrom(s, x, i + 1)
  }

  /** `init?(rawServiceType:)`: the case at the position of the value in the table, nil when it is not there. */
  function FromRawServiceType(raw: int32): (t: Option<NetServiceType>)
    ensures t.None? <==> raw !in RawServiceTypes
  {
    match IndexOf(RawServiceTypes, raw)
    case None => None
    case Some(i) => FromRawValue(i)
  }

  /** `rawType`: the table entry at the case's raw value. */
  function RawType(t: NetServiceType): int32
  {
    RawServiceTypes[RawValue(t)]
  }

  /**
   The table and the enumeration correspond one to one: converting a case to its raw type and
   back gives the case, and a raw value that converts to a case is that case's raw type.
   */
  lemma ServiceTypeRoundTrip(t: NetServiceType, raw: int32)
    ensures FromRawServiceType(RawType(t)) == Some(t)
    ensures FromRawServiceType(raw).Some? ==> RawType(FromRawServiceType(raw).value) == raw
  {
  }

  /** The `netServiceType` getter: `.bestEffort` when the read fails or gives a value outside the table. */
  function GetServiceType(opts: Options): (t: NetServiceType)
    ensures var k := Key(SOL_SOCKET, SO_NET_SERVICE_TYPE);
      (k !in opts || opts[k] !in RawServiceTypes) ==> t == BestEffort
    ensures var k := Key(SOL_SOCKET, SO_NET_SERVICE_TYPE);
      k in opts && opts[k] in RawServiceTypes ==> RawType(t) == opts[k]
  {
    var k := Key(SOL_SOCKET, SO_NET_SERVICE_TYPE);
    if k !in opts then BestEffort
    else match FromRawServiceType(opts[k])
      case None => BestEffort
      case Some(t) => ServiceTypeRoundTrip(t, opts[k]); t
  }

  /** The `netServiceType` setter: `try? setsockopt(SOL_SOCKET, SO_NET_SERVICE_TYPE, rawType)`. */
  function SetServiceType(opts: Options, t: NetServiceType, succeeds: bool): (r: Options)
    ensures !succeeds ==> r == opts
    ensures forall k :: k != Key(SOL_SOCKET, SO_NET_SERVICE_TYPE) ==> (k in r <==> k in opts)
    ensures forall k :: k in opts && k != Key(SOL_SOCKET, SO_NET_SERVICE_TYPE) ==> r[k] == opts[k]
  {
    if succeeds then opts[Key(SOL_SOCKET, SO_NET_SERVICE_TYPE) := RawType(t)] else opts
  }

  /** Reading the service type after a successful write gives the written case; no boolean property changes. */
  lemma ServiceTypeSetThenGet(opts: Options, t: NetServiceType, o: BoolOption)
    ensures GetServiceType(SetServiceType(opts, t, true)) == t
    ensures GetBool(SetServiceType(opts, t, true), o) == GetBool(opts, o)
  {
    ServiceTypeRoundTrip(t, RawType(t));
    KeysDistinct(o, o);
  }

  /**
   `getError` as written: nil when the SO_ERROR read fails, otherwise an error only for a
   negative value.
   */
  function GetErrorAsWritten(read: Option<int32>): (r: Option<POSIXError>)
    ensures r.Some? <==> read.Some? && read.value < 0
    ensures r.Some? ==> r.value.code == read.value
  {
    match read
    case None => None
    case Some(e) => if e < 0 then Some(POSIXError(e)) else None
  }

  /**
   SO_ERROR holds a pending `errno`, which is zero or positive: for every value the kernel can
   report, the function as written reports nothing, ECONNREFUSED (61) included.
   */
  lemma GetErrorNeverReports(e: int32)
    requires e >= 0
    ensures GetErrorAsWritten(Some(e)) == None
    ensures GetErrorAsWritten(Some(61)) == None && GetError(Some(61)) == Some(POSIXError(61))
  {
  }

  /** `getError` as evidently intended: a pending error is any nonzero SO_ERROR value. */
  function GetError(read: Option<int32>): (r: Option<POSIXError>)
    ensures r.Some? <==> read.Some? && read.value != 0
    ensures r.Some? ==> r.value.code == read.value
  {
    match read
    case None => None
    case Some(e) => if e != 0 then Some(POSIXError(e)) else None
  }
}
