/** The value types of the protocol: their tokens, their decoders, and the round trip of each. */
module WireTypes {
  import opened Prelude
  import opened WireTokens

  const HOST_SIZE: nat := 1025
  const PATH_SIZE: nat := 108
  const NAME_SIZE: nat := 128

  /** A string that fits, with its terminator, an array of `size` characters. */
  predicate Text(s: seq<byte>, size: nat)
  {
    NoZero(s) && |s| < size < DWORD
  }

  // ---- References ------------------------------------------------------------------------------

  type Ref = seq<byte>

  function RefTokens(r: Ref, rest: Tokens): Tokens
  {
    Object(1, Cons(Bin(Cut(r)), rest))
  }

  function DecodeRef(index: nat, ts: Tokens): Read<Ref>
  {
    ReadBinFixed(index, ts, 16)
  }

  const NO_REF: Ref := [0, 0, 0, 0, 0, 0, 0, 0, 0, 0, 0, 0, 0, 0, 0, 0]

  lemma RefRoundTrip(r: Ref, index: nat, rest: Tokens)
    requires |r| == 16 && index > 0
    ensures Member(index, RefTokens(r, rest), DecodeRef, NO_REF) == Got(r, index - 1, rest)
  {
  }

  // ---- Socket addresses ------------------------------------------------------------------------

  datatype Address =
    | Unspecified
    | Inet4(port: int, flow: int, addr: seq<byte>)
    | Inet6(port: int, flow: int, addr: seq<byte>, scope: int)
    | Proxy(port: int, flags: int, itf: int, host: seq<byte>)
    | Unix(path: seq<byte>)
    | OtherFamily(number: int)

  const UNSPEC: int := 0
  const UNIX: int := 1
  const INET: int := 2
  const INET6: int := 23
  const PROXY: int := 28165

  predicate GoodAddress(a: Address)
  {
    match a
    case Unspecified => true
    case Inet4(port, flow, addr) => Unsigned(port, WORD) && |addr| == 4
    case Inet6(port, flow, addr, scope) =>
      Unsigned(port, WORD) && Unsigned(flow, DWORD) && |addr| == 16 && Unsigned(scope, DWORD)
    case Proxy(port, flags, itf, host) =>
      Unsigned(port, WORD) && Unsigned(flags, WORD) && Signed32(itf) && Text(host, HOST_SIZE)
    case Unix(path) => Text(path, PATH_SIZE)
    case OtherFamily(_) => false
  }

  function AddressTokens(a: Address, rest: Tokens): Tokens
  {
    match a
    case Unspecified => Object(1, Cons(Int(UNSPEC), rest))
    case Inet4(port, flow, addr) => Object(3, Cons(Int(INET), Cons(Int(port), Cons(Bin(Cut(addr)), rest))))
    case Inet6(port, flow, addr, scope) =>
      Object(5, Cons(Int(INET6), Cons(Int(port), Cons(Int(flow), Cons(Bin(Cut(addr)), Cons(Int(scope), rest))))))
    case Proxy(port, flags, itf, host) =>
      Object(5, Cons(Int(PROXY), Cons(Int(port), Cons(Int(flags), Cons(Int(itf), Cons(Str(Cut(host)), rest))))))
    case Unix(path) => Object(2, Cons(Int(UNIX), Cons(Str(Cut(path)), rest)))
    case OtherFamily(_) => rest
  }

  /** The encoder leaves out the flow label of an IPv4 address. */
  function SentAddress(a: Address): Address
  {
    match a
    case Inet4(port, _, addr) => Inet4(port, 0, addr)
    case _ => a
  }

  function DecodeInet4(index: nat, ts: Tokens): Read<Address>
  {
    var (port, i, q) :- ReadUnsigned(index, ts, WORD);
    var (addr, j, r) :- ReadBinFixed(i, q, 4);
    Got(Inet4(port, 0, addr), j, r)
  }

  function DecodeInet6(index: nat, ts: Tokens): Read<Address>
  {
    var (port, i, p) :- ReadUnsigned(index, ts, WORD);
    var (flow, j, q) :- ReadUnsigned(i, p, DWORD);
    var (addr, k, r) :- ReadBinFixed(j, q, 16);
    var (scope, l, s) :- ReadUnsigned(k, r, DWORD);
    Got(Inet6(port, flow, addr, scope), l, s)
  }

  function DecodeProxy(index: nat, ts: Tokens): Read<Address>
  {
    var (port, i, p) :- ReadUnsigned(index, ts, WORD);
    var (flags, j, q) :- ReadUnsigned(i, p, WORD);
    var (itf, k, r) :- ReadSigned32(j, q);
    var (host, l, s) :- ReadStringFixed(k, r, HOST_SIZE);
    Got(Proxy(port, flags, itf, host), l, s)
  }

  function DecodeUnix(index: nat, ts: Tokens): Read<Address>
  {
    var (path, i, r) :- ReadStringFixed(index, ts, PATH_SIZE);
    Got(Unix(path), i, r)
  }

  function DecodeAddress(index: nat, ts: Tokens): Read<Address>
  {
    var (family, i, r) :- ReadSigned32(index, ts);
    if family == UNSPEC then Got(Unspecified, i, r)
    else if family == INET then DecodeInet4(i, r)
    else if family == INET6 then DecodeInet6(i, r)
    else if family == PROXY then DecodeProxy(i, r)
    else if family == UNIX then DecodeUnix(i, r)
    else Bad(InvalidFormat)
  }

  function AddressMember(index: nat, ts: Tokens): Read<Address>
  {
    Member(index, ts, DecodeAddress, Unspecified)
  }

  lemma AddressRoundTrip(a: Address, index: nat, rest: Tokens)
    requires GoodAddress(a) && index > 0
    ensures AddressMember(index, AddressTokens(a, rest)) == Got(SentAddress(a), index - 1, rest)
  {
  }

  // ---- Multicast options -----------------------------------------------------------------------

  datatype Multicast =
    | Multicast4(itf: int, addr: seq<byte>)
    | Multicast6(itf: int, addr: seq<byte>, scope: int)
    | MulticastOther(family: int, itf: int)

  predicate GoodMulticast(m: Multicast)
  {
    match m
    case Multicast4(itf, addr) => Signed32(itf) && |addr| == 4
    case Multicast6(itf, addr, _) => Signed32(itf) && |addr| == 16
    case MulticastOther(_, _) => false
  }

  function MulticastTokens(m: Multicast, rest: Tokens): Tokens
  {
    match m
    case Multicast4(itf, addr) => Object(3, Cons(Int(INET), Cons(Int(itf), Cons(Bin(Cut(addr)), rest))))
    case Multicast6(itf, addr, _) => Object(3, Cons(Int(INET6), Cons(Int(itf), Cons(Bin(Cut(addr)), rest))))
    case MulticastOther(_, _) => rest
  }

  /** The scope is not sent; the decoder takes the interface index for it, as an unsigned number. */
  function SentMulticast(m: Multicast): Multicast
  {
    if m.Multicast6? then m.(scope := m.itf % DWORD) else m
  }

  function DecodeMulticast(index: nat, ts: Tokens): Read<Multicast>
  {
    var (family, i, p) :- ReadSigned32(index, ts);
    var (itf, j, q) :- ReadSigned32(i, p);
    if family == INET then
      var (addr, k, r) :- ReadBinFixed(j, q, 4);
      Got(Multicast4(itf, addr), k, r)
    else if family == INET6 then
      var (addr, k, r) :- ReadBinFixed(j, q, 16);
      Got(Multicast6(itf, addr, itf % DWORD), k, r)
    else Bad(InvalidFormat)
  }

  // ---- File, address and interface information -------------------------------------------------

  datatype FileInfo = FileInfo(inode: int, device: int, kind: int, size: int, atime: int, mtime: int)

  predicate GoodFile(f: FileInfo)
  {
    Unsigned(f.inode, QWORD) && Unsigned(f.device, QWORD) && Signed32(f.kind)
    && Unsigned(f.size, QWORD) && Unsigned(f.atime, QWORD) && Unsigned(f.mtime, QWORD)
  }

  function FileTokens(f: FileInfo, rest: Tokens): Tokens
  {
    Object(6, Cons(Int(f.inode), Cons(Int(f.device), Cons(Int(f.kind),
      Cons(Int(f.size), Cons(Int(f.atime), Cons(Int(f.mtime), rest)))))))
  }

  function DecodeFile(index: nat, ts: Tokens): Read<FileInfo>
  {
    var (inode, i, o) :- ReadUnsigned(index, ts, QWORD);
    var (device, j, p) :- ReadUnsigned(i, o, QWORD);
    var (kind, k, q) :- ReadSigned32(j, p);
    var (size, l, r) :- ReadUnsigned(k, q, QWORD);
    var (atime, m, s) :- ReadUnsigned(l, r, QWORD);
    var (mtime, n, t) :- ReadUnsigned(m, s, QWORD);
    Got(FileInfo(inode, device, kind, size, atime, mtime), n, t)
  }

  datatype AddrInfo = AddrInfo(address: Address, name: Option<seq<byte>>)

  function NameOf(a: AddrInfo): seq<byte>
  {
    if a.name.Some? then a.name.value else []
  }

  predicate GoodAddrInfo(a: AddrInfo)
  {
    GoodAddress(a.address) && Text(NameOf(a), 0xFFFF_FFFF)
  }

  function AddrInfoTokens(a: AddrInfo, rest: Tokens): Tokens
  {
    Object(2, AddressTokens(a.address, Cons(Str(Cut(NameOf(a))), rest)))
  }

  /** A missing name arrives as an empty one. */
  function SentAddrInfo(a: AddrInfo): AddrInfo
  {
    AddrInfo(SentAddress(a.address), Some(NameOf(a)))
  }

  function DecodeAddrInfo(index: nat, ts: Tokens): Read<AddrInfo>
  {
    var (address, i, q) :- AddressMember(index, ts);
    var (name, j, r) :- ReadString(i, q);
    Got(AddrInfo(address, Some(name)), j, r)
  }

  datatype Interface = Interface(address: Address, prefix: int, flags: int, name: seq<byte>, number: int, broadcast: Address)

  predicate GoodInterface(x: Interface)
  {
    GoodAddress(x.address) && Unsigned(x.prefix, BYTE) && Unsigned(x.flags, BYTE) && Text(x.name, NAME_SIZE)
    && Signed32(x.number) && GoodAddress(x.broadcast)
  }

  function InterfaceTokens(x: Interface, rest: Tokens): Tokens
  {
    Object(6, AddressTokens(x.address, InterfaceTail(x, rest)))
  }

  function InterfaceTail(x: Interface, rest: Tokens): Tokens
  {
    Cons(Int(x.prefix), Cons(Int(x.flags), Cons(Str(Cut(x.name)), Cons(Int(x.number), AddressTokens(x.broadcast, rest)))))
  }

  function SentInterface(x: Interface): Interface
  {
    x.(address := SentAddress(x.address), broadcast := SentAddress(x.broadcast))
  }

  function DecodeInterface(index: nat, ts: Tokens): Read<Interface>
  {
    var (address, i, o) :- AddressMember(index, ts);
    var (prefix, j, p) :- ReadUnsigned(i, o, BYTE);
    var (flags, k, q) :- ReadUnsigned(j, p, BYTE);
    var (name, l, r) :- ReadStringFixed(k, q, NAME_SIZE);
    var (number, m, s) :- ReadSigned32(l, r);
    var (broadcast, n, t) :- AddressMember(m, s);
    Got(Interface(address, prefix, flags, name, number, broadcast), n, t)
  }

  lemma AddrInfoRoundTrip(a: AddrInfo, rest: Tokens)
    requires GoodAddrInfo(a)
    ensures DecodeAddrInfo(2, AddrInfoTokens(a, rest).tail.tail) == Got(SentAddrInfo(a), 0, rest)
  {
    AddressRoundTrip(a.address, 2, Cons(Str(Cut(NameOf(a))), rest));
  }

  lemma InterfaceRoundTrip(x: Interface, rest: Tokens)
    requires GoodInterface(x)
    ensures DecodeInterface(6, InterfaceTokens(x, rest).tail.tail) == Got(SentInterface(x), 0, rest)
  {
    AddressRoundTrip(x.address, 6, InterfaceTail(x, rest));
    AddressRoundTrip(x.broadcast, 1, rest);
  }

  // ---- Properties ------------------------------------------------------------------------------

  datatype Value =
    | Number(n: int)
    | Group(m: Multicast)
    | Blob(bytes: seq<byte>)
    | File(f: FileInfo)
    | Resolved(a: AddrInfo)
    | Link(i: Interface)

  /** The type number selects the member of the value union. */
  datatype Property = Property(kind: int, value: Value)

  const SO_MAX: nat := 34
  const MULTICAST_JOIN: int := 31
  const MULTICAST_LEAVE: int := 32
  const RECORD_MIN: int := 100
  const RECORD_MAX: int := 103
  const FILE_INFO: int := 200
  const ADDR_INFO: int := 201
  const IFADDR_INFO: int := 202

  predicate IsOption(kind: int) { 0 < kind < SO_MAX }
  predicate IsGroup(kind: int) { kind == MULTICAST_JOIN || kind == MULTICAST_LEAVE }
  predicate IsRecord(kind: int) { RECORD_MIN <= kind < RECORD_MAX }

  /** The union holds what the type number says. */
  predicate Matched(p: Property)
  {
    && (IsGroup(p.kind) ==> p.value.Group?)
    && (IsRecord(p.kind) ==> p.value.Blob?)
    && (IsOption(p.kind) && !IsGroup(p.kind) ==> p.value.Number?)
    && (p.kind == FILE_INFO ==> p.value.File?)
    && (p.kind == ADDR_INFO ==> p.value.Resolved?)
    && (p.kind == IFADDR_INFO ==> p.value.Link?)
  }

  predicate Supported(kind: int)
  {
    IsOption(kind) || IsRecord(kind) || FILE_INFO <= kind <= IFADDR_INFO
  }

  predicate GoodValue(v: Value)
  {
    match v
    case Number(n) => Unsigned(n, QWORD)
    case Group(m) => GoodMulticast(m)
    case Blob(bytes) => |bytes| < DWORD
    case File(f) => GoodFile(f)
    case Resolved(a) => GoodAddrInfo(a)
    case Link(x) => GoodInterface(x)
  }

  predicate GoodProperty(p: Property)
  {
    Supported(p.kind) && Matched(p) && GoodValue(p.value)
  }

  function ValueTokens(v: Value, rest: Tokens): Tokens
  {
    match v
    case Number(n) => Cons(Int(n), rest)
    case Group(m) => MulticastTokens(m, rest)
    case Blob(bytes) => Cons(Bin(Cut(bytes)), rest)
    case File(f) => FileTokens(f, rest)
    case Resolved(a) => AddrInfoTokens(a, rest)
    case Link(i) => InterfaceTokens(i, rest)
  }

  function PropertyTokens(p: Property, rest: Tokens): Tokens
  {
    Object(2, Cons(Int(p.kind), ValueTokens(p.value, rest)))
  }

  function SentProperty(p: Property): Property
  {
    match p.value
    case Group(m) => p.(value := Group(SentMulticast(m)))
    case Resolved(a) => p.(value := Resolved(SentAddrInfo(a)))
    case Link(i) => p.(value := Link(SentInterface(i)))
    case _ => p
  }

  function DecodeValue(kind: int, index: nat, ts: Tokens): Read<Value>
  {
    if IsGroup(kind) then
      var (m, i, r) :- DecodeMulticast(index, ts);
      Got(Group(m), i, r)
    else if kind == ADDR_INFO then
      var (a, i, r) :- DecodeAddrInfo(index, ts);
      Got(Resolved(a), i, r)
    else if kind == IFADDR_INFO then
      var (x, i, r) :- DecodeInterface(index, ts);
      Got(Link(x), i, r)
    else if kind == FILE_INFO then
      var (f, i, r) :- DecodeFile(index, ts);
      Got(File(f), i, r)
    else Bad(InvalidFormat)
  }

  function DecodeProperty(index: nat, ts: Tokens): Read<Property>
  {
    var (kind, i, p) :- ReadSigned32(index, ts);
    if IsGroup(kind) || kind >= FILE_INFO then
      var (n, j, q) :- ReadObject(i, p);
      if n.None? then Bad(InvalidFormat) else
      var (v, _, r) :- DecodeValue(kind, n.value, q);
      Got(Property(kind, v), j, r)
    else if IsRecord(kind) then
      var (bytes, j, r) :- ReadBin(i, p);
      Got(Property(kind, Blob(bytes)), j, r)
    else if IsOption(kind) then
      var (n, j, r) :- ReadUnsigned(i, p, QWORD);
      Got(Property(kind, Number(n)), j, r)
    else Bad(InvalidFormat)
  }

  lemma ValueRoundTrip(p: Property, rest: Tokens)
    requires GoodProperty(p) && (IsGroup(p.kind) || p.kind >= FILE_INFO)
    ensures ReadObject(1, ValueTokens(p.value, rest)).Got?
    ensures var o := ReadObject(1, ValueTokens(p.value, rest));
      && o.value.Some? && o.index == 0
      && DecodeValue(p.kind, o.value.value, o.rest) == Got(SentProperty(p).value, 0, rest)
  {
    match p.value
    case Resolved(a) => AddrInfoRoundTrip(a, rest);
    case Link(x) => InterfaceRoundTrip(x, rest);
    case _ =>
  }

  const NO_PROPERTY: Property := Property(0, Number(0))

  lemma PropertyRoundTrip(p: Property, index: nat, rest: Tokens)
    requires GoodProperty(p) && index > 0
    ensures Member(index, PropertyTokens(p, rest), DecodeProperty, NO_PROPERTY) == Got(SentProperty(p), index - 1, rest)
  {
    if IsGroup(p.kind) || p.kind >= FILE_INFO { ValueRoundTrip(p, rest); }
  }
}
