/** What arrives of what is sent, field by field: the same, except for the fields no encoder sends. */
module WireArrival {
  import opened Prelude
  import opened WireTokens
  import opened WireTypes
  import opened WireOptions
  import opened WireMessages
  import opened WireBrowse

  // ---- Addresses and properties ----------------------------------------------------------------

  /** The flow label of an IPv4 address arrives as zero; every other field of every family is the same. */
  predicate SameAddress(a: Address, r: Address)
  {
    if a.Inet4? then r.Inet4? && r.port == a.port && r.addr == a.addr && r.flow == 0 else r == a
  }

  predicate RestingAddress(a: Address)
  {
    a.Inet4? ==> a.flow == 0
  }

  function AsUnsigned(x: int): int
  {
    if x < 0 then x + 0x1_0000_0000 else x
  }

  /** The scope of an IPv6 group arrives as its interface index. */
  predicate SameMulticast(m: Multicast, r: Multicast)
  {
    if m.Multicast6? then r.Multicast6? && r.itf == m.itf && r.addr == m.addr && r.scope == AsUnsigned(m.itf) else r == m
  }

  predicate RestingMulticast(m: Multicast)
  {
    m.Multicast6? ==> m.scope == AsUnsigned(m.itf)
  }

  /** A missing name arrives as an empty one. */
  predicate SameAddrInfo(a: AddrInfo, r: AddrInfo)
  {
    SameAddress(a.address, r.address) && r.name == if a.name.None? then Some([]) else a.name
  }

  predicate RestingAddrInfo(a: AddrInfo)
  {
    RestingAddress(a.address) && a.name.Some?
  }

  predicate SameInterface(x: Interface, r: Interface)
  {
    && SameAddress(x.address, r.address) && SameAddress(x.broadcast, r.broadcast)
    && r.prefix == x.prefix && r.flags == x.flags && r.name == x.name && r.number == x.number
  }

  predicate RestingInterface(x: Interface)
  {
    RestingAddress(x.address) && RestingAddress(x.broadcast)
  }

  predicate SameProperty(p: Property, r: Property)
  {
    && r.kind == p.kind
    && match p.value
       case Group(m) => r.value.Group? && SameMulticast(m, r.value.m)
       case Resolved(a) => r.value.Resolved? && SameAddrInfo(a, r.value.a)
       case Link(x) => r.value.Link? && SameInterface(x, r.value.i)
       case Number(_) => r.value == p.value
       case Blob(_) => r.value == p.value
       case File(_) => r.value == p.value
  }

  predicate RestingProperty(p: Property)
  {
    match p.value
    case Group(m) => RestingMulticast(m)
    case Resolved(a) => RestingAddrInfo(a)
    case Link(x) => RestingInterface(x)
    case _ => true
  }

  lemma PropertyIsSame(p: Property)
    requires GoodProperty(p)
    ensures SameProperty(p, SentProperty(p))
  {
  }

  /** The very same arrives exactly when the fields not sent are at rest. */
  lemma AddressRests(a: Address, r: Address)
    requires SameAddress(a, r)
    ensures r == a <==> RestingAddress(a)
  {
  }

  lemma PropertyRests(p: Property, r: Property)
    requires SameProperty(p, r)
    ensures r == p <==> RestingProperty(p)
  {
  }

  /** Addresses of every family. */
  lemma AddressArrives(a: Address, index: nat, rest: Tokens)
    requires GoodAddress(a) && index > 0
    ensures var r := AddressMember(index, AddressTokens(a, rest));
      r.Got? && r.index == index - 1 && r.rest == rest && SameAddress(a, r.value) && (r.value == a <==> RestingAddress(a))
  {
    AddressRoundTrip(a, index, rest);
    AddressRests(a, SentAddress(a));
  }

  /** Properties of every type. */
  lemma PropertyArrives(p: Property, index: nat, rest: Tokens)
    requires GoodProperty(p) && index > 0
    ensures var r := Member(index, PropertyTokens(p, rest), DecodeProperty, NO_PROPERTY);
      r.Got? && r.index == index - 1 && r.rest == rest && SameProperty(p, r.value) && (r.value == p <==> RestingProperty(p))
  {
    PropertyRoundTrip(p, index, rest);
    PropertyIsSame(p);
    PropertyRests(p, SentProperty(p));
  }

  // ---- The option table ------------------------------------------------------------------------

  /** The last used slot that holds an option of its number. */
  predicate LastOf(os: Table, i: nat)
  {
    i < |os| && IsOption(os[i].kind) && forall k :: i < k < |os| ==> os[k].kind != os[i].kind
  }

  predicate Unused(os: Table, j: int)
  {
    forall i :: 0 <= i < |os| && IsOption(os[i].kind) ==> os[i].kind != j
  }

  /** Each option arrives in the slot of its number, the last one if there are several; the others are clear. */
  predicate SameTable(os: Table, r: Table)
  {
    && |r| == SO_MAX
    && (forall i :: 0 <= i < |os| && LastOf(os, i) ==> SameProperty(os[i], r[os[i].kind]))
    && (forall j :: 0 <= j < SO_MAX && Unused(os, j) ==> r[j] == NO_PROPERTY)
  }

  predicate RestingTable(os: Table)
  {
    forall i :: 0 <= i < |os| ==>
      if IsOption(os[i].kind) then os[i].kind == i && RestingProperty(os[i]) else os[i] == NO_PROPERTY
  }

  /** Slots from `k` on hold no option of number `j`. */
  predicate UnusedFrom(os: Table, k: nat, j: int)
  {
    forall i :: k <= i < |os| && IsOption(os[i].kind) ==> os[i].kind != j
  }

  lemma {:induction false} StoredUnused(os: Table, k: nat, t: Table, j: nat)
    requires k <= |os| && |t| == SO_MAX && j < SO_MAX && UnusedFrom(os, k, j)
    ensures Stored(os, k, t)[j] == t[j]
    decreases |os| - k
  {
    if k < |os| {
      StoredUnused(os, k + 1, if IsOption(os[k].kind) then Store(t, SentProperty(os[k])) else t, j);
    }
  }

  lemma {:induction false} StoredLast(os: Table, k: nat, t: Table, i: nat)
    requires k <= i && |t| == SO_MAX && LastOf(os, i)
    ensures Stored(os, k, t)[os[i].kind] == SentProperty(os[i])
    decreases |os| - k
  {
    var after := if IsOption(os[k].kind) then Store(t, SentProperty(os[k])) else t;
    if k < i {
      StoredLast(os, k + 1, after, i);
    } else {
      StoredUnused(os, k + 1, after, os[i].kind);
    }
  }

  /** Any well-formed table, also with options out of place or more than once. */
  lemma TableArrives(os: Table)
    requires GoodTable(os)
    ensures SameTable(os, Stored(os, 0, Cleared()))
  {
    var r := Stored(os, 0, Cleared());
    forall i | 0 <= i < |os| && LastOf(os, i)
      ensures SameProperty(os[i], r[os[i].kind])
    {
      StoredLast(os, 0, Cleared(), i);
      PropertyIsSame(os[i]);
    }
    forall j | 0 <= j < SO_MAX && Unused(os, j)
      ensures r[j] == NO_PROPERTY
    {
      StoredUnused(os, 0, Cleared(), j);
    }
  }

  lemma {:induction false} FindLast(os: Table, i: nat) returns (k: nat)
    requires i < |os| && IsOption(os[i].kind)
    ensures LastOf(os, k) && os[k].kind == os[i].kind && k >= i
    decreases |os| - i
  {
    if j :| i < j < |os| && os[j].kind == os[i].kind {
      k := FindLast(os, j);
    } else {
      k := i;
    }
  }

  /** What is in slot `j` of an arrived table: an option of that number, or nothing. */
  lemma SlotKind(os: Table, r: Table, j: nat)
    requires SameTable(os, r) && j < SO_MAX
    ensures r[j].kind == j || r[j] == NO_PROPERTY
  {
    if i: nat :| i < |os| && IsOption(os[i].kind) && os[i].kind == j {
      var k := FindLast(os, i);
    } else {
      assert Unused(os, j);
    }
  }

  lemma TableRests(os: Table, r: Table)
    requires |os| == SO_MAX && SameTable(os, r)
    ensures r == os <==> RestingTable(os)
  {
    if RestingTable(os) {
      forall j | 0 <= j < SO_MAX
        ensures r[j] == os[j]
      {
        SlotRests(os, r, j);
      }
    } else {
      var i :| 0 <= i < |os| && !(if IsOption(os[i].kind) then os[i].kind == i && RestingProperty(os[i]) else os[i] == NO_PROPERTY);
      SlotDiffers(os, r, i);
    }
  }

  lemma SlotRests(os: Table, r: Table, j: nat)
    requires |os| == SO_MAX && SameTable(os, r) && RestingTable(os) && j < SO_MAX
    ensures r[j] == os[j]
  {
    if IsOption(os[j].kind) {
      assert LastOf(os, j);
      PropertyRests(os[j], r[j]);
    } else {
      assert Unused(os, j);
    }
  }

  lemma SlotDiffers(os: Table, r: Table, i: nat)
    requires |os| == SO_MAX && SameTable(os, r) && i < SO_MAX
    requires !(if IsOption(os[i].kind) then os[i].kind == i && RestingProperty(os[i]) else os[i] == NO_PROPERTY)
    ensures r != os
  {
    SlotKind(os, r, i);
    if r == os && os[i].kind == i && IsOption(i) {
      var k := FindLast(os, i);
      SlotKind(os, r, k);
      PropertyRests(os[k], r[i]);
    }
  }

  predicate SameSocket(p: SocketProperties, r: SocketProperties)
  {
    && r.family == p.family && r.sockType == p.sockType && r.protocol == p.protocol && r.flags == p.flags
    && r.timeout == p.timeout && SameAddress(p.address, r.address) && SameTable(p.options, r.options)
  }

  predicate RestingSocket(p: SocketProperties)
  {
    RestingAddress(p.address) && RestingTable(p.options)
  }

  lemma SocketRests(p: SocketProperties, r: SocketProperties)
    requires |p.options| == SO_MAX && SameSocket(p, r)
    ensures r == p <==> RestingSocket(p)
  {
    AddressRests(p.address, r.address);
    TableRests(p.options, r.options);
  }

  /** Socket properties with any option table. */
  lemma SocketArrives(p: SocketProperties, rest: Tokens)
    requires GoodProperties(p)
    ensures var r := DecodeSocket(7, SocketTokens(p, rest).tail.tail);
      r.Got? && r.index == 0 && r.rest == rest && SameSocket(p, r.value) && (r.value == p <==> RestingSocket(p))
  {
    SocketRoundTrip(p, rest);
    TableArrives(p.options);
    SocketRests(p, SentSocket(p));
  }

  // ---- Messages --------------------------------------------------------------------------------

  predicate SameContent(c: Content, r: Content)
  {
    match c
    case NoContent => r == c
    case PingRequest(a) => r.PingRequest? && SameAddress(a, r.address)
    case PingResponse(a, p, t) => r.PingResponse? && SameAddress(a, r.address) && r.physical == p && r.time == t
    case LinkRequest(v, p) => r.LinkRequest? && r.version == v && SameSocket(p, r.props)
    case LinkResponse(l, a, b) => r.LinkResponse? && r.link == l && SameAddress(a, r.local) && SameAddress(b, r.peer)
    case SetoptRequest(p) => r.SetoptRequest? && SameProperty(p, r.so)
    case GetoptRequest(o) => r == c
    case GetoptResponse(p) => r.GetoptResponse? && SameProperty(p, r.so)
    case OpenRequest(s, t, n, polled, m, _) => r == OpenRequest(s, t, n, polled, m, 0)
    case PollMessage(n, t) => r == c
    case DataMessage(n, a, b, d) =>
      r.DataMessage? && r.sequence == n && SameAddress(a, r.source) && r.buffer == b && r.control == d
    case CloseResponse(t, v, s, e) => r == c
  }

  predicate RestingContent(c: Content)
  {
    match c
    case PingRequest(a) => RestingAddress(a)
    case PingResponse(a, _, _) => RestingAddress(a)
    case LinkRequest(_, p) => RestingSocket(p)
    case LinkResponse(_, a, b) => RestingAddress(a) && RestingAddress(b)
    case SetoptRequest(p) => RestingProperty(p)
    case GetoptResponse(p) => RestingProperty(p)
    case OpenRequest(_, _, _, _, _, maxSend) => maxSend == 0
    case DataMessage(_, a, _, _) => RestingAddress(a)
    case _ => true
  }

  lemma ContentIsSame(c: Content)
    requires GoodContent(c)
    ensures SameContent(c, SentContent(c))
  {
    match c
    case LinkRequest(_, p) => TableArrives(p.options);
    case SetoptRequest(p) => PropertyIsSame(p);
    case GetoptResponse(p) => PropertyIsSame(p);
    case _ =>
  }

  lemma ContentRests(c: Content, r: Content)
    requires GoodContent(c) && SameContent(c, r)
    ensures r == c <==> RestingContent(c)
  {
    match c
    case LinkRequest(_, p) => SocketRests(p, r.props);
    case SetoptRequest(p) => PropertyRests(p, r.so);
    case GetoptResponse(p) => PropertyRests(p, r.so);
    case _ =>
  }

  predicate SameMessage(m: Message, r: Message)
  {
    && r.source == m.source && r.proxy == m.proxy && r.target == m.target && r.error == m.error
    && r.isResponse == m.isResponse && r.kind == m.kind && SameContent(m.content, r.content)
  }

  /** Every well-formed message of any type, request or response, arrives with every field it had, but for those
      no encoder sends; so the very same message arrives exactly when those are at rest: IPv4 flow labels and the
      maximum send size are zero, IPv6 groups have their interface for a scope, names are not missing, used
      option slots are in place and unused ones clear. Exactly its tokens are consumed. */
  lemma MessageArrives(m: Message, rest: Tokens, index: nat, unset: Message)
    requires GoodMessage(m) && index > 0
    ensures var r := Member(index, MessageTokens(m, rest), DecodeMessage, unset);
      && r.Got? && r.index == index - 1 && r.rest == rest
      && SameMessage(m, r.value) && (r.value == m <==> RestingContent(m.content))
  {
    MessageRoundTrip(m, rest, index, unset);
    ContentIsSame(m.content);
    ContentRests(m.content, SentContent(m.content));
  }

  // ---- Browsing --------------------------------------------------------------------------------

  predicate SameProps(ps: seq<Property>, rs: seq<Property>)
  {
    |rs| == |ps| && forall i :: 0 <= i < |ps| ==> SameProperty(ps[i], rs[i])
  }

  predicate RestingProps(ps: seq<Property>)
  {
    forall i :: 0 <= i < |ps| ==> RestingProperty(ps[i])
  }

  lemma PropsRest(ps: seq<Property>, rs: seq<Property>)
    requires SameProps(ps, rs)
    ensures rs == ps <==> RestingProps(ps)
  {
    forall i | 0 <= i < |ps|
      ensures rs[i] == ps[i] <==> RestingProperty(ps[i])
    {
      PropertyRests(ps[i], rs[i]);
    }
  }

  /** Browse requests of any known version. */
  lemma RequestArrives(b: BrowseRequest, rest: Tokens)
    requires GoodRequest(b)
    ensures var r := DecodeRequest(5, RequestTokens(b, rest).tail.tail);
      && r.Got? && r.index == 0 && r.rest == rest
      && r.value.handle == b.handle && r.value.version == b.version && r.value.kind == b.kind
      && r.value.flags == b.flags && SameAddress(b.item, r.value.item)
      && (r.value == b <==> RestingAddress(b.item))
  {
    RequestRoundTrip(b, rest);
    AddressRests(b.item, SentAddress(b.item));
  }

  /** Browse responses with any number of properties. */
  lemma ResponseArrives(b: BrowseResponse, rest: Tokens)
    requires GoodResponse(b)
    ensures var r := DecodeResponse(5, ResponseTokens(b, rest).tail.tail);
      && r.Got? && r.index == 0 && r.rest == rest
      && r.value.handle == b.handle && r.value.flags == b.flags && r.value.error == b.error
      && SameAddress(b.item, r.value.item) && SameProps(b.props, r.value.props)
      && (r.value == b <==> RestingAddress(b.item) && RestingProps(b.props))
  {
    ResponseRoundTrip(b, rest);
    AddressRests(b.item, SentAddress(b.item));
    PropsAreSame(b.props);
    PropsRest(b.props, SentProps(b.props));
  }

  lemma PropsAreSame(ps: seq<Property>)
    requires forall i :: 0 <= i < |ps| ==> GoodProperty(ps[i])
    ensures SameProps(ps, SentProps(ps))
  {
    forall i | 0 <= i < |ps|
      ensures SameProperty(ps[i], SentProps(ps)[i])
    {
      PropertyIsSame(ps[i]);
    }
  }
}
