/** The encoders: each writes exactly the members it declares, and exactly the tokens of its value. */
module WireEncoders {
  import opened Prelude
  import opened WireTokens
  import opened WireTypes
  import opened WireOptions
  import opened WireMessages
  import opened WireDecoded
  import opened WireBrowse
  import opened WireArrival

  // ---- What the encoders refuse ----------------------------------------------------------------

  function AddressError(a: Address): Option<Error>
  {
    if a.OtherFamily? then Some(Arg) else None
  }

  function MulticastError(m: Multicast): Option<Error>
  {
    if m.MulticastOther? then Some(InvalidFormat) else None
  }

  function InterfaceError(x: Interface): Option<Error>
  {
    if AddressError(x.address).Some? then AddressError(x.address) else AddressError(x.broadcast)
  }

  function PropertyError(p: Property): Option<Error>
    requires Matched(p)
  {
    if !Supported(p.kind) then Some(Writing)
    else match p.value
      case Group(m) => MulticastError(m)
      case Resolved(a) => AddressError(a.address)
      case Link(i) => InterfaceError(i)
      case _ => None
  }

  // ---- Values ----------------------------------------------------------------------------------

  method EncodeRef(ctx: Context, r: Ref)
    modifies ctx, ctx.stream
    ensures ctx.index == 0
    ensures forall rest {:trigger Followed(ctx.stream.out, rest)} :: Followed(ctx.stream.out, rest) == Followed(old(ctx.stream.out), RefTokens(r, rest))
  {
    ctx.TypeBegin(1);
    ctx.Bytes(r);
    ctx.TypeEnd();
  }

  method EncodeInet(ctx: Context, a: Address)
    requires a.Inet4? || a.Inet6?
    modifies ctx, ctx.stream
    ensures ctx.index == 0
    ensures forall rest {:trigger Followed(ctx.stream.out, rest)} :: Followed(ctx.stream.out, rest) == Followed(old(ctx.stream.out), AddressTokens(a, rest))
  {
    ctx.TypeBegin(if a.Inet4? then 3 else 5);
    ctx.Value(Int(if a.Inet4? then INET else INET6));
    ctx.Value(Int(a.port));
    if a.Inet4? {
      ctx.Bytes(a.addr);
    } else {
      ctx.Value(Int(a.flow));
      ctx.Bytes(a.addr);
      ctx.Value(Int(a.scope));
    }
    ctx.TypeEnd();
  }

  method EncodeProxy(ctx: Context, a: Address)
    requires a.Proxy?
    modifies ctx, ctx.stream
    ensures ctx.index == 0
    ensures forall rest {:trigger Followed(ctx.stream.out, rest)} :: Followed(ctx.stream.out, rest) == Followed(old(ctx.stream.out), AddressTokens(a, rest))
  {
    ctx.TypeBegin(5);
    ctx.Value(Int(PROXY));
    ctx.Value(Int(a.port));
    ctx.Value(Int(a.flags));
    ctx.Value(Int(a.itf));
    ctx.Text(a.host);
    ctx.TypeEnd();
  }

  method EncodeUnix(ctx: Context, a: Address)
    requires a.Unix?
    modifies ctx, ctx.stream
    ensures ctx.index == 0
    ensures forall rest {:trigger Followed(ctx.stream.out, rest)} :: Followed(ctx.stream.out, rest) == Followed(old(ctx.stream.out), AddressTokens(a, rest))
  {
    ctx.TypeBegin(2);
    ctx.Value(Int(UNIX));
    ctx.Text(a.path);
    ctx.TypeEnd();
  }

  method EncodeAddress(ctx: Context, a: Address) returns (error: Option<Error>)
    modifies ctx, ctx.stream
    ensures error == AddressError(a)
    ensures error.None? ==> ctx.index == 0
    ensures error.None? ==>
      forall rest {:trigger Followed(ctx.stream.out, rest)} :: Followed(ctx.stream.out, rest) == Followed(old(ctx.stream.out), AddressTokens(a, rest))
  {
    match a {
      case Unspecified =>
        ctx.TypeBegin(1);
        ctx.Value(Int(UNSPEC));
        ctx.TypeEnd();
      case Inet4(_, _, _) => EncodeInet(ctx, a);
      case Inet6(_, _, _, _) => EncodeInet(ctx, a);
      case Proxy(_, _, _, _) => EncodeProxy(ctx, a);
      case Unix(_) => EncodeUnix(ctx, a);
      case OtherFamily(_) => return Some(Arg);
    }
    error := None;
  }

  /** An address as a member of the object `ctx` writes. */
  method AddressField(ctx: Context, a: Address) returns (error: Option<Error>)
    requires ctx.index != 0
    modifies ctx, ctx.stream
    ensures error == AddressError(a) && ctx.index == old(ctx.index) - 1
    ensures error.None? ==>
      forall rest {:trigger Followed(ctx.stream.out, rest)} :: Followed(ctx.stream.out, rest) == Followed(old(ctx.stream.out), AddressTokens(a, rest))
  {
    var child := ctx.Child();
    error := EncodeAddress(child, a);
  }

  method RefField(ctx: Context, r: Ref)
    requires ctx.index != 0
    modifies ctx, ctx.stream
    ensures ctx.index == old(ctx.index) - 1
    ensures forall rest {:trigger Followed(ctx.stream.out, rest)} :: Followed(ctx.stream.out, rest) == Followed(old(ctx.stream.out), RefTokens(r, rest))
  {
    var child := ctx.Child();
    EncodeRef(child, r);
  }

  method EncodeMulticast(ctx: Context, m: Multicast) returns (error: Option<Error>)
    modifies ctx, ctx.stream
    ensures error == MulticastError(m)
    ensures error.None? ==> ctx.index == 0
    ensures error.None? ==>
      forall rest {:trigger Followed(ctx.stream.out, rest)} :: Followed(ctx.stream.out, rest) == Followed(old(ctx.stream.out), MulticastTokens(m, rest))
  {
    ctx.TypeBegin(3);
    ctx.Value(Int(if m.Multicast4? then INET else if m.Multicast6? then INET6 else m.family));
    ctx.Value(Int(m.itf));
    if m.MulticastOther? {
      return Some(InvalidFormat);
    }
    ctx.Bytes(m.addr);
    ctx.TypeEnd();
    error := None;
  }

  method EncodeFile(ctx: Context, f: FileInfo)
    modifies ctx, ctx.stream
    ensures ctx.index == 0
    ensures forall rest {:trigger Followed(ctx.stream.out, rest)} :: Followed(ctx.stream.out, rest) == Followed(old(ctx.stream.out), FileTokens(f, rest))
  {
    ctx.TypeBegin(6);
    ctx.Value(Int(f.inode));
    ctx.Value(Int(f.device));
    ctx.Value(Int(f.kind));
    ctx.Value(Int(f.size));
    ctx.Value(Int(f.atime));
    ctx.Value(Int(f.mtime));
    ctx.TypeEnd();
  }

  method EncodeAddrInfo(ctx: Context, a: AddrInfo) returns (error: Option<Error>)
    modifies ctx, ctx.stream
    ensures error == AddressError(a.address)
    ensures error.None? ==> ctx.index == 0
    ensures error.None? ==>
      forall rest {:trigger Followed(ctx.stream.out, rest)} :: Followed(ctx.stream.out, rest) == Followed(old(ctx.stream.out), AddrInfoTokens(a, rest))
  {
    ctx.TypeBegin(2);
    error := AddressField(ctx, a.address);
    if error.Some? { return; }
    ctx.Text(if a.name.Some? then a.name.value else []);
    ctx.TypeEnd();
  }

  method EncodeInterface(ctx: Context, x: Interface) returns (error: Option<Error>)
    modifies ctx, ctx.stream
    ensures error == InterfaceError(x)
    ensures error.None? ==> ctx.index == 0
    ensures error.None? ==>
      forall rest {:trigger Followed(ctx.stream.out, rest)} :: Followed(ctx.stream.out, rest) == Followed(old(ctx.stream.out), InterfaceTokens(x, rest))
  {
    ctx.TypeBegin(6);
    error := AddressField(ctx, x.address);
    if error.Some? { return; }
    error := EncodeInterfaceTail(ctx, x);
    if error.Some? { return; }
    ctx.TypeEnd();
  }

  method EncodeInterfaceTail(ctx: Context, x: Interface) returns (error: Option<Error>)
    requires ctx.index == 5
    modifies ctx, ctx.stream
    ensures error == AddressError(x.broadcast)
    ensures error.None? ==> ctx.index == 0
    ensures error.None? ==> forall rest {:trigger Followed(ctx.stream.out, rest)} ::
      Followed(ctx.stream.out, rest) == Followed(old(ctx.stream.out), InterfaceTail(x, rest))
  {
    ctx.Value(Int(x.prefix));
    ctx.Value(Int(x.flags));
    ctx.Text(x.name);
    ctx.Value(Int(x.number));
    error := AddressField(ctx, x.broadcast);
  }

  /** The values that are objects of their own. */
  method EncodeValue(ctx: Context, p: Property) returns (error: Option<Error>)
    requires Matched(p) && (IsGroup(p.kind) || p.kind >= FILE_INFO)
    modifies ctx, ctx.stream
    ensures error == PropertyError(p)
    ensures error.None? ==>
      forall rest {:trigger Followed(ctx.stream.out, rest)} :: Followed(ctx.stream.out, rest) == Followed(old(ctx.stream.out), ValueTokens(p.value, rest))
  {
    if IsGroup(p.kind) {
      error := EncodeMulticast(ctx, p.value.m);
    } else if p.kind == ADDR_INFO {
      error := EncodeAddrInfo(ctx, p.value.a);
    } else if p.kind == IFADDR_INFO {
      error := EncodeInterface(ctx, p.value.i);
    } else if p.kind == FILE_INFO {
      EncodeFile(ctx, p.value.f);
      error := None;
    } else {
      error := Some(Writing);
    }
  }

  method EncodeProperty(ctx: Context, p: Property) returns (error: Option<Error>)
    requires Matched(p)
    modifies ctx, ctx.stream
    ensures error == PropertyError(p)
    ensures error.None? ==> ctx.index == 0
    ensures error.None? ==>
      forall rest {:trigger Followed(ctx.stream.out, rest)} :: Followed(ctx.stream.out, rest) == Followed(old(ctx.stream.out), PropertyTokens(p, rest))
  {
    ctx.TypeBegin(2);
    ctx.Value(Int(p.kind));
    if IsGroup(p.kind) || p.kind >= FILE_INFO {
      var child := ctx.Child();
      error := EncodeValue(child, p);
    } else if IsRecord(p.kind) {
      ctx.Bytes(p.value.bytes);
      error := None;
    } else if IsOption(p.kind) {
      ctx.Value(Int(p.value.n));
      error := None;
    } else {
      error := Some(Writing);
    }
    if error.Some? { return; }
    ctx.TypeEnd();
  }

  method PropertyField(ctx: Context, p: Property) returns (error: Option<Error>)
    requires ctx.index != 0 && Matched(p)
    modifies ctx, ctx.stream
    ensures error == PropertyError(p) && ctx.index == old(ctx.index) - 1
    ensures error.None? ==>
      forall rest {:trigger Followed(ctx.stream.out, rest)} :: Followed(ctx.stream.out, rest) == Followed(old(ctx.stream.out), PropertyTokens(p, rest))
  {
    var child := ctx.Child();
    error := EncodeProperty(child, p);
  }

  // ---- Socket properties -----------------------------------------------------------------------

  predicate MatchedTable(os: Table)
  {
    forall i :: 0 <= i < |os| && IsOption(os[i].kind) ==> Matched(os[i])
  }

  /** The error of the first used slot from `k` on that cannot be encoded. */
  function TableError(os: Table, k: nat): Option<Error>
    requires k <= |os| && MatchedTable(os)
    decreases |os| - k
  {
    if k == |os| then None
    else if IsOption(os[k].kind) && PropertyError(os[k]).Some? then PropertyError(os[k])
    else TableError(os, k + 1)
  }

  method CountUsed(os: Table) returns (size: nat)
    ensures size == Used(os, 0)
  {
    size := 0;
    var i := 0;
    while i < |os|
      invariant i <= |os| && size + Used(os, i) == Used(os, 0)
    {
      if IsOption(os[i].kind) { size := size + 1; }
      i := i + 1;
    }
  }

  lemma OptionsStep(os: Table, i: nat, rest: Tokens)
    requires i < |os|
    ensures OptionsTokens(os, i, rest) ==
      if IsOption(os[i].kind) then PropertyTokens(os[i], OptionsTokens(os, i + 1, rest)) else OptionsTokens(os, i + 1, rest)
  {
  }

  /** Writes the used slots as array items; the array's counter ends at zero. */
  method EncodeOptions(list: Context, os: Table) returns (error: Option<Error>)
    requires list.index == Used(os, 0) && MatchedTable(os)
    modifies list, list.stream
    ensures error == TableError(os, 0)
    ensures error.None? ==> list.index == 0
    ensures error.None? ==> forall rest {:trigger Followed(list.stream.out, rest)} ::
      Followed(list.stream.out, rest) == Followed(old(list.stream.out), OptionsTokens(os, 0, rest))
  {
    var i := 0;
    while i < |os|
      invariant i <= |os| && list.index == Used(os, i) && TableError(os, 0) == TableError(os, i)
      invariant forall rest {:trigger OptionsTokens(os, i, rest)} ::
        Followed(list.stream.out, OptionsTokens(os, i, rest)) == Followed(old(list.stream.out), OptionsTokens(os, 0, rest))
    {
      if IsOption(os[i].kind) {
        error := PropertyField(list, os[i]);
        if error.Some? { return; }
      }
      forall rest
        ensures Followed(list.stream.out, OptionsTokens(os, i + 1, rest)) ==
                Followed(old(list.stream.out), OptionsTokens(os, 0, rest))
      {
        OptionsStep(os, i, rest);
      }
      i := i + 1;
    }
    error := None;
    forall rest ensures Followed(list.stream.out, rest) == Followed(old(list.stream.out), OptionsTokens(os, 0, rest)) {
      assert OptionsTokens(os, i, rest) == rest;
    }
  }

  function SocketError(p: SocketProperties): Option<Error>
    requires MatchedTable(p.options)
  {
    if AddressError(p.address).Some? then AddressError(p.address) else TableError(p.options, 0)
  }

  method EncodeNumbers(ctx: Context, family: int, sockType: int, protocol: int, flags: int, timeout: int)
    modifies ctx, ctx.stream
    ensures ctx.index == 2
    ensures forall rest {:trigger Followed(ctx.stream.out, rest)} ::
      Followed(ctx.stream.out, rest) == Followed(old(ctx.stream.out),
        Object(7, Cons(Int(family), Cons(Int(sockType), Cons(Int(protocol), Cons(Int(flags), Cons(Int(timeout), rest)))))))
  {
    ctx.TypeBegin(7);
    ctx.Value(Int(family));
    ctx.Value(Int(sockType));
    ctx.Value(Int(protocol));
    ctx.Value(Int(flags));
    ctx.Value(Int(timeout));
  }

  method EncodeAddressAndOptions(ctx: Context, p: SocketProperties) returns (error: Option<Error>)
    requires ctx.index == 2 && MatchedTable(p.options)
    modifies ctx, ctx.stream
    ensures error == SocketError(p)
    ensures error.None? ==> ctx.index == 0
    ensures error.None? ==> forall rest {:trigger Followed(ctx.stream.out, rest)} ::
      Followed(ctx.stream.out, rest) == Followed(old(ctx.stream.out), AddressAndOptionsTokens(p, rest))
  {
    error := AddressField(ctx, p.address);
    if error.Some? { return; }
    var size := CountUsed(p.options);
    var list := ctx.Items(size);
    error := EncodeOptions(list, p.options);
  }

  method EncodeSocket(ctx: Context, p: SocketProperties) returns (error: Option<Error>)
    requires MatchedTable(p.options)
    modifies ctx, ctx.stream
    ensures error == SocketError(p)
    ensures error.None? ==> ctx.index == 0
    ensures error.None? ==> forall rest {:trigger Followed(ctx.stream.out, rest)} ::
      Followed(ctx.stream.out, rest) == Followed(old(ctx.stream.out), SocketTokens(p, rest))
  {
    EncodeNumbers(ctx, p.family, p.sockType, p.protocol, p.flags, p.timeout);
    error := EncodeAddressAndOptions(ctx, p);
    if error.Some? { return; }
    ctx.TypeEnd();
  }

  // ---- Messages --------------------------------------------------------------------------------

  predicate MatchedContent(c: Content)
  {
    match c
    case LinkRequest(_, p) => MatchedTable(p.options)
    case SetoptRequest(p) => Matched(p)
    case GetoptResponse(p) => Matched(p)
    case _ => true
  }

  function ContentError(c: Content): Option<Error>
    requires MatchedContent(c)
  {
    match c
    case PingRequest(a) => AddressError(a)
    case PingResponse(a, _, _) => AddressError(a)
    case LinkRequest(_, p) => SocketError(p)
    case LinkResponse(_, a, b) => if AddressError(a).Some? then AddressError(a) else AddressError(b)
    case SetoptRequest(p) => PropertyError(p)
    case GetoptResponse(p) => PropertyError(p)
    case DataMessage(_, a, _, _) => AddressError(a)
    case _ => None
  }

  method EncodePing(ctx: Context, c: Content) returns (error: Option<Error>)
    requires c.PingRequest? || c.PingResponse?
    modifies ctx, ctx.stream
    ensures error == ContentError(c)
    ensures error.None? ==> ctx.index == 0
    ensures error.None? ==> forall rest {:trigger Followed(ctx.stream.out, rest)} ::
      Followed(ctx.stream.out, rest) == Followed(old(ctx.stream.out), ContentTokens(c, rest))
  {
    ctx.TypeBegin(if c.PingRequest? then 1 else 3);
    error := AddressField(ctx, c.address);
    if error.Some? { return; }
    if c.PingResponse? {
      ctx.Bytes(c.physical);
      ctx.Value(Int(c.time));
    }
    ctx.TypeEnd();
  }

  method EncodeLinkRequest(ctx: Context, c: Content) returns (error: Option<Error>)
    requires c.LinkRequest? && MatchedContent(c)
    modifies ctx, ctx.stream
    ensures error == ContentError(c)
    ensures error.None? ==> ctx.index == 0
    ensures error.None? ==> forall rest {:trigger Followed(ctx.stream.out, rest)} ::
      Followed(ctx.stream.out, rest) == Followed(old(ctx.stream.out), ContentTokens(c, rest))
  {
    ctx.TypeBegin(2);
    ctx.Value(Int(c.version));
    var child := ctx.Child();
    error := EncodeSocket(child, c.props);
    if error.Some? { return; }
    ctx.TypeEnd();
  }

  method EncodeLinkResponse(ctx: Context, c: Content) returns (error: Option<Error>)
    requires c.LinkResponse?
    modifies ctx, ctx.stream
    ensures error == ContentError(c)
    ensures error.None? ==> ctx.index == 0
    ensures error.None? ==> forall rest {:trigger Followed(ctx.stream.out, rest)} ::
      Followed(ctx.stream.out, rest) == Followed(old(ctx.stream.out), ContentTokens(c, rest))
  {
    ctx.TypeBegin(3);
    RefField(ctx, c.link);
    error := AddressField(ctx, c.local);
    if error.Some? { return; }
    error := AddressField(ctx, c.peer);
    if error.Some? { return; }
    ctx.TypeEnd();
  }

  method EncodeOption(ctx: Context, c: Content) returns (error: Option<Error>)
    requires (c.SetoptRequest? || c.GetoptRequest? || c.GetoptResponse?) && MatchedContent(c)
    modifies ctx, ctx.stream
    ensures error == ContentError(c)
    ensures error.None? ==> ctx.index == 0
    ensures error.None? ==> forall rest {:trigger Followed(ctx.stream.out, rest)} ::
      Followed(ctx.stream.out, rest) == Followed(old(ctx.stream.out), ContentTokens(c, rest))
  {
    ctx.TypeBegin(1);
    error := None;
    if c.GetoptRequest? {
      ctx.Value(Int(c.opt));
    } else {
      error := PropertyField(ctx, c.so);
      if error.Some? { return; }
    }
    ctx.TypeEnd();
  }

  method EncodeOpen(ctx: Context, c: Content)
    requires c.OpenRequest?
    modifies ctx, ctx.stream
    ensures ctx.index == 0
    ensures forall rest {:trigger Followed(ctx.stream.out, rest)} ::
      Followed(ctx.stream.out, rest) == Followed(old(ctx.stream.out), ContentTokens(c, rest))
  {
    ctx.TypeBegin(5);
    RefField(ctx, c.stream);
    ctx.Value(Int(c.codec));
    ctx.Text(c.connection);
    ctx.Value(Bool(c.polled));
    ctx.Value(Int(c.maxRecv));
    ctx.TypeEnd();
  }

  method EncodePoll(ctx: Context, c: Content)
    requires c.PollMessage?
    modifies ctx, ctx.stream
    ensures ctx.index == 0
    ensures forall rest {:trigger Followed(ctx.stream.out, rest)} ::
      Followed(ctx.stream.out, rest) == Followed(old(ctx.stream.out), ContentTokens(c, rest))
  {
    ctx.TypeBegin(2);
    ctx.Value(Int(c.sequence));
    ctx.Value(Int(c.timeout));
    ctx.TypeEnd();
  }

  method EncodeData(ctx: Context, c: Content) returns (error: Option<Error>)
    requires c.DataMessage?
    modifies ctx, ctx.stream
    ensures error == ContentError(c)
    ensures error.None? ==> ctx.index == 0
    ensures error.None? ==> forall rest {:trigger Followed(ctx.stream.out, rest)} ::
      Followed(ctx.stream.out, rest) == Followed(old(ctx.stream.out), ContentTokens(c, rest))
  {
    ctx.TypeBegin(4);
    ctx.Value(Int(c.sequence));
    error := AddressField(ctx, c.source);
    if error.Some? { return; }
    ctx.Bytes(c.buffer);
    ctx.Bytes(c.control);
    ctx.TypeEnd();
  }

  method EncodeClose(ctx: Context, timeOpen: int, received: int, sent: int, error: int)
    modifies ctx, ctx.stream
    ensures ctx.index == 0
    ensures forall rest {:trigger Followed(ctx.stream.out, rest)} ::
      Followed(ctx.stream.out, rest) == Followed(old(ctx.stream.out), CloseTokens(timeOpen, received, sent, error, rest))
  {
    ctx.TypeBegin(4);
    ctx.Value(Int(timeOpen));
    ctx.Value(Int(received));
    ctx.Value(Int(sent));
    ctx.Value(Int(error));
    ctx.TypeEnd();
  }

  method EncodeBody(ctx: Context, c: Content) returns (error: Option<Error>)
    requires !c.NoContent? && MatchedContent(c)
    modifies ctx, ctx.stream
    ensures error == ContentError(c)
    ensures error.None? ==> forall rest {:trigger Followed(ctx.stream.out, rest)} ::
      Followed(ctx.stream.out, rest) == Followed(old(ctx.stream.out), ContentTokens(c, rest))
  {
    error := None;
    match c {
      case PingRequest(_) => error := EncodePing(ctx, c);
      case PingResponse(_, _, _) => error := EncodePing(ctx, c);
      case LinkRequest(_, _) => error := EncodeLinkRequest(ctx, c);
      case LinkResponse(_, _, _) => error := EncodeLinkResponse(ctx, c);
      case SetoptRequest(_) => error := EncodeOption(ctx, c);
      case GetoptRequest(_) => error := EncodeOption(ctx, c);
      case GetoptResponse(_) => error := EncodeOption(ctx, c);
      case OpenRequest(_, _, _, _, _, _) => EncodeOpen(ctx, c);
      case PollMessage(_, _) => EncodePoll(ctx, c);
      case DataMessage(_, _, _, _) => error := EncodeData(ctx, c);
      case CloseResponse(t, r, n, e) => EncodeClose(ctx, t, r, n, e);
    }
  }

  /** The type number and the direction say which content is written. */
  method EncodeContent(ctx: Context, m: Message) returns (error: Option<Error>)
    requires ctx.index != 0 && Fits(m.isResponse, m.kind, m.content) && MatchedContent(m.content)
    modifies ctx, ctx.stream
    ensures error == if Known(m.kind) then ContentError(m.content) else Some(NotSupported)
    ensures Known(m.kind) ==> ctx.index == old(ctx.index) - 1
    ensures error.None? ==> forall rest {:trigger Followed(ctx.stream.out, rest)} ::
      Followed(ctx.stream.out, rest) == Followed(old(ctx.stream.out), ContentTokens(m.content, rest))
  {
    if !Known(m.kind) {
      return Some(NotSupported);
    }
    if Empty(m.isResponse, m.kind) {
      ctx.NullChild();
      return None;
    }
    var child := ctx.Child();
    error := EncodeBody(child, m.content);
  }

  function MessageError(m: Message): Option<Error>
    requires MatchedContent(m.content)
  {
    if Known(m.kind) then ContentError(m.content) else Some(NotSupported)
  }

  method EncodeMessage(ctx: Context, m: Message) returns (error: Option<Error>)
    requires Fits(m.isResponse, m.kind, m.content) && MatchedContent(m.content)
    modifies ctx, ctx.stream
    ensures error == MessageError(m)
    ensures error.None? ==> ctx.index == 0
    ensures error.None? ==> forall rest {:trigger Followed(ctx.stream.out, rest)} ::
      Followed(ctx.stream.out, rest) == Followed(old(ctx.stream.out), MessageTokens(m, rest))
  {
    ctx.TypeBegin(8);
    ctx.Value(Int(VERSION));
    RefField(ctx, m.source);
    RefField(ctx, m.proxy);
    RefField(ctx, m.target);
    ctx.Value(Int(m.error));
    ctx.Value(Bool(m.isResponse));
    ctx.Value(Int(m.kind));
    error := EncodeContent(ctx, m);
    if error.Some? { return; }
    ctx.TypeEnd();
  }

  lemma GoodPropertyEncodes(p: Property)
    requires GoodProperty(p)
    ensures PropertyError(p).None?
  {
  }

  lemma {:induction false} GoodTableEncodes(os: Table, k: nat)
    requires GoodTable(os) && k <= |os|
    ensures MatchedTable(os) && TableError(os, k).None?
    decreases |os| - k
  {
    if k < |os| {
      if IsOption(os[k].kind) { GoodPropertyEncodes(os[k]); }
      GoodTableEncodes(os, k + 1);
    }
  }

  predicate WritableProperty(p: Property)
  {
    && Supported(p.kind)
    && (p.value.Group? ==> !p.value.m.MulticastOther?)
    && (p.value.Resolved? ==> !p.value.a.address.OtherFamily?)
    && (p.value.Link? ==> !p.value.i.address.OtherFamily? && !p.value.i.broadcast.OtherFamily?)
  }

  predicate WritableContent(c: Content)
  {
    match c
    case PingRequest(a) => !a.OtherFamily?
    case PingResponse(a, _, _) => !a.OtherFamily?
    case LinkRequest(_, p) =>
      !p.address.OtherFamily? && forall i :: 0 <= i < |p.options| && IsOption(p.options[i].kind) ==> WritableProperty(p.options[i])
    case LinkResponse(_, a, b) => !a.OtherFamily? && !b.OtherFamily?
    case SetoptRequest(p) => WritableProperty(p)
    case GetoptResponse(p) => WritableProperty(p)
    case DataMessage(_, a, _, _) => !a.OtherFamily?
    case _ => true
  }

  lemma {:induction false} TableRefused(os: Table, k: nat)
    requires MatchedTable(os) && k <= |os|
    ensures TableError(os, k).None? <==> forall i :: k <= i < |os| && IsOption(os[i].kind) ==> WritableProperty(os[i])
    decreases |os| - k
  {
    if k < |os| { TableRefused(os, k + 1); }
  }

  /** A message is refused exactly when its type is unknown, an address or group in it has an unknown family, or
      a property an unknown type. */
  lemma RefusesExactlyUnwritable(m: Message)
    requires MatchedContent(m.content)
    ensures MessageError(m).None? <==> Known(m.kind) && WritableContent(m.content)
  {
    if m.content.LinkRequest? { TableRefused(m.content.props.options, 0); }
  }

  /** Nothing well formed is refused. */
  lemma GoodMessagesEncode(m: Message)
    requires GoodMessage(m)
    ensures MatchedContent(m.content) && MessageError(m).None?
  {
    if m.content.LinkRequest? { GoodTableEncodes(m.content.props.options, 0); }
  }

  /** From whatever tokens, a decoded message can be encoded again exactly unless its property was null. */
  lemma DecodedMessagesEncode(index: nat, ts: Tokens)
    requires DecodeMessage(index, ts).Got?
    ensures var m := DecodeMessage(index, ts).value;
      && Fits(m.isResponse, m.kind, m.content) && MatchedContent(m.content)
      && (MessageError(m).None? <==> !Unset(m.content)) && (Unset(m.content) ==> MessageError(m) == Some(Writing))
  {
    var m := DecodeMessage(index, ts).value;
    DecodedMessagesAreSound(index, ts, End, m);
    DecodedFits(index, ts);
    if GoodMessage(m) { GoodMessagesEncode(m); }
  }

  lemma DecodedFits(index: nat, ts: Tokens)
    requires DecodeMessage(index, ts).Got?
    ensures var m := DecodeMessage(index, ts).value; Known(m.kind) && Fits(m.isResponse, m.kind, m.content)
  {
    var v := ReadUnsigned(index, ts, DWORD);
    var refs := DecodeRefs(v.index, v.rest);
    var e := ReadSigned32(refs.index, refs.rest);
    var b := ReadBool(e.index, e.rest);
    var k := ReadUnsigned(b.index, b.rest, DWORD);
    DecodedContent(b.value, k.value, k.index, k.rest);
  }

  /** A well-formed message, written to a fresh stream and decoded from it whatever follows, arrives. */
  method Transfer(m: Message, rest: Tokens) returns (r: Read<Message>)
    requires GoodMessage(m)
    ensures r == Got(SentMessage(m), 0, rest)
    ensures SameMessage(m, r.value) && (r.value == m <==> RestingContent(m.content))
  {
    var stream := new Stream();
    var ctx := new Context(stream);
    GoodMessagesEncode(m);
    var _ := EncodeMessage(ctx, m);
    MessageRoundTrip(m, rest, 1, m);
    MessageArrives(m, rest, 1, m);
    r := Member(1, Followed(stream.out, rest), DecodeMessage, m);
  }

  // ---- Browsing --------------------------------------------------------------------------------

  method EncodeBrowseRequest(ctx: Context, b: BrowseRequest) returns (error: Option<Error>)
    modifies ctx, ctx.stream
    ensures error == if b.version > BROWSE_VERSION then Some(InvalidFormat) else AddressError(b.item)
    ensures error.None? ==> ctx.index == 0
    ensures error.None? ==> forall rest {:trigger Followed(ctx.stream.out, rest)} ::
      Followed(ctx.stream.out, rest) == Followed(old(ctx.stream.out), RequestTokens(b, rest))
  {
    ctx.TypeBegin(5);
    RefField(ctx, b.handle);
    ctx.Value(Int(b.version));
    if b.version > BROWSE_VERSION {
      return Some(InvalidFormat);
    }
    ctx.Value(Int(b.kind));
    ctx.Value(Int(b.flags));
    error := AddressField(ctx, b.item);
    if error.Some? { return; }
    ctx.TypeEnd();
  }

  predicate AllMatched(ps: seq<Property>)
  {
    forall i :: 0 <= i < |ps| ==> Matched(ps[i])
  }

  function PropsError(ps: seq<Property>): Option<Error>
    requires AllMatched(ps)
  {
    if ps == [] then None
    else if PropertyError(ps[0]).Some? then PropertyError(ps[0])
    else PropsError(ps[1..])
  }

  method EncodeProps(list: Context, ps: seq<Property>) returns (error: Option<Error>)
    requires list.index == |ps| && AllMatched(ps)
    modifies list, list.stream
    ensures error == PropsError(ps)
    ensures error.None? ==> list.index == 0
    ensures error.None? ==> forall rest {:trigger Followed(list.stream.out, rest)} ::
      Followed(list.stream.out, rest) == Followed(old(list.stream.out), PropsTokens(ps, rest))
  {
    var i := 0;
    while i < |ps|
      invariant i <= |ps| && list.index == |ps| - i && PropsError(ps) == PropsError(ps[i..])
      invariant forall rest {:trigger PropsTokens(ps[i..], rest)} ::
        Followed(list.stream.out, PropsTokens(ps[i..], rest)) == Followed(old(list.stream.out), PropsTokens(ps, rest))
    {
      assert ps[i..][1..] == ps[i + 1..];
      error := PropertyField(list, ps[i]);
      if error.Some? { return; }
      forall rest
        ensures Followed(list.stream.out, PropsTokens(ps[i + 1..], rest)) ==
                Followed(old(list.stream.out), PropsTokens(ps, rest))
      {
        assert PropsTokens(ps[i..], rest) == PropertyTokens(ps[i], PropsTokens(ps[i + 1..], rest));
      }
      i := i + 1;
    }
    error := None;
    forall rest ensures Followed(list.stream.out, rest) == Followed(old(list.stream.out), PropsTokens(ps, rest)) {
      assert PropsTokens(ps[i..], rest) == rest;
    }
  }

  method EncodeBrowseResponse(ctx: Context, b: BrowseResponse) returns (error: Option<Error>)
    requires AllMatched(b.props)
    modifies ctx, ctx.stream
    ensures error == if AddressError(b.item).Some? then AddressError(b.item) else PropsError(b.props)
    ensures error.None? ==> ctx.index == 0
    ensures error.None? ==> forall rest {:trigger Followed(ctx.stream.out, rest)} ::
      Followed(ctx.stream.out, rest) == Followed(old(ctx.stream.out), ResponseTokens(b, rest))
  {
    ctx.TypeBegin(5);
    RefField(ctx, b.handle);
    ctx.Value(Int(b.flags));
    ctx.Value(Int(b.error));
    error := AddressField(ctx, b.item);
    if error.Some? { return; }
    var list := ctx.Items(|b.props|);
    error := EncodeProps(list, b.props);
    if error.Some? { return; }
    ctx.TypeEnd();
  }
}
