/** Protocol messages: their tokens, their decoder, and the round trip of all eight types. */
module WireMessages {
  import opened Prelude
  import opened WireTokens
  import opened WireTypes
  import opened WireOptions

  const PING: int := 10
  const LINK: int := 12
  const SETOPT: int := 13
  const GETOPT: int := 14
  const OPEN: int := 20
  const CLOSE: int := 21
  const DATA: int := 30
  const POLL: int := 31

  /** Major, minor and release number in the upper three bytes. */
  const VERSION: int := 0x0002_0100

  /** Only the upper half of the version number is compared. */
  predicate Compatible(version: int)
  {
    version / WORD == VERSION / WORD
  }

  datatype Content =
    | NoContent
    | PingRequest(address: Address)
    | PingResponse(address: Address, physical: seq<byte>, time: int)
    | LinkRequest(version: int, props: SocketProperties)
    | LinkResponse(link: Ref, local: Address, peer: Address)
    | SetoptRequest(so: Property)
    | GetoptRequest(opt: int)
    | GetoptResponse(so: Property)
    | OpenRequest(stream: Ref, codec: int, connection: seq<byte>, polled: bool, maxRecv: int, maxSend: int)
    | PollMessage(sequence: int, timeout: int)
    | DataMessage(sequence: int, source: Address, buffer: seq<byte>, control: seq<byte>)
    | CloseResponse(timeOpen: int, received: int, sent: int, error: int)

  datatype Message = Message(
    source: Ref, proxy: Ref, target: Ref, error: int, isResponse: bool, kind: int, content: Content)

  predicate Known(kind: int)
  {
    kind in {PING, LINK, SETOPT, GETOPT, OPEN, CLOSE, DATA, POLL}
  }

  /** The content each type of request and response carries. */
  predicate Fits(isResponse: bool, kind: int, c: Content)
  {
    if kind == DATA then c.DataMessage?
    else if kind == CLOSE then (if isResponse then c.CloseResponse? else c.NoContent?)
    else if kind == PING then (if isResponse then c.PingResponse? else c.PingRequest?)
    else if kind == POLL then (if isResponse then c.NoContent? else c.PollMessage?)
    else if kind == LINK then (if isResponse then c.LinkResponse? else c.LinkRequest?)
    else if kind == OPEN then (if isResponse then c.NoContent? else c.OpenRequest?)
    else if kind == SETOPT then (if isResponse then c.NoContent? else c.SetoptRequest?)
    else if kind == GETOPT then (if isResponse then c.GetoptResponse? else c.GetoptRequest?)
    else true
  }

  predicate GoodContent(c: Content)
  {
    match c
    case NoContent => true
    case PingRequest(a) => GoodAddress(a)
    case PingResponse(a, p, t) => GoodAddress(a) && |p| == 8 && Unsigned(t, DWORD)
    case LinkRequest(v, p) => Unsigned(v, BYTE) && GoodProperties(p)
    case LinkResponse(l, a, b) => |l| == 16 && GoodAddress(a) && GoodAddress(b)
    case SetoptRequest(p) => GoodProperty(p)
    case GetoptRequest(o) => Signed32(o)
    case GetoptResponse(p) => GoodProperty(p)
    case OpenRequest(s, t, n, _, r, _) => |s| == 16 && Signed32(t) && Text(n, 0xFFFF_FFFF) && Unsigned(r, DWORD)
    case PollMessage(n, t) => Unsigned(n, QWORD) && Unsigned(t, QWORD)
    case DataMessage(n, a, b, d) => Unsigned(n, QWORD) && GoodAddress(a) && |b| < DWORD && |d| < DWORD
    case CloseResponse(t, r, s, e) => Unsigned(t, QWORD) && Unsigned(r, QWORD) && Unsigned(s, QWORD) && Signed32(e)
  }

  predicate GoodMessage(m: Message)
  {
    |m.source| == 16 && |m.proxy| == 16 && |m.target| == 16 && Signed32(m.error) && Known(m.kind)
    && Fits(m.isResponse, m.kind, m.content) && GoodContent(m.content)
  }

  // ---- Tokens ----------------------------------------------------------------------------------

  function ContentTokens(c: Content, rest: Tokens): Tokens
  {
    match c
    case NoContent => Cons(Nil, rest)
    case PingRequest(a) => Object(1, AddressTokens(a, rest))
    case PingResponse(a, p, t) => Object(3, AddressTokens(a, Cons(Bin(Cut(p)), Cons(Int(t), rest))))
    case LinkRequest(v, p) => Object(2, Cons(Int(v), SocketTokens(p, rest)))
    case LinkResponse(l, a, b) => Object(3, RefTokens(l, AddressTokens(a, AddressTokens(b, rest))))
    case SetoptRequest(p) => Object(1, PropertyTokens(p, rest))
    case GetoptRequest(o) => Object(1, Cons(Int(o), rest))
    case GetoptResponse(p) => Object(1, PropertyTokens(p, rest))
    case OpenRequest(s, t, n, polled, r, _) =>
      Object(5, RefTokens(s, Cons(Int(t), Cons(Str(Cut(n)), Cons(Bool(polled), Cons(Int(r), rest))))))
    case PollMessage(n, t) => Object(2, Cons(Int(n), Cons(Int(t), rest)))
    case DataMessage(n, a, b, d) =>
      Object(4, Cons(Int(n), AddressTokens(a, Cons(Bin(Cut(b)), Cons(Bin(Cut(d)), rest)))))
    case CloseResponse(t, r, s, e) => CloseTokens(t, r, s, e, rest)
  }

  function CloseTokens(timeOpen: int, received: int, sent: int, error: int, rest: Tokens): Tokens
  {
    Object(4, Cons(Int(timeOpen), Cons(Int(received), Cons(Int(sent), Cons(Int(error), rest)))))
  }

  function MessageTokens(m: Message, rest: Tokens): Tokens
  {
    Object(8, Cons(Int(VERSION), RefTokens(m.source, RefTokens(m.proxy, RefTokens(m.target,
      Cons(Int(m.error), Cons(Bool(m.isResponse), Cons(Int(m.kind), ContentTokens(m.content, rest)))))))))
  }

  /** What arrives: the maximum send size is not sent, and the parts drop what their encoders drop. */
  function SentContent(c: Content): Content
    requires c.LinkRequest? ==> |c.props.options| == SO_MAX
  {
    match c
    case PingRequest(a) => PingRequest(SentAddress(a))
    case PingResponse(a, p, t) => PingResponse(SentAddress(a), p, t)
    case LinkRequest(v, p) => LinkRequest(v, SentSocket(p))
    case LinkResponse(l, a, b) => LinkResponse(l, SentAddress(a), SentAddress(b))
    case SetoptRequest(p) => SetoptRequest(SentProperty(p))
    case GetoptResponse(p) => GetoptResponse(SentProperty(p))
    case OpenRequest(_, _, _, _, _, _) => c.(maxSend := 0)
    case DataMessage(n, a, b, d) => DataMessage(n, SentAddress(a), b, d)
    case _ => c
  }

  function SentMessage(m: Message): Message
    requires GoodMessage(m)
  {
    m.(content := SentContent(m.content))
  }

  // ---- Decoders --------------------------------------------------------------------------------

  function RefMember(index: nat, ts: Tokens): Read<Ref>
  {
    Member(index, ts, DecodeRef, NO_REF)
  }

  function PropertyMember(index: nat, ts: Tokens): Read<Property>
  {
    Member(index, ts, DecodeProperty, NO_PROPERTY)
  }

  function NoSocket(): SocketProperties
  {
    SocketProperties(0, 0, 0, 0, 0, Unspecified, Cleared())
  }

  function DecodePingRequest(index: nat, ts: Tokens): Read<Content>
  {
    var (a, i, r) :- AddressMember(index, ts);
    Got(PingRequest(a), i, r)
  }

  function DecodePingResponse(index: nat, ts: Tokens): Read<Content>
  {
    var (a, i, p) :- AddressMember(index, ts);
    var (physical, j, q) :- ReadBinFixed(i, p, 8);
    var (t, k, r) :- ReadUnsigned(j, q, DWORD);
    Got(PingResponse(a, physical, t), k, r)
  }

  function DecodeLinkRequest(index: nat, ts: Tokens): Read<Content>
  {
    var (v, i, q) :- ReadUnsigned(index, ts, BYTE);
    var (p, j, r) :- Member(i, q, DecodeSocket, NoSocket());
    Got(LinkRequest(v, p), j, r)
  }

  function DecodeLinkResponse(index: nat, ts: Tokens): Read<Content>
  {
    var (l, i, p) :- RefMember(index, ts);
    var (a, j, q) :- AddressMember(i, p);
    var (b, k, r) :- AddressMember(j, q);
    Got(LinkResponse(l, a, b), k, r)
  }

  function DecodeSetoptRequest(index: nat, ts: Tokens): Read<Content>
  {
    var (p, i, r) :- PropertyMember(index, ts);
    Got(SetoptRequest(p), i, r)
  }

  function DecodeGetoptRequest(index: nat, ts: Tokens): Read<Content>
  {
    var (o, i, r) :- ReadSigned32(index, ts);
    Got(GetoptRequest(o), i, r)
  }

  function DecodeGetoptResponse(index: nat, ts: Tokens): Read<Content>
  {
    var (p, i, r) :- PropertyMember(index, ts);
    Got(GetoptResponse(p), i, r)
  }

  function DecodeOpenRequest(index: nat, ts: Tokens): Read<Content>
  {
    var (s, i, n) :- RefMember(index, ts);
    var (t, j, o) :- ReadSigned32(i, n);
    var (connection, k, p) :- ReadString(j, o);
    var (polled, l, q) :- ReadBool(k, p);
    var (maxRecv, m, r) :- ReadUnsigned(l, q, DWORD);
    Got(OpenRequest(s, t, connection, polled, maxRecv, 0), m, r)
  }

  function DecodePollMessage(index: nat, ts: Tokens): Read<Content>
  {
    var (n, i, q) :- ReadUnsigned(index, ts, QWORD);
    var (t, j, r) :- ReadUnsigned(i, q, QWORD);
    Got(PollMessage(n, t), j, r)
  }

  function DecodeDataMessage(index: nat, ts: Tokens): Read<Content>
  {
    var (n, i, o) :- ReadUnsigned(index, ts, QWORD);
    var (a, j, p) :- AddressMember(i, o);
    var (b, k, q) :- ReadBin(j, p);
    var (d, l, r) :- ReadBin(k, q);
    Got(DataMessage(n, a, b, d), l, r)
  }

  function DecodeCloseResponse(index: nat, ts: Tokens): Read<Content>
  {
    var (t, i, o) :- ReadUnsigned(index, ts, QWORD);
    var (b, j, p) :- ReadUnsigned(i, o, QWORD);
    var (s, k, q) :- ReadUnsigned(j, p, QWORD);
    var (e, l, r) :- ReadSigned32(k, q);
    Got(CloseResponse(t, b, s, e), l, r)
  }

  function DecodeBody(isResponse: bool, kind: int, index: nat, ts: Tokens): Read<Content>
  {
    if kind == DATA then DecodeDataMessage(index, ts)
    else if kind == CLOSE then DecodeCloseResponse(index, ts)
    else if kind == PING then (if isResponse then DecodePingResponse(index, ts) else DecodePingRequest(index, ts))
    else if kind == POLL then DecodePollMessage(index, ts)
    else if kind == LINK then (if isResponse then DecodeLinkResponse(index, ts) else DecodeLinkRequest(index, ts))
    else if kind == OPEN then DecodeOpenRequest(index, ts)
    else if kind == SETOPT then DecodeSetoptRequest(index, ts)
    else if isResponse then DecodeGetoptResponse(index, ts) else DecodeGetoptRequest(index, ts)
  }

  predicate Empty(isResponse: bool, kind: int)
  {
    if isResponse then kind == POLL || kind == OPEN || kind == SETOPT else kind == CLOSE
  }

  /** Content must be null exactly where the type has none. */
  function DecodeContent(isResponse: bool, kind: int, index: nat, ts: Tokens): Read<Content>
  {
    if !Known(kind) then Bad(NotSupported) else
    var (n, i, q) :- ReadObject(index, ts);
    if Empty(isResponse, kind) != n.None? then Bad(InvalidFormat)
    else if n.None? then Got(NoContent, i, q)
    else
      var (c, _, r) :- DecodeBody(isResponse, kind, n.value, q);
      Got(c, i, r)
  }

  /** Reads a version number and, if it is compatible, the three references and what follows. */
  function Headed<T>(index: nat, ts: Tokens, decode: ((Ref, Ref, Ref), nat, Tokens) -> Read<T>): Read<T>
  {
    var (version, i, q) :- ReadUnsigned(index, ts, DWORD);
    if !Compatible(version) then Bad(InvalidFormat) else
    var (refs, j, r) :- DecodeRefs(i, q);
    decode(refs, j, r)
  }

  function DecodeMessage(index: nat, ts: Tokens): Read<Message>
  {
    Headed(index, ts, DecodeRest)
  }

  function DecodeRefs(index: nat, ts: Tokens): Read<(Ref, Ref, Ref)>
  {
    var (source, i, p) :- RefMember(index, ts);
    var (proxy, j, q) :- RefMember(i, p);
    var (target, k, r) :- RefMember(j, q);
    Got((source, proxy, target), k, r)
  }

  function DecodeRest(refs: (Ref, Ref, Ref), index: nat, ts: Tokens): Read<Message>
  {
    var (error, i, o) :- ReadSigned32(index, ts);
    var (isResponse, j, p) :- ReadBool(i, o);
    var (kind, k, q) :- ReadUnsigned(j, p, DWORD);
    var (content, l, r) :- DecodeContent(isResponse, kind, k, q);
    Got(Message(refs.0, refs.1, refs.2, error, isResponse, kind, content), l, r)
  }

  // ---- Round trip ------------------------------------------------------------------------------

  lemma LinkRequestRoundTrip(v: int, p: SocketProperties, rest: Tokens)
    requires Unsigned(v, BYTE) && GoodProperties(p)
    ensures DecodeLinkRequest(2, Cons(Int(v), SocketTokens(p, rest))) == Got(LinkRequest(v, SentSocket(p)), 0, rest)
  {
    SocketRoundTrip(p, rest);
    MemberOfObject(1, 7, SocketTokens(p, rest).tail.tail, DecodeSocket, NoSocket());
  }

  lemma LinkResponseRoundTrip(l: Ref, a: Address, b: Address, rest: Tokens)
    requires |l| == 16 && GoodAddress(a) && GoodAddress(b)
    ensures DecodeLinkResponse(3, RefTokens(l, AddressTokens(a, AddressTokens(b, rest)))) ==
            Got(LinkResponse(l, SentAddress(a), SentAddress(b)), 0, rest)
  {
    RefRoundTrip(l, 3, AddressTokens(a, AddressTokens(b, rest)));
    AddressRoundTrip(a, 2, AddressTokens(b, rest));
    AddressRoundTrip(b, 1, rest);
  }

  lemma PropertyContentRoundTrip(p: Property, rest: Tokens)
    requires GoodProperty(p)
    ensures DecodeSetoptRequest(1, PropertyTokens(p, rest)) == Got(SetoptRequest(SentProperty(p)), 0, rest)
    ensures DecodeGetoptResponse(1, PropertyTokens(p, rest)) == Got(GetoptResponse(SentProperty(p)), 0, rest)
  {
    PropertyRoundTrip(p, 1, rest);
  }

  lemma OpenRequestRoundTrip(c: Content, rest: Tokens)
    requires c.OpenRequest? && GoodContent(c)
    ensures DecodeOpenRequest(5, ContentTokens(c, rest).tail.tail) == Got(c.(maxSend := 0), 0, rest)
  {
    RefRoundTrip(c.stream, 5, Cons(Int(c.codec), Cons(Str(Cut(c.connection)), Cons(Bool(c.polled),
      Cons(Int(c.maxRecv), rest)))));
  }

  lemma AddressContentRoundTrip(c: Content, rest: Tokens)
    requires GoodContent(c) && (c.PingRequest? || c.PingResponse? || c.DataMessage?)
    ensures c.PingRequest? ==> DecodePingRequest(1, ContentTokens(c, rest).tail.tail) == Got(SentContent(c), 0, rest)
    ensures c.PingResponse? ==> DecodePingResponse(3, ContentTokens(c, rest).tail.tail) == Got(SentContent(c), 0, rest)
    ensures c.DataMessage? ==> DecodeDataMessage(4, ContentTokens(c, rest).tail.tail) == Got(SentContent(c), 0, rest)
  {
    match c
    case PingRequest(a) => AddressRoundTrip(a, 1, rest);
    case PingResponse(a, p, t) => AddressRoundTrip(a, 3, Cons(Bin(Cut(p)), Cons(Int(t), rest)));
    case DataMessage(_, a, b, d) => AddressRoundTrip(a, 3, Cons(Bin(Cut(b)), Cons(Bin(Cut(d)), rest)));
  }

  /** How many members the encoder of a content declares. */
  function Members(c: Content): nat
  {
    match c
    case NoContent => 0
    case PingRequest(_) => 1
    case PingResponse(_, _, _) => 3
    case LinkRequest(_, _) => 2
    case LinkResponse(_, _, _) => 3
    case SetoptRequest(_) => 1
    case GetoptRequest(_) => 1
    case GetoptResponse(_) => 1
    case OpenRequest(_, _, _, _, _, _) => 5
    case PollMessage(_, _) => 2
    case DataMessage(_, _, _, _) => 4
    case CloseResponse(_, _, _, _) => 4
  }

  lemma BodyRoundTrip(isResponse: bool, kind: int, c: Content, rest: Tokens)
    requires Known(kind) && Fits(isResponse, kind, c) && GoodContent(c) && !c.NoContent?
    ensures DecodeBody(isResponse, kind, Members(c), ContentTokens(c, rest).tail.tail) == Got(SentContent(c), 0, rest)
  {
    match c
    case PingRequest(_) => AddressContentRoundTrip(c, rest);
    case PingResponse(_, _, _) => AddressContentRoundTrip(c, rest);
    case DataMessage(_, _, _, _) => AddressContentRoundTrip(c, rest);
    case LinkRequest(v, p) => LinkRequestRoundTrip(v, p, rest);
    case LinkResponse(l, a, b) => LinkResponseRoundTrip(l, a, b, rest);
    case SetoptRequest(p) => PropertyContentRoundTrip(p, rest);
    case GetoptResponse(p) => PropertyContentRoundTrip(p, rest);
    case OpenRequest(_, _, _, _, _, _) => OpenRequestRoundTrip(c, rest);
    case _ =>
  }

  lemma ContentRoundTrip(isResponse: bool, kind: int, c: Content, index: nat, rest: Tokens)
    requires Known(kind) && Fits(isResponse, kind, c) && GoodContent(c) && index > 0
    ensures DecodeContent(isResponse, kind, index, ContentTokens(c, rest)) == Got(SentContent(c), index - 1, rest)
  {
    if !c.NoContent? {
      BodyRoundTrip(isResponse, kind, c, rest);
      var body := ContentTokens(c, rest).tail.tail;
      assert ContentTokens(c, rest) == Object(Members(c), body);
      WithBody(isResponse, kind, Members(c), body, SentContent(c), index, rest);
    }
  }

  lemma WithBody(isResponse: bool, kind: int, n: nat, body: Tokens, c: Content, index: nat, rest: Tokens)
    requires Known(kind) && !Empty(isResponse, kind) && DecodeBody(isResponse, kind, n, body) == Got(c, 0, rest)
    requires index > 0
    ensures DecodeContent(isResponse, kind, index, Object(n, body)) == Got(c, index - 1, rest)
  {
    assert ReadObject(index, Object(n, body)) == Got(Some(n), index - 1, body);
  }

  lemma RefsRoundTrip(a: Ref, b: Ref, c: Ref, index: nat, rest: Tokens)
    requires |a| == |b| == |c| == 16 && index >= 3
    ensures DecodeRefs(index, RefTokens(a, RefTokens(b, RefTokens(c, rest)))) == Got((a, b, c), index - 3, rest)
  {
    RefRoundTrip(a, index, RefTokens(b, RefTokens(c, rest)));
    RefRoundTrip(b, index - 1, RefTokens(c, rest));
    RefRoundTrip(c, index - 2, rest);
  }

  function RestTokens(m: Message, rest: Tokens): Tokens
  {
    Cons(Int(m.error), Cons(Bool(m.isResponse), Cons(Int(m.kind), ContentTokens(m.content, rest))))
  }

  lemma RestRoundTrip(m: Message, index: nat, rest: Tokens)
    requires GoodMessage(m) && index >= 4
    ensures DecodeRest((m.source, m.proxy, m.target), index, RestTokens(m, rest)) == Got(SentMessage(m), index - 4, rest)
  {
    ContentRoundTrip(m.isResponse, m.kind, m.content, index - 3, rest);
  }

  /** The members of a message of some version. */
  function BodyTokens(m: Message, version: int, rest: Tokens): Tokens
  {
    Cons(Int(version), RefTokens(m.source, RefTokens(m.proxy, RefTokens(m.target, RestTokens(m, rest)))))
  }

  lemma AfterVersion<T>(version: int, index: nat, ts: Tokens, decode: ((Ref, Ref, Ref), nat, Tokens) -> Read<T>)
    requires Unsigned(version, DWORD) && !Compatible(version) && index > 0
    ensures Headed(index, Cons(Int(version), ts), decode) == Bad(InvalidFormat)
  {
    assert ReadUnsigned(index, Cons(Int(version), ts), DWORD) == Got(version, index - 1, ts);
  }

  lemma AfterHead<T>(version: int, index: nat, a: Ref, b: Ref, c: Ref, ts: Tokens,
      decode: ((Ref, Ref, Ref), nat, Tokens) -> Read<T>, r: Read<T>)
    requires Unsigned(version, DWORD) && Compatible(version) && |a| == |b| == |c| == 16 && index >= 4
    requires decode((a, b, c), index - 4, ts) == r
    ensures Headed(index, Cons(Int(version), RefTokens(a, RefTokens(b, RefTokens(c, ts)))), decode) == r
  {
    var members := RefTokens(a, RefTokens(b, RefTokens(c, ts)));
    assert ReadUnsigned(index, Cons(Int(version), members), DWORD) == Got(version, index - 1, members);
    RefsRoundTrip(a, b, c, index - 1, ts);
  }

  lemma BodyRefused(m: Message, version: int, index: nat, rest: Tokens)
    requires Unsigned(version, DWORD) && !Compatible(version) && index > 0
    ensures DecodeMessage(index, BodyTokens(m, version, rest)) == Bad(InvalidFormat)
  {
    AfterVersion(version, index, BodyTokens(m, version, rest).tail, DecodeRest);
  }

  lemma BodyReads(m: Message, version: int, index: nat, ts: Tokens, r: Read<Message>)
    requires |m.source| == |m.proxy| == |m.target| == 16 && index >= 4
    requires Unsigned(version, DWORD) && Compatible(version)
    requires DecodeRest((m.source, m.proxy, m.target), index - 4, ts) == r
    ensures DecodeMessage(index, Cons(Int(version), RefTokens(m.source, RefTokens(m.proxy, RefTokens(m.target, ts))))) == r
  {
    AfterHead(version, index, m.source, m.proxy, m.target, ts, DecodeRest, r);
  }

  lemma BodyArrives(m: Message, version: int, index: nat, rest: Tokens)
    requires GoodMessage(m) && Unsigned(version, DWORD) && Compatible(version) && index >= 8
    ensures DecodeMessage(index, BodyTokens(m, version, rest)) == Got(SentMessage(m), index - 8, rest)
  {
    RestRoundTrip(m, index - 4, rest);
    BodyReads(m, version, index, RestTokens(m, rest), Got(SentMessage(m), index - 8, rest));
  }

  /** Every well-formed message of any type, request or response, is decoded from its tokens, whatever
      follows them, up to what the encoder leaves out; and exactly its tokens are consumed. */
  lemma MessageRoundTrip(m: Message, rest: Tokens, index: nat, unset: Message)
    requires GoodMessage(m) && index > 0
    ensures Member(index, MessageTokens(m, rest), DecodeMessage, unset) == Got(SentMessage(m), index - 1, rest)
  {
    BodyArrives(m, VERSION, 8, rest);
    MemberOfObject(index, 8, BodyTokens(m, VERSION, rest), DecodeMessage, unset);
  }

  // ---- Messages of other versions --------------------------------------------------------------

  /** A message of some version whose object has more members at its end. */
  function ExtendedTokens(m: Message, version: int, extra: seq<Token>, rest: Tokens): Tokens
  {
    Object(8 + |extra|, BodyTokens(m, version, Followed(extra, rest)))
  }

  /** A message of another version arrives exactly when the upper half of the version number is the same.
      Members it has beyond those known are not skipped. They are what is left of the counter when the type
      ends, where a debug build stops, and left in the stream, where the next object member is then read from
      the first of them. */
  lemma OtherVersionArrives(m: Message, version: int, extra: seq<Token>, rest: Tokens, index: nat, unset: Message)
    requires GoodMessage(m) && Unsigned(version, DWORD) && index > 0
    ensures Member(index, ExtendedTokens(m, version, extra, rest), DecodeMessage, unset) ==
      if 0x0002_0000 <= version <= 0x0002_FFFF then Got(SentMessage(m), index - 1, Followed(extra, rest))
      else Bad(InvalidFormat)
    ensures 0x0002_0000 <= version <= 0x0002_FFFF ==>
      DecodeMessage(8 + |extra|, BodyTokens(m, version, Followed(extra, rest))).Got?
      && DecodeMessage(8 + |extra|, BodyTokens(m, version, Followed(extra, rest))).index == |extra|
    ensures extra != [] && !extra[0].Nil? && !extra[0].Arr? ==>
      Member(index, Followed(extra, rest), DecodeMessage, unset) == Bad(InvalidFormat)
  {
    var n, more := 8 + |extra|, Followed(extra, rest);
    SameMajorMinor(version);
    if Compatible(version) {
      BodyArrives(m, version, n, more);
      MemberOfObject(index, n, BodyTokens(m, version, more), DecodeMessage, unset);
    } else {
      BodyRefused(m, version, n, more);
      MemberFails(index, n, BodyTokens(m, version, more), DecodeMessage, unset);
    }
  }

  lemma SameMajorMinor(version: int)
    ensures Compatible(version) <==> 0x0002_0000 <= version <= 0x0002_FFFF
  {
  }

  /** A reference with one more member. */
  function WiderRef(r: Ref, x: Token, rest: Tokens): Tokens
  {
    Object(2, Cons(Bin(Cut(r)), Cons(x, rest)))
  }

  datatype Party = Sender | Relay | Receiver

  /** The references of a message, one of them with one more member. */
  function WiderRefs(m: Message, party: Party, x: Token, rest: Tokens): Tokens
  {
    match party
    case Sender => WiderRef(m.source, x, RefTokens(m.proxy, RefTokens(m.target, rest)))
    case Relay => RefTokens(m.source, WiderRef(m.proxy, x, RefTokens(m.target, rest)))
    case Receiver => RefTokens(m.source, RefTokens(m.proxy, WiderRef(m.target, x, rest)))
  }

  /** What goes wrong: the member is taken for the next reference, or for the error code. */
  function Misread(party: Party, x: Token): Error
  {
    if party.Receiver? then (if x.Int? && Signed64(x.v) && !Signed32(x.v) then InvalidFormat else Arg)
    else if x.Nil? || (x.Arr? && x.n > 0) then Arg
    else InvalidFormat
  }

  /** A member too many inside a reference makes the message undecodable: what follows is read from the wrong
      place. The reference itself ends with one member unread, where a debug build stops. */
  lemma ExtraMemberInsideRefused(m: Message, party: Party, x: Token, rest: Tokens, index: nat, unset: Message)
    requires GoodMessage(m) && index > 0
    ensures Member(index, Object(8, Cons(Int(VERSION), WiderRefs(m, party, x, RestTokens(m, rest)))), DecodeMessage, unset)
            == Bad(Misread(party, x))
    ensures forall r: Ref, ts {:trigger WiderRef(r, x, ts)} :: |r| == 16 ==>
      DecodeRef(2, WiderRef(r, x, ts).tail.tail) == Got(r, 1, Cons(x, ts))
  {
    var ts := WiderRefs(m, party, x, RestTokens(m, rest));
    MisreadHead(m, party, x, rest);
    MemberFails(index, 8, Cons(Int(VERSION), ts), DecodeMessage, unset);
  }

  lemma WiderRefRead(r: Ref, x: Token, index: nat, rest: Tokens)
    requires |r| == 16 && index > 0
    ensures RefMember(index, WiderRef(r, x, rest)) == Got(r, index - 1, Cons(x, rest))
  {
    MemberOfObject(index, 2, Cons(Bin(Cut(r)), Cons(x, rest)), DecodeRef, NO_REF);
  }

  /** The extra member read as a reference. */
  lemma ReadPast(r: Ref, x: Token, index: nat, rest: Tokens)
    requires index > 0
    ensures var next := RefMember(index, Cons(x, RefTokens(r, rest)));
      if x.Nil? then next == Got(NO_REF, index - 1, RefTokens(r, rest)) else next == Bad(Misread(Sender, x))
  {
  }

  lemma HeadFails<T>(ts: Tokens, decode: ((Ref, Ref, Ref), nat, Tokens) -> Read<T>, error: Error)
    requires DecodeRefs(7, ts) == Bad(error)
    ensures Headed(8, Cons(Int(VERSION), ts), decode) == Bad(error)
  {
    assert ReadUnsigned(8, Cons(Int(VERSION), ts), DWORD) == Got(VERSION, 7, ts);
  }

  lemma RestFails<T>(ts: Tokens, refs: (Ref, Ref, Ref), i: nat, rest: Tokens,
      decode: ((Ref, Ref, Ref), nat, Tokens) -> Read<T>, error: Error)
    requires DecodeRefs(7, ts) == Got(refs, i, rest) && decode(refs, i, rest) == Bad(error)
    ensures Headed(8, Cons(Int(VERSION), ts), decode) == Bad(error)
  {
    assert ReadUnsigned(8, Cons(Int(VERSION), ts), DWORD) == Got(VERSION, 7, ts);
  }

  lemma MisreadHead(m: Message, party: Party, x: Token, rest: Tokens)
    requires GoodMessage(m)
    ensures DecodeMessage(8, Cons(Int(VERSION), WiderRefs(m, party, x, RestTokens(m, rest)))) == Bad(Misread(party, x))
  {
    var more := RestTokens(m, rest);
    var ts := WiderRefs(m, party, x, more);
    match party
    case Sender => MisreadSource(m, x, more);
    case Relay => MisreadProxy(m, x, more);
    case Receiver => MisreadTarget(m, x, rest);
  }

  lemma MisreadSource(m: Message, x: Token, more: Tokens)
    requires |m.source| == 16 && |m.proxy| == 16
    ensures Headed(8, Cons(Int(VERSION), WiderRefs(m, Sender, x, more)), DecodeRest) == Bad(Misread(Sender, x))
  {
    var ts, after := WiderRefs(m, Sender, x, more), RefTokens(m.target, more);
    WiderRefRead(m.source, x, 7, RefTokens(m.proxy, after));
    ReadPast(m.proxy, x, 6, after);
    if x.Nil? {
      RefRoundTrip(m.proxy, 5, after);
      assert DecodeRefs(7, ts) == Got((m.source, NO_REF, m.proxy), 4, after);
      RestFails(ts, (m.source, NO_REF, m.proxy), 4, after, DecodeRest, Arg);
    } else {
      HeadFails(ts, DecodeRest, Misread(Sender, x));
    }
  }

  lemma MisreadProxy(m: Message, x: Token, more: Tokens)
    requires |m.source| == 16 && |m.proxy| == 16
    ensures Headed(8, Cons(Int(VERSION), WiderRefs(m, Relay, x, more)), DecodeRest) == Bad(Misread(Relay, x))
  {
    var ts, after := WiderRefs(m, Relay, x, more), RefTokens(m.target, more);
    RefRoundTrip(m.source, 7, WiderRef(m.proxy, x, after));
    WiderRefRead(m.proxy, x, 6, after);
    ReadPast(m.target, x, 5, more);
    if x.Nil? {
      assert DecodeRefs(7, ts) == Got((m.source, m.proxy, NO_REF), 4, after);
      RestFails(ts, (m.source, m.proxy, NO_REF), 4, after, DecodeRest, Arg);
    } else {
      HeadFails(ts, DecodeRest, Misread(Relay, x));
    }
  }

  lemma MisreadTarget(m: Message, x: Token, rest: Tokens)
    requires |m.source| == 16 && |m.proxy| == 16 && |m.target| == 16
    ensures Headed(8, Cons(Int(VERSION), WiderRefs(m, Receiver, x, RestTokens(m, rest))), DecodeRest) == Bad(Misread(Receiver, x))
  {
    var more := RestTokens(m, rest);
    var ts := WiderRefs(m, Receiver, x, more);
    RefRoundTrip(m.source, 7, RefTokens(m.proxy, WiderRef(m.target, x, more)));
    RefRoundTrip(m.proxy, 6, WiderRef(m.target, x, more));
    WiderRefRead(m.target, x, 5, more);
    assert DecodeRefs(7, ts) == Got((m.source, m.proxy, m.target), 4, Cons(x, more));
    RestFails(ts, (m.source, m.proxy, m.target), 4, Cons(x, more), DecodeRest, Misread(Receiver, x));
  }
}
