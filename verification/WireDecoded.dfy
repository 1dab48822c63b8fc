/** What the decoders accept: for every token stream, malformed ones included, what a decoded message is. */
module WireDecoded {
  import opened Prelude
  import opened WireTokens
  import opened WireTypes
  import opened WireOptions
  import opened WireMessages

  lemma DecodedAddress(index: nat, ts: Tokens)
    ensures var r := AddressMember(index, ts); r.Got? ==> GoodAddress(r.value) && SentAddress(r.value) == r.value
  {
  }

  lemma DecodedAddrInfo(index: nat, ts: Tokens)
    ensures var r := DecodeAddrInfo(index, ts); r.Got? ==> GoodAddrInfo(r.value) && SentAddrInfo(r.value) == r.value
  {
    DecodedAddress(index, ts);
  }

  lemma DecodedInterface(index: nat, ts: Tokens)
    ensures var r := DecodeInterface(index, ts); r.Got? ==> GoodInterface(r.value) && SentInterface(r.value) == r.value
  {
    var r := DecodeInterface(index, ts);
    if r.Got? {
      DecodedAddress(index, ts);
      var a := AddressMember(index, ts);
      var p := ReadUnsigned(a.index, a.rest, BYTE);
      var f := ReadUnsigned(p.index, p.rest, BYTE);
      var n := ReadStringFixed(f.index, f.rest, NAME_SIZE);
      var k := ReadSigned32(n.index, n.rest);
      DecodedAddress(k.index, k.rest);
    }
  }

  lemma DecodedValue(kind: int, index: nat, ts: Tokens)
    ensures var r := DecodeValue(kind, index, ts);
      r.Got? ==>
        && GoodValue(r.value) && Matched(Property(kind, r.value)) && SentProperty(Property(kind, r.value)).value == r.value
        && Supported(kind)
  {
    if kind == ADDR_INFO { DecodedAddrInfo(index, ts); }
    if kind == IFADDR_INFO { DecodedInterface(index, ts); }
  }

  lemma DecodedProperty(index: nat, ts: Tokens)
    ensures var r := DecodeProperty(index, ts); r.Got? ==> GoodProperty(r.value) && SentProperty(r.value) == r.value
  {
    var r := DecodeProperty(index, ts);
    if r.Got? && (IsGroup(r.value.kind) || r.value.kind >= FILE_INFO) {
      var k := ReadSigned32(index, ts);
      var o := ReadObject(k.index, k.rest);
      DecodedValue(r.value.kind, o.value.value, o.rest);
    }
  }

  /** Each slot is clear or holds a sound option of its own number. */
  predicate Settled(t: Table)
  {
    && |t| == SO_MAX
    && forall i :: 0 <= i < |t| ==>
         t[i] == NO_PROPERTY || (t[i].kind == i && IsOption(i) && GoodProperty(t[i]) && SentProperty(t[i]) == t[i])
  }

  lemma {:induction false} DecodedOptions(index: nat, size: nat, ts: Tokens, t: Table)
    requires Settled(t)
    ensures var r := DecodeOptions(index, size, ts, t); r.Got? ==> Settled(r.value)
    decreases size
  {
    if size > 0 {
      var item := DecodeItem(index, ts);
      if item.Got? {
        DecodedItem(index, ts);
        SettledStore(t, item.value);
        DecodedOptions(item.index, size - 1, item.rest, Store(t, item.value));
      }
    }
  }

  lemma DecodedItem(index: nat, ts: Tokens)
    ensures var r := DecodeItem(index, ts); r.Got? ==> GoodProperty(r.value) && SentProperty(r.value) == r.value
  {
    var o := ReadObject(index, ts);
    if o.Got? { DecodedProperty(if o.value.None? then 0 else o.value.value, o.rest); }
  }

  lemma SettledStore(t: Table, p: Property)
    requires Settled(t) && GoodProperty(p) && SentProperty(p) == p
    ensures Settled(Store(t, p))
  {
  }

  lemma SettledTable(t: Table)
    requires Settled(t)
    ensures GoodTable(t) && Stored(t, 0, Cleared()) == t
  {
    assert InPlace(t);
    TableIsRebuilt(t);
    assert SentTable(t) == t;
  }

  lemma DecodedAddressAndOptions(index: nat, ts: Tokens)
    ensures var r := DecodeAddressAndOptions(index, ts);
      r.Got? ==> GoodAddress(r.value.0) && SentAddress(r.value.0) == r.value.0 && Settled(r.value.1)
  {
    var r := DecodeAddressAndOptions(index, ts);
    if r.Got? {
      DecodedAddress(index, ts);
      var a := AddressMember(index, ts);
      var n := ReadArray(a.index, a.rest);
      DecodedOptions(n.value, n.value, n.rest, Cleared());
    }
  }

  lemma DecodedSocket(index: nat, ts: Tokens)
    ensures var r := DecodeSocket(index, ts); r.Got? ==> GoodProperties(r.value) && SentSocket(r.value) == r.value
  {
    var r := DecodeSocket(index, ts);
    if r.Got? {
      var f := ReadSigned32(index, ts);
      var s := ReadSigned32(f.index, f.rest);
      var p := ReadSigned32(s.index, s.rest);
      var g := ReadUnsigned(p.index, p.rest, DWORD);
      var t := ReadUnsigned(g.index, g.rest, QWORD);
      DecodedAddressAndOptions(t.index, t.rest);
      SettledTable(r.value.options);
    }
  }

  lemma DecodedSocketMember(index: nat, ts: Tokens)
    ensures var r := Member(index, ts, DecodeSocket, NoSocket());
      r.Got? ==> GoodProperties(r.value) && SentSocket(r.value) == r.value
  {
    var o := ReadObject(index, ts);
    if o.Got? && o.value.Some? { DecodedSocket(o.value.value, o.rest); }
    SettledTable(Cleared());
  }

  /** An option request or response whose property was null; its type stays 0, which cannot be encoded. */
  predicate Unset(c: Content)
  {
    (c.SetoptRequest? || c.GetoptResponse?) && c.so == NO_PROPERTY
  }

  predicate Stable(c: Content)
  {
    GoodContent(c) && SentContent(c) == c
  }

  lemma DecodedPropertyContent(index: nat, ts: Tokens)
    ensures var r := DecodeSetoptRequest(index, ts); r.Got? ==> (if Unset(r.value) then !GoodContent(r.value) else Stable(r.value))
    ensures var r := DecodeGetoptResponse(index, ts); r.Got? ==> (if Unset(r.value) then !GoodContent(r.value) else Stable(r.value))
  {
    var o := ReadObject(index, ts);
    if o.Got? && o.value.Some? { DecodedProperty(o.value.value, o.rest); }
  }

  lemma DecodedLinkRequest(index: nat, ts: Tokens)
    ensures var r := DecodeLinkRequest(index, ts); r.Got? ==> Stable(r.value)
  {
    var v := ReadUnsigned(index, ts, BYTE);
    if v.Got? { DecodedSocketMember(v.index, v.rest); }
  }

  lemma DecodedLinkResponse(index: nat, ts: Tokens)
    ensures var r := DecodeLinkResponse(index, ts); r.Got? ==> Stable(r.value)
  {
    var l := RefMember(index, ts);
    if l.Got? {
      DecodedAddress(l.index, l.rest);
      var a := AddressMember(l.index, l.rest);
      if a.Got? { DecodedAddress(a.index, a.rest); }
    }
  }

  lemma DecodedWithAddress(index: nat, ts: Tokens)
    ensures var r := DecodePingRequest(index, ts); r.Got? ==> Stable(r.value)
    ensures var r := DecodePingResponse(index, ts); r.Got? ==> Stable(r.value)
    ensures var r := DecodeDataMessage(index, ts); r.Got? ==> Stable(r.value)
  {
    DecodedAddress(index, ts);
    var n := ReadUnsigned(index, ts, QWORD);
    if n.Got? { DecodedAddress(n.index, n.rest); }
  }

  lemma DecodedBody(isResponse: bool, kind: int, index: nat, ts: Tokens)
    requires Known(kind) && !Empty(isResponse, kind)
    ensures var r := DecodeBody(isResponse, kind, index, ts);
      r.Got? ==> Fits(isResponse, kind, r.value) && (if Unset(r.value) then !GoodContent(r.value) else Stable(r.value))
  {
    if kind == LINK { DecodedLinkRequest(index, ts); DecodedLinkResponse(index, ts); }
    else if kind == DATA || kind == PING { DecodedWithAddress(index, ts); }
    else if kind == SETOPT || (kind == GETOPT && isResponse) { DecodedPropertyContent(index, ts); }
  }

  lemma DecodedContent(isResponse: bool, kind: int, index: nat, ts: Tokens)
    ensures var r := DecodeContent(isResponse, kind, index, ts);
      r.Got? ==>
        && Known(kind) && Fits(isResponse, kind, r.value)
        && (if Unset(r.value) then !GoodContent(r.value) else Stable(r.value))
  {
    var o := ReadObject(index, ts);
    if Known(kind) && !Empty(isResponse, kind) && o.Got? && o.value.Some? {
      DecodedBody(isResponse, kind, o.value.value, o.rest);
    }
  }

  lemma DecodedRest(refs: (Ref, Ref, Ref), index: nat, ts: Tokens)
    requires |refs.0| == |refs.1| == |refs.2| == 16
    ensures var r := DecodeRest(refs, index, ts);
      r.Got? ==> (if Unset(r.value.content) then !GoodMessage(r.value) else GoodMessage(r.value) && SentMessage(r.value) == r.value)
  {
    var e := ReadSigned32(index, ts);
    if e.Got? {
      var b := ReadBool(e.index, e.rest);
      if b.Got? {
        var k := ReadUnsigned(b.index, b.rest, DWORD);
        if k.Got? { DecodedContent(b.value, k.value, k.index, k.rest); }
      }
    }
  }

  lemma DecodedRefs(index: nat, ts: Tokens)
    ensures var r := DecodeRefs(index, ts); r.Got? ==> |r.value.0| == |r.value.1| == |r.value.2| == 16
  {
  }

  /** From whatever tokens, a decoded message is well formed, and sending it on delivers the very same
      message, unless it is an option message whose property was null. */
  lemma DecodedMessagesAreSound(index: nat, ts: Tokens, rest: Tokens, unset: Message)
    requires DecodeMessage(index, ts).Got?
    ensures var m := DecodeMessage(index, ts).value;
      && (GoodMessage(m) <==> !Unset(m.content))
      && (GoodMessage(m) ==> Member(1, MessageTokens(m, rest), DecodeMessage, unset) == Got(m, 0, rest))
  {
    var m := DecodeMessage(index, ts).value;
    var v := ReadUnsigned(index, ts, DWORD);
    DecodedRefs(v.index, v.rest);
    var refs := DecodeRefs(v.index, v.rest);
    DecodedRest(refs.value, refs.index, refs.rest);
    if GoodMessage(m) { MessageRoundTrip(m, rest, 1, unset); }
  }

  /** An option message whose property is null: a request to set one, or the answer to a request for one. */
  function NullOption(a: Ref, b: Ref, c: Ref, error: int, isResponse: bool): Message
  {
    if isResponse then Message(a, b, c, error, true, GETOPT, GetoptResponse(NO_PROPERTY))
    else Message(a, b, c, error, false, SETOPT, SetoptRequest(NO_PROPERTY))
  }

  function NullOptionTokens(m: Message, rest: Tokens): Tokens
  {
    Cons(Int(m.error), Cons(Bool(m.isResponse), Cons(Int(m.kind), Object(1, Cons(Nil, rest)))))
  }

  function NullBody(a: Ref, b: Ref, c: Ref, m: Message, rest: Tokens): Tokens
  {
    Cons(Int(VERSION), RefTokens(a, RefTokens(b, RefTokens(c, NullOptionTokens(m, rest)))))
  }

  /** Such messages do arrive, between any parties and with any error code. */
  lemma NullPropertyArrives(a: Ref, b: Ref, c: Ref, error: int, isResponse: bool, rest: Tokens, index: nat, unset: Message)
    requires |a| == |b| == |c| == 16 && Signed32(error) && index > 0
    ensures var m := NullOption(a, b, c, error, isResponse);
      && Member(index, Object(8, NullBody(a, b, c, m, rest)), DecodeMessage, unset) == Got(m, index - 1, rest)
      && Unset(m.content) && !GoodMessage(m)
  {
    var m := NullOption(a, b, c, error, isResponse);
    NullBodyDecodes(a, b, c, m, rest);
    MemberOfObject(index, 8, NullBody(a, b, c, m, rest), DecodeMessage, unset);
  }

  lemma NullBodyDecodes(a: Ref, b: Ref, c: Ref, m: Message, rest: Tokens)
    requires |a| == |b| == |c| == 16 && Signed32(m.error) && m == NullOption(a, b, c, m.error, m.isResponse)
    ensures DecodeMessage(8, NullBody(a, b, c, m, rest)) == Got(m, 0, rest)
  {
    NullRest((a, b, c), m, rest);
    AfterHead(VERSION, 8, a, b, c, NullOptionTokens(m, rest), DecodeRest, Got(m, 0, rest));
  }

  lemma NullRest(refs: (Ref, Ref, Ref), m: Message, rest: Tokens)
    requires m == NullOption(refs.0, refs.1, refs.2, m.error, m.isResponse) && Signed32(m.error)
    ensures DecodeRest(refs, 4, NullOptionTokens(m, rest)) == Got(m, 0, rest)
  {
    WithBody(m.isResponse, m.kind, 1, Cons(Nil, rest), m.content, 1, rest);
  }
}
