/** The browse protocol's request and response, the latter with an unbounded array of properties. */
module WireBrowse {
  import opened Prelude
  import opened WireTokens
  import opened WireTypes
  import opened WireOptions
  import opened WireMessages

  const BROWSE_VERSION: int := 1

  datatype BrowseRequest = BrowseRequest(handle: Ref, version: int, kind: int, flags: int, item: Address)

  datatype BrowseResponse = BrowseResponse(handle: Ref, flags: int, error: int, item: Address, props: seq<Property>)

  predicate GoodRequest(b: BrowseRequest)
  {
    |b.handle| == 16 && 0 <= b.version <= BROWSE_VERSION && Signed32(b.kind) && Unsigned(b.flags, DWORD)
    && GoodAddress(b.item)
  }

  predicate GoodResponse(b: BrowseResponse)
  {
    |b.handle| == 16 && Unsigned(b.flags, DWORD) && Signed32(b.error) && GoodAddress(b.item)
    && |b.props| < DWORD && forall i :: 0 <= i < |b.props| ==> GoodProperty(b.props[i])
  }

  function RequestTokens(b: BrowseRequest, rest: Tokens): Tokens
  {
    Object(5, RefTokens(b.handle, Cons(Int(b.version), Cons(Int(b.kind), Cons(Int(b.flags), AddressTokens(b.item, rest))))))
  }

  function PropsTokens(ps: seq<Property>, rest: Tokens): Tokens
  {
    if ps == [] then rest else PropertyTokens(ps[0], PropsTokens(ps[1..], rest))
  }

  function ItemTokens(b: BrowseResponse, rest: Tokens): Tokens
  {
    AddressTokens(b.item, Cons(Arr(Cut32(|b.props|)), PropsTokens(b.props, rest)))
  }

  function ResponseTokens(b: BrowseResponse, rest: Tokens): Tokens
  {
    Object(5, RefTokens(b.handle, Cons(Int(b.flags), Cons(Int(b.error), ItemTokens(b, rest)))))
  }

  function DecodeRequest(index: nat, ts: Tokens): Read<BrowseRequest>
  {
    var (handle, i, n) :- RefMember(index, ts);
    var (version, j, o) :- ReadUnsigned(i, n, BYTE);
    var (kind, k, p) :- ReadSigned32(j, o);
    var (flags, l, q) :- ReadUnsigned(k, p, DWORD);
    var (item, m, r) :- AddressMember(l, q);
    Got(BrowseRequest(handle, version, kind, flags, item), m, r)
  }

  function DecodeProps(index: nat, size: nat, ts: Tokens): Read<seq<Property>>
    decreases size
  {
    if size == 0 then Got([], index, ts) else
    var (p, i, q) :- DecodeItem(index, ts);
    var (ps, j, r) :- DecodeProps(i, size - 1, q);
    Got([p] + ps, j, r)
  }

  /** The loop over the array of properties. */
  method ReadProps(size: nat, ts: Tokens) returns (r: Read<seq<Property>>)
    ensures r == DecodeProps(size, size, ts)
  {
    var props, index, rest := [], size, ts;
    var i := 0;
    BehindNothing(DecodeProps(size, size, ts));
    while i < size
      invariant i <= size
      invariant DecodeProps(size, size, ts) == Behind(props, DecodeProps(index, size - i, rest))
    {
      var item := DecodeItem(index, rest);
      if item.Bad? {
        return Bad(item.error);
      }
      ghost var more := DecodeProps(item.index, size - i - 1, item.rest);
      if more.Got? { Assoc(props, [item.value], more.value); }
      props := props + [item.value];
      index, rest, i := item.index, item.rest, i + 1;
    }
    assert props + [] == props;
    r := Got(props, index, rest);
  }

  function Behind(ps: seq<Property>, r: Read<seq<Property>>): Read<seq<Property>>
  {
    if r.Bad? then r else Got(ps + r.value, r.index, r.rest)
  }

  lemma BehindNothing(r: Read<seq<Property>>)
    ensures Behind([], r) == r
  {
    if r.Got? { assert [] + r.value == r.value; }
  }

  function DecodeItemAndProps(index: nat, ts: Tokens): Read<(Address, seq<Property>)>
  {
    var (item, i, p) :- AddressMember(index, ts);
    var (size, j, q) :- ReadArray(i, p);
    var (props, _, r) :- DecodeProps(size, size, q);
    Got((item, props), j, r)
  }

  function DecodeResponse(index: nat, ts: Tokens): Read<BrowseResponse>
  {
    var (handle, i, o) :- RefMember(index, ts);
    var (flags, j, p) :- ReadUnsigned(i, o, DWORD);
    var (error, k, q) :- ReadSigned32(j, p);
    var (more, l, r) :- DecodeItemAndProps(k, q);
    Got(BrowseResponse(handle, flags, error, more.0, more.1), l, r)
  }

  // ---- Round trip ------------------------------------------------------------------------------

  function SentProps(ps: seq<Property>): (r: seq<Property>)
    ensures |r| == |ps| && forall i :: 0 <= i < |ps| ==> r[i] == SentProperty(ps[i])
  {
    if ps == [] then [] else [SentProperty(ps[0])] + SentProps(ps[1..])
  }

  predicate PropsArrive(ps: seq<Property>, rest: Tokens)
  {
    DecodeProps(|ps|, |ps|, PropsTokens(ps, rest)) == Got(SentProps(ps), 0, rest)
  }

  lemma {:induction false} PropsRoundTrip(ps: seq<Property>, rest: Tokens)
    requires forall i :: 0 <= i < |ps| ==> GoodProperty(ps[i])
    ensures PropsArrive(ps, rest)
    decreases |ps|
  {
    if ps != [] {
      PropsRoundTrip(ps[1..], rest);
      FirstPropArrives(ps, rest);
    }
  }

  lemma FirstPropArrives(ps: seq<Property>, rest: Tokens)
    requires ps != [] && GoodProperty(ps[0]) && PropsArrive(ps[1..], rest)
    ensures PropsArrive(ps, rest)
  {
    ItemRoundTrip(ps[0], |ps|, PropsTokens(ps[1..], rest));
    OneProp(|ps|, PropsTokens(ps, rest), SentProperty(ps[0]), PropsTokens(ps[1..], rest), SentProps(ps[1..]), rest);
  }

  lemma OneProp(n: nat, ts: Tokens, p: Property, tail: Tokens, ps: seq<Property>, rest: Tokens)
    requires n > 0 && DecodeItem(n, ts) == Got(p, n - 1, tail) && DecodeProps(n - 1, n - 1, tail) == Got(ps, 0, rest)
    ensures DecodeProps(n, n, ts) == Got([p] + ps, 0, rest)
  {
  }

  lemma ItemAndPropsRoundTrip(b: BrowseResponse, rest: Tokens)
    requires GoodResponse(b)
    ensures DecodeItemAndProps(2, ItemTokens(b, rest)) == Got((SentAddress(b.item), SentProps(b.props)), 0, rest)
  {
    var n, tail := |b.props|, PropsTokens(b.props, rest);
    PropsRoundTrip(b.props, rest);
    AddressRoundTrip(b.item, 2, Cons(Arr(Cut32(n)), tail));
    ItemThenProps(ItemTokens(b, rest), SentAddress(b.item), n, tail, SentProps(b.props), rest);
  }

  lemma ItemThenProps(ts: Tokens, a: Address, n: nat, tail: Tokens, ps: seq<Property>, rest: Tokens)
    requires AddressMember(2, ts) == Got(a, 1, Cons(Arr(n), tail))
    requires DecodeProps(n, n, tail) == Got(ps, 0, rest)
    ensures DecodeItemAndProps(2, ts) == Got((a, ps), 0, rest)
  {
    assert ReadArray(1, Cons(Arr(n), tail)) == Got(n, 0, tail);
  }

  /** Browse responses with any number of properties survive the wire. */
  lemma ResponseRoundTrip(b: BrowseResponse, rest: Tokens)
    requires GoodResponse(b)
    ensures DecodeResponse(5, ResponseTokens(b, rest).tail.tail) ==
            Got(b.(item := SentAddress(b.item), props := SentProps(b.props)), 0, rest)
  {
    ItemAndPropsRoundTrip(b, rest);
    RefRoundTrip(b.handle, 5, Cons(Int(b.flags), Cons(Int(b.error), ItemTokens(b, rest))));
  }

  lemma RequestRoundTrip(b: BrowseRequest, rest: Tokens)
    requires GoodRequest(b)
    ensures DecodeRequest(5, RequestTokens(b, rest).tail.tail) == Got(b.(item := SentAddress(b.item)), 0, rest)
  {
    var tail := AddressTokens(b.item, rest);
    RefRoundTrip(b.handle, 5, Cons(Int(b.version), Cons(Int(b.kind), Cons(Int(b.flags), tail))));
    AddressRoundTrip(b.item, 1, rest);
  }

  /** The decoder does not check the version, so it accepts requests that the encoder refuses: exactly those
      with a version above the current one. */
  lemma DecodedRequestsCanBeNewer(b: BrowseRequest, rest: Tokens)
    requires GoodRequest(b.(version := 0)) && Unsigned(b.version, BYTE)
    ensures DecodeRequest(5, RequestTokens(b, rest).tail.tail) == Got(b.(item := SentAddress(b.item)), 0, rest)
    ensures GoodRequest(b) <==> b.version <= BROWSE_VERSION
  {
    var tail := AddressTokens(b.item, rest);
    RefRoundTrip(b.handle, 5, Cons(Int(b.version), Cons(Int(b.kind), Cons(Int(b.flags), tail))));
    AddressRoundTrip(b.item, 1, rest);
  }
}
