/** Socket properties: the option table, indexed by option type, is sent as a dense array of its used slots. */
module WireOptions {
  import opened Prelude
  import opened WireTokens
  import opened WireTypes

  type Table = seq<Property>

  datatype SocketProperties = SocketProperties(
    family: int, sockType: int, protocol: int, flags: int, timeout: int, address: Address, options: Table)

  predicate GoodTable(os: Table)
  {
    |os| == SO_MAX && forall i :: 0 <= i < |os| && IsOption(os[i].kind) ==> GoodProperty(os[i])
  }

  predicate GoodProperties(p: SocketProperties)
  {
    Signed32(p.family) && Signed32(p.sockType) && Signed32(p.protocol) && Unsigned(p.flags, DWORD)
    && Unsigned(p.timeout, QWORD) && GoodAddress(p.address) && GoodTable(p.options)
  }

  /** Used slots from `k` on. */
  function Used(os: Table, k: nat): (n: nat)
    requires k <= |os|
    ensures n <= |os| - k
    decreases |os| - k
  {
    if k == |os| then 0 else (if IsOption(os[k].kind) then 1 else 0) + Used(os, k + 1)
  }

  function OptionsTokens(os: Table, k: nat, rest: Tokens): Tokens
    requires k <= |os|
    decreases |os| - k
  {
    if k == |os| then rest
    else if IsOption(os[k].kind) then PropertyTokens(os[k], OptionsTokens(os, k + 1, rest))
    else OptionsTokens(os, k + 1, rest)
  }

  function AddressAndOptionsTokens(p: SocketProperties, rest: Tokens): Tokens
  {
    AddressTokens(p.address, Cons(Arr(Cut32(Used(p.options, 0))), OptionsTokens(p.options, 0, rest)))
  }

  function SocketTokens(p: SocketProperties, rest: Tokens): Tokens
  {
    Object(7, Cons(Int(p.family), Cons(Int(p.sockType), Cons(Int(p.protocol), Cons(Int(p.flags),
      Cons(Int(p.timeout), AddressAndOptionsTokens(p, rest)))))))
  }

  function Cleared(): (t: Table)
    ensures |t| == SO_MAX && forall i :: 0 <= i < |t| ==> t[i] == NO_PROPERTY
  {
    seq(SO_MAX, _ => NO_PROPERTY)
  }

  function Store(t: Table, p: Property): (r: Table)
    requires |t| == SO_MAX
    ensures |r| == SO_MAX
  {
    if IsOption(p.kind) then t[p.kind := p] else t
  }

  /** An array item; a null item has no members to read. */
  function DecodeItem(index: nat, ts: Tokens): Read<Property>
  {
    var (n, i, q) :- ReadObject(index, ts);
    var (p, _, r) :- DecodeProperty(if n.None? then 0 else n.value, q);
    Got(p, i, r)
  }

  function DecodeOptions(index: nat, size: nat, ts: Tokens, t: Table): Read<Table>
    requires |t| == SO_MAX
    decreases size
  {
    if size == 0 then Got(t, index, ts) else
    var (p, i, r) :- DecodeItem(index, ts);
    DecodeOptions(i, size - 1, r, Store(t, p))
  }

  /** The loop over the array: each option goes to the slot of its type. */
  method ReadOptions(size: nat, ts: Tokens) returns (r: Read<Table>)
    ensures r == DecodeOptions(size, size, ts, Cleared())
  {
    var options, index, rest := Cleared(), size, ts;
    var i := 0;
    while i < size
      invariant i <= size && |options| == SO_MAX
      invariant DecodeOptions(size, size, ts, Cleared()) == DecodeOptions(index, size - i, rest, options)
    {
      var item := DecodeItem(index, rest);
      if item.Bad? {
        return Bad(item.error);
      }
      if IsOption(item.value.kind) {
        options := options[item.value.kind := item.value];
      }
      index, rest, i := item.index, item.rest, i + 1;
    }
    r := Got(options, index, rest);
  }

  function DecodeSocket(index: nat, ts: Tokens): Read<SocketProperties>
  {
    var (family, i, m) :- ReadSigned32(index, ts);
    var (sockType, j, n) :- ReadSigned32(i, m);
    var (protocol, k, o) :- ReadSigned32(j, n);
    var (flags, l, p) :- ReadUnsigned(k, o, DWORD);
    var (timeout, a, q) :- ReadUnsigned(l, p, QWORD);
    var (more, b, r) :- DecodeAddressAndOptions(a, q);
    Got(SocketProperties(family, sockType, protocol, flags, timeout, more.0, more.1), b, r)
  }

  function DecodeAddressAndOptions(index: nat, ts: Tokens): Read<(Address, Table)>
  {
    var (address, i, p) :- AddressMember(index, ts);
    var (size, j, q) :- ReadArray(i, p);
    var (options, _, r) :- DecodeOptions(size, size, q, Cleared());
    Got((address, options), j, r)
  }

  // ---- Round trip ------------------------------------------------------------------------------

  /** What storing the used slots from `k` on, one after the other, makes of a table. */
  function Stored(os: Table, k: nat, t: Table): (r: Table)
    requires k <= |os| && |t| == SO_MAX
    ensures |r| == SO_MAX
    decreases |os| - k
  {
    if k == |os| then t
    else Stored(os, k + 1, if IsOption(os[k].kind) then Store(t, SentProperty(os[k])) else t)
  }

  /** Decoding the slots from `k` on, into table `t`, succeeds. */
  predicate Arrives(os: Table, k: nat, t: Table, rest: Tokens)
    requires k <= |os| && |t| == SO_MAX
  {
    DecodeOptions(Used(os, k), Used(os, k), OptionsTokens(os, k, rest), t) == Got(Stored(os, k, t), 0, rest)
  }

  lemma {:induction false} OptionsRoundTrip(os: Table, k: nat, t: Table, rest: Tokens)
    requires GoodTable(os) && k <= |os| && |t| == SO_MAX
    ensures Arrives(os, k, t, rest)
    decreases |os| - k
  {
    if k < |os| {
      if IsOption(os[k].kind) {
        OptionsRoundTrip(os, k + 1, Store(t, SentProperty(os[k])), rest);
        UsedArrives(os, k, t, rest);
      } else {
        OptionsRoundTrip(os, k + 1, t, rest);
        UnusedSlot(os, k, rest);
      }
    }
  }

  lemma UsedArrives(os: Table, k: nat, t: Table, rest: Tokens)
    requires GoodTable(os) && k < |os| && |t| == SO_MAX && IsOption(os[k].kind)
    requires Arrives(os, k + 1, Store(t, SentProperty(os[k])), rest)
    ensures Arrives(os, k, t, rest)
  {
    UsedSlot(os, k, rest);
    OneOption(Used(os, k), OptionsTokens(os, k, rest), t, SentProperty(os[k]), OptionsTokens(os, k + 1, rest));
  }

  lemma UnusedSlot(os: Table, k: nat, rest: Tokens)
    requires k < |os| && !IsOption(os[k].kind)
    ensures Used(os, k) == Used(os, k + 1) && OptionsTokens(os, k, rest) == OptionsTokens(os, k + 1, rest)
  {
  }

  lemma UsedSlot(os: Table, k: nat, rest: Tokens)
    requires GoodTable(os) && k < |os| && IsOption(os[k].kind)
    ensures Used(os, k) == Used(os, k + 1) + 1
    ensures DecodeItem(Used(os, k), OptionsTokens(os, k, rest)) ==
            Got(SentProperty(os[k]), Used(os, k) - 1, OptionsTokens(os, k + 1, rest))
  {
    ItemRoundTrip(os[k], Used(os, k), OptionsTokens(os, k + 1, rest));
  }

  lemma OneOption(n: nat, ts: Tokens, t: Table, p: Property, rest: Tokens)
    requires n > 0 && |t| == SO_MAX && DecodeItem(n, ts) == Got(p, n - 1, rest)
    ensures DecodeOptions(n, n, ts, t) == DecodeOptions(n - 1, n - 1, rest, Store(t, p))
  {
  }

  lemma ItemRoundTrip(p: Property, index: nat, rest: Tokens)
    requires GoodProperty(p) && index > 0
    ensures DecodeItem(index, PropertyTokens(p, rest)) == Got(SentProperty(p), index - 1, rest)
  {
    PropertyRoundTrip(p, index, rest);
  }

  /** The table with unused slots cleared. */
  function SentTable(os: Table): (r: Table)
    ensures |r| == |os|
  {
    seq(|os|, i requires 0 <= i < |os| => if IsOption(os[i].kind) then SentProperty(os[i]) else NO_PROPERTY)
  }

  /** Every used slot holds the option of its own number. */
  predicate InPlace(os: Table)
  {
    forall i :: 0 <= i < |os| && IsOption(os[i].kind) ==> os[i].kind == i
  }

  lemma {:induction false} StoredInPlace(os: Table, k: nat, t: Table, j: nat)
    requires InPlace(os) && |os| == |t| == SO_MAX && k <= |os| && j < SO_MAX
    ensures Stored(os, k, t)[j] == if j >= k && IsOption(os[j].kind) then SentProperty(os[j]) else t[j]
    decreases |os| - k
  {
    if k < |os| {
      StoredInPlace(os, k + 1, if IsOption(os[k].kind) then Store(t, SentProperty(os[k])) else t, j);
    }
  }

  lemma {:induction false} StoredByKind(os: Table, k: nat, t: Table, j: nat)
    requires |t| == SO_MAX && k <= |os| && j < SO_MAX && (t[j].kind == 0 || t[j].kind == j)
    ensures Stored(os, k, t)[j].kind == 0 || Stored(os, k, t)[j].kind == j
    decreases |os| - k
  {
    if k < |os| {
      StoredByKind(os, k + 1, if IsOption(os[k].kind) then Store(t, SentProperty(os[k])) else t, j);
    }
  }

  /** Packing the table and storing what arrives rebuilds it exactly when each used slot holds the option of
      its own number. */
  lemma TableIsRebuilt(os: Table)
    requires |os| == SO_MAX
    ensures Stored(os, 0, Cleared()) == SentTable(os) <==> InPlace(os)
  {
    if InPlace(os) {
      forall j | 0 <= j < SO_MAX
        ensures Stored(os, 0, Cleared())[j] == SentTable(os)[j]
      {
        StoredInPlace(os, 0, Cleared(), j);
      }
    } else {
      var i :| 0 <= i < |os| && IsOption(os[i].kind) && os[i].kind != i;
      StoredByKind(os, 0, Cleared(), i);
      assert SentTable(os)[i].kind == os[i].kind;
    }
  }

  /** A well-formed table can arrive changed: an option in the slot of another. */
  lemma TableCanChange()
    ensures exists os :: GoodTable(os) && Stored(os, 0, Cleared()) != SentTable(os)
  {
    var os := Cleared()[1 := Property(2, Number(0))];
    assert IsOption(os[1].kind) && os[1].kind != 1;
    TableIsRebuilt(os);
  }

  function SentSocket(p: SocketProperties): SocketProperties
    requires |p.options| == SO_MAX
  {
    p.(address := SentAddress(p.address), options := Stored(p.options, 0, Cleared()))
  }

  lemma AddressAndOptionsRoundTrip(p: SocketProperties, rest: Tokens)
    requires GoodProperties(p)
    ensures DecodeAddressAndOptions(2, AddressAndOptionsTokens(p, rest)) ==
            Got((SentAddress(p.address), Stored(p.options, 0, Cleared())), 0, rest)
  {
    var n, tail := Used(p.options, 0), OptionsTokens(p.options, 0, rest);
    OptionsRoundTrip(p.options, 0, Cleared(), rest);
    AddressRoundTrip(p.address, 2, Cons(Arr(Cut32(n)), tail));
    AddressThenOptions(AddressAndOptionsTokens(p, rest), SentAddress(p.address), n, tail,
      Stored(p.options, 0, Cleared()), rest);
  }

  lemma AddressThenOptions(ts: Tokens, a: Address, n: nat, tail: Tokens, t: Table, rest: Tokens)
    requires AddressMember(2, ts) == Got(a, 1, Cons(Arr(n), tail))
    requires DecodeOptions(n, n, tail, Cleared()) == Got(t, 0, rest)
    ensures DecodeAddressAndOptions(2, ts) == Got((a, t), 0, rest)
  {
    assert ReadArray(1, Cons(Arr(n), tail)) == Got(n, 0, tail);
  }

  lemma SocketRoundTrip(p: SocketProperties, rest: Tokens)
    requires GoodProperties(p)
    ensures DecodeSocket(7, SocketTokens(p, rest).tail.tail) == Got(SentSocket(p), 0, rest)
  {
    AddressAndOptionsRoundTrip(p, rest);
    FiveNumbers(p.family, p.sockType, p.protocol, p.flags, p.timeout, AddressAndOptionsTokens(p, rest));
  }

  lemma FiveNumbers(a: int, b: int, c: int, d: int, e: int, rest: Tokens)
    requires Signed32(a) && Signed32(b) && Signed32(c) && Unsigned(d, DWORD) && Unsigned(e, QWORD)
    requires DecodeAddressAndOptions(2, rest).Got?
    ensures var more := DecodeAddressAndOptions(2, rest);
      DecodeSocket(7, Cons(Int(a), Cons(Int(b), Cons(Int(c), Cons(Int(d), Cons(Int(e), rest)))))) ==
      Got(SocketProperties(a, b, c, d, e, more.value.0, more.value.1), more.index, more.rest)
  {
  }
}
