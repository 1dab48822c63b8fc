/** MessagePack tokens, and the codec's typed reads and writes with their member counters. */
module WireTokens {
  import opened Prelude

  /** One token of the encoded stream; all MessagePack integer formats are one kind. */
  datatype Token = Nil | Bool(b: bool) | Int(v: int) | Str(s: seq<byte>) | Bin(bytes: seq<byte>) | Arr(n: nat)

  datatype Tokens = End | Cons(head: Token, tail: Tokens)

  datatype Error = InvalidFormat | NoMemory | Arg | Writing | NotSupported

  /** A value read, what is left of the member counter, and of the stream. */
  datatype Read<+T> = Got(value: T, index: nat, rest: Tokens) | Bad(error: Error)
  {
    predicate IsFailure() { Bad? }
    function PropagateFailure<U>(): Read<U> requires Bad? { Bad(error) }
    function Extract(): (T, nat, Tokens) requires Got? { (value, index, rest) }
  }

  const BYTE: int := 0x100
  const WORD: int := 0x1_0000
  const DWORD: int := 0x1_0000_0000
  const QWORD: int := 0x1_0000_0000_0000_0000

  predicate Unsigned(v: int, limit: int) { 0 <= v < limit }
  predicate Signed32(v: int) { -0x8000_0000 <= v < 0x8000_0000 }
  predicate Signed64(v: int) { -0x8000_0000_0000_0000 <= v < 0x8000_0000_0000_0000 }

  // ---- Reading ---------------------------------------------------------------------------------

  /** Every read first takes one off the member counter of its object. */
  function Next(index: nat, ts: Tokens): Read<Token>
  {
    if index == 0 || ts.End? then Bad(InvalidFormat) else Got(ts.head, index - 1, ts.tail)
  }

  /** Narrower widths are read as 64 bits and checked. */
  function ReadUnsigned(index: nat, ts: Tokens, limit: int): Read<int>
  {
    var (t, i, r) :- Next(index, ts);
    if !t.Int? || !Unsigned(t.v, QWORD) then Bad(Arg)
    else if !Unsigned(t.v, limit) then Bad(InvalidFormat)
    else Got(t.v, i, r)
  }

  function ReadSigned32(index: nat, ts: Tokens): Read<int>
  {
    var (t, i, r) :- Next(index, ts);
    if !t.Int? || !Signed64(t.v) then Bad(Arg)
    else if !Signed32(t.v) then Bad(InvalidFormat)
    else Got(t.v, i, r)
  }

  function ReadBool(index: nat, ts: Tokens): Read<bool>
  {
    var (t, i, r) :- Next(index, ts);
    if !t.Bool? then Bad(Arg) else Got(t.b, i, r)
  }

  /** The characters before the first zero byte. */
  function Terminated(s: seq<byte>): (r: seq<byte>)
    ensures NoZero(r) && |r| <= |s| && (NoZero(s) ==> r == s)
  {
    if s == [] || s[0] == 0 then [] else [s[0]] + Terminated(s[1..])
  }

  predicate NoZero(s: seq<byte>)
  {
    forall i :: 0 <= i < |s| ==> s[i] != 0
  }

  function ReadString(index: nat, ts: Tokens): Read<seq<byte>>
  {
    var (t, i, r) :- Next(index, ts);
    if !t.Str? then Bad(Arg)
    else if |t.s| + 1 >= DWORD then Bad(NoMemory)
    else Got(Terminated(t.s), i, r)
  }

  /** A string read into an array of `size` characters, which must also hold the terminator. */
  function ReadStringFixed(index: nat, ts: Tokens, size: nat): Read<seq<byte>>
  {
    var (t, i, r) :- Next(index, ts);
    if !t.Str? then Bad(Arg)
    else if |t.s| + 1 > size then Bad(NoMemory)
    else Got(Terminated(t.s), i, r)
  }

  function ReadBin(index: nat, ts: Tokens): Read<seq<byte>>
  {
    var (t, i, r) :- Next(index, ts);
    if !t.Bin? || |t.bytes| >= DWORD then Bad(Arg) else Got(t.bytes, i, r)
  }

  function Padded(bytes: seq<byte>, size: nat): (r: seq<byte>)
    requires |bytes| <= size
    ensures |r| == size && bytes <= r && (|bytes| == size ==> r == bytes)
  {
    bytes + seq(size - |bytes|, _ => 0)
  }

  /** Binary data read into a zeroed array of `size` bytes; it may be shorter. */
  function ReadBinFixed(index: nat, ts: Tokens, size: nat): Read<seq<byte>>
  {
    var (t, i, r) :- Next(index, ts);
    if !t.Bin? then Bad(Arg)
    else if |t.bytes| > size then Bad(NoMemory)
    else Got(Padded(t.bytes, size), i, r)
  }

  /** An object is null, or an array whose first item is a nil place holder; its value here is its member
      counter. */
  function ReadObject(index: nat, ts: Tokens): Read<Option<nat>>
  {
    var (t, i, r) :- Next(index, ts);
    match t
    case Nil => Got(None, i, r)
    case Arr(n) =>
      var (holder, m, q) :- Next(n, r);
      if !holder.Nil? then Bad(Arg) else Got(Some(m), i, q)
    case _ => Bad(InvalidFormat)
  }

  function ReadArray(index: nat, ts: Tokens): Read<nat>
  {
    var (t, i, r) :- Next(index, ts);
    if !t.Arr? then Bad(Arg) else Got(t.n, i, r)
  }

  /** An object member; a null object leaves the field as it was. What the object's own counter has left is
      dropped. */
  function Member<T>(index: nat, ts: Tokens, decode: (nat, Tokens) -> Read<T>, unset: T): Read<T>
  {
    var (n, i, r) :- ReadObject(index, ts);
    if n.None? then Got(unset, i, r) else
    var (x, _, q) :- decode(n.value, r);
    Got(x, i, q)
  }

  /** The header of an object with `n` members. */
  function Object(n: nat, members: Tokens): Tokens
  {
    Cons(Arr(n + 1), Cons(Nil, members))
  }

  lemma MemberOfObject<T>(index: nat, n: nat, body: Tokens, decode: (nat, Tokens) -> Read<T>, unset: T)
    requires index > 0 && decode(n, body).Got?
    ensures var inner := decode(n, body);
      Member(index, Object(n, body), decode, unset) == Got(inner.value, index - 1, inner.rest)
  {
  }

  lemma MemberFails<T>(index: nat, n: nat, body: Tokens, decode: (nat, Tokens) -> Read<T>, unset: T)
    requires index > 0
    ensures decode(n, body).Bad? ==> Member(index, Object(n, body), decode, unset) == Bad(decode(n, body).error)
  {
  }

  // ---- Writing ---------------------------------------------------------------------------------

  /** The tokens written, followed by more. */
  function Followed(out: seq<Token>, rest: Tokens): Tokens
  {
    if out == [] then rest else Cons(out[0], Followed(out[1..], rest))
  }

  lemma {:induction false} FollowedBy(out: seq<Token>, t: Token, rest: Tokens)
    ensures Followed(out + [t], rest) == Followed(out, Cons(t, rest))
    decreases |out|
  {
    if out == [] {
      assert (out + [t])[1..] == [];
    } else {
      assert (out + [t])[1..] == out[1..] + [t];
      FollowedBy(out[1..], t, rest);
    }
  }

  /** Lengths are cut to 32 bits. */
  function Cut32(n: nat): (r: nat)
    ensures r <= n
  {
    if n < DWORD then n else n % DWORD
  }

  function Cut(bytes: seq<byte>): (r: seq<byte>)
    ensures |bytes| < DWORD ==> r == bytes
  {
    if |bytes| < DWORD then bytes else bytes[..Cut32(|bytes|)]
  }

  class Stream {
    var out: seq<Token>

    constructor ()
      ensures out == []
    {
      out := [];
    }

    method Put(t: Token)
      modifies this
      ensures forall rest {:trigger Followed(out, rest)} :: Followed(out, rest) == Followed(old(out), Cons(t, rest))
    {
      forall rest ensures Followed(out + [t], rest) == Followed(out, Cons(t, rest)) { FollowedBy(out, t, rest); }
      out := out + [t];
    }
  }

  /** An encoder context: a member counter on a shared stream. A write without a member left, or an end with
      members left, would be a fault; the encoders are proved free of both. */
  class Context {
    const stream: Stream
    var index: nat

    constructor (stream: Stream)
      ensures this.stream == stream
    {
      this.stream := stream;
      index := 0;
    }

    method Value(t: Token)
      requires index != 0
      modifies this, stream
      ensures index == old(index) - 1
      ensures forall rest {:trigger Followed(stream.out, rest)} :: Followed(stream.out, rest) == Followed(old(stream.out), Cons(t, rest))
    {
      stream.Put(t);
      index := index - 1;
    }

    method Bytes(bytes: seq<byte>)
      requires index != 0
      modifies this, stream
      ensures index == old(index) - 1
      ensures forall rest {:trigger Followed(stream.out, rest)} :: Followed(stream.out, rest) == Followed(old(stream.out), Cons(Bin(Cut(bytes)), rest))
    {
      Value(Bin(Cut(bytes)));
    }

    method Text(s: seq<byte>)
      requires index != 0
      modifies this, stream
      ensures index == old(index) - 1
      ensures forall rest {:trigger Followed(stream.out, rest)} :: Followed(stream.out, rest) == Followed(old(stream.out), Cons(Str(Cut(s)), rest))
    {
      Value(Str(Cut(s)));
    }

    /** A member that is an object: counted here, written by its own context. */
    method Child() returns (child: Context)
      requires index != 0
      modifies this
      ensures index == old(index) - 1 && fresh(child) && child.stream == stream
    {
      child := new Context(stream);
      index := index - 1;
    }

    method NullChild()
      requires index != 0
      modifies this, stream
      ensures index == old(index) - 1
      ensures forall rest {:trigger Followed(stream.out, rest)} :: Followed(stream.out, rest) == Followed(old(stream.out), Cons(Nil, rest))
    {
      Value(Nil);
    }

    /** A member that is an array, whose items are counted by its own context. */
    method Items(size: nat) returns (list: Context)
      requires index != 0
      modifies this, stream
      ensures index == old(index) - 1 && fresh(list) && list.stream == stream && list.index == size
      ensures forall rest {:trigger Followed(stream.out, rest)} :: Followed(stream.out, rest) == Followed(old(stream.out), Cons(Arr(Cut32(size)), rest))
    {
      Value(Arr(Cut32(size)));
      list := new Context(stream);
      list.index := size;
    }

    method TypeBegin(members: nat)
      modifies this, stream
      ensures index == members
      ensures forall rest {:trigger Followed(stream.out, rest)} :: Followed(stream.out, rest) == Followed(old(stream.out), Object(members, rest))
    {
      stream.Put(Arr(members + 1));
      stream.Put(Nil);
      index := members;
    }

    method TypeEnd()
      requires index == 0
    {
    }
  }
}
