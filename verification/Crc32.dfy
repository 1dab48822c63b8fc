/** Shift registers over any kind of word: what follows from how one step treats exclusive or. */
module ShiftRegister {

  function Iterate<T>(step: T -> T, c: T, n: nat): T
    decreases n
  {
    if n == 0 then c else Iterate(step, step(c), n - 1)
  }

  /** Feeds a register with bits, one after the other. */
  function Fold<T>(feed: (T, bool) -> T, c: T, bits: seq<bool>): T
    decreases |bits|
  {
    if bits == [] then c else Fold(feed, feed(c, bits[0]), bits[1..])
  }

  function LowBits<T>(low: T -> bool, half: T -> T, w: T, n: nat): (r: seq<bool>)
    ensures |r| == n
    decreases n
  {
    if n == 0 then [] else [low(w)] + LowBits(low, half, half(w), n - 1)
  }

  lemma {:induction false} FoldConcat<T>(feed: (T, bool) -> T, c: T, a: seq<bool>, b: seq<bool>)
    ensures Fold(feed, c, a + b) == Fold(feed, Fold(feed, c, a), b)
    decreases |a|
  {
    if a == [] {
      assert a + b == b;
    } else {
      assert (a + b)[1..] == a[1..] + b;
      FoldConcat(feed, feed(c, a[0]), a[1..], b);
    }
  }

  lemma {:induction false} IterateTwice<T>(step: T -> T, c: T, m: nat, n: nat)
    ensures Iterate(step, c, m + n) == Iterate(step, Iterate(step, c, m), n)
    decreases m
  {
    if m > 0 { IterateTwice(step, step(c), m - 1, n); }
  }

  lemma OnceAndThrice<T(!new)>(step: T -> T, few: T -> T, many: T -> T, c: T, k: nat, n: nat, m: nat)
    requires forall x :: Iterate(step, x, k) == few(x)
    requires forall x :: Iterate(step, x, n) == many(x)
    requires m == k + 3 * n
    ensures Iterate(step, c, m) == many(many(many(few(c))))
  {
    IterateTwice(step, c, k, 3 * n);
    IterateTwice(step, few(c), n, 2 * n);
    IterateTwice(step, many(few(c)), n, n);
  }

  lemma IterateEight<T>(step: T -> T, c: T)
    ensures Iterate(step, c, 8) == step(step(step(step(step(step(step(step(c))))))))
  {
  }

  ghost predicate Linear<T(!new)>(step: T -> T, xor: (T, T) -> T)
  {
    forall x, y :: step(xor(x, y)) == xor(step(x), step(y))
  }

  /** A linear step stays linear however often it is taken. */
  lemma {:induction false} IterateIsLinear<T(!new)>(step: T -> T, xor: (T, T) -> T, a: T, b: T, n: nat)
    requires Linear(step, xor)
    ensures Iterate(step, xor(a, b), n) == xor(Iterate(step, a, n), Iterate(step, b, n))
    decreases n
  {
    if n > 0 {
      IterateIsLinear(step, xor, step(a), step(b), n - 1);
    }
  }

  ghost predicate Injective<T(!new)>(step: T -> T)
  {
    forall x, y :: step(x) == step(y) ==> x == y
  }

  lemma {:induction false} IterateIsInjective<T(!new)>(step: T -> T, a: T, b: T, n: nat)
    requires Injective(step) && Iterate(step, a, n) == Iterate(step, b, n)
    ensures a == b
    decreases n
  {
    if n > 0 {
      IterateIsInjective(step, step(a), step(b), n - 1);
    }
  }

  ghost predicate FeedInjective<T(!new)>(feed: (T, bool) -> T)
  {
    forall x, y, bit :: feed(x, bit) == feed(y, bit) ==> x == y
  }

  lemma {:induction false} FoldIsInjective<T(!new)>(feed: (T, bool) -> T, a: T, b: T, bits: seq<bool>)
    requires FeedInjective(feed) && Fold(feed, a, bits) == Fold(feed, b, bits)
    ensures a == b
    decreases |bits|
  {
    if bits != [] {
      var bit := bits[0];
      FoldIsInjective(feed, feed(a, bit), feed(b, bit), bits[1..]);
      assert feed(a, bit) == feed(b, bit);
    }
  }

  /** Stepping a register with a word xored in feeds the word's lowest bit and leaves its other bits. */
  ghost predicate Feeds<T(!new)>(step: T -> T, feed: (T, bool) -> T, low: T -> bool, half: T -> T, xor: (T, T) -> T)
  {
    forall c, w :: step(xor(c, w)) == xor(feed(c, low(w)), half(w))
  }

  /** Feeding the low bits of a word is xoring the word in and stepping, up to the bits not yet fed. */
  lemma {:induction false} FeedIsXorAndStep<T(!new)>(step: T -> T, feed: (T, bool) -> T, low: T -> bool,
      half: T -> T, xor: (T, T) -> T, c: T, w: T, n: nat)
    requires Feeds(step, feed, low, half, xor)
    ensures xor(Fold(feed, c, LowBits(low, half, w, n)), Iterate(half, w, n)) == Iterate(step, xor(c, w), n)
    decreases n
  {
    if n > 0 {
      var rest := LowBits(low, half, half(w), n - 1);
      FeedIsXorAndStep(step, feed, low, half, xor, feed(c, low(w)), half(w), n - 1);
      assert ([low(w)] + rest)[1..] == rest;
    }
  }
}

/** The table-driven CRC-32 checksum and its bit-serial definition (section 8 of RFC 1952). */
module Crc32 {
  import opened Prelude
  import opened ShiftRegister
  import opened Crc32Table

  // ---- Bit-serial definition -------------------------------------------------------------------

  function Xor(a: bv32, b: bv32): bv32 { a ^ b }
  function Low(w: bv32): bool { w & 1 == 1 }
  function Half(w: bv32): bv32 { w >> 1 }

  /** Feeds one message bit to the register. */
  function Feed(c: bv32, bit: bool): bv32
  {
    if Low(c) != bit then (c >> 1) ^ 0xEDB88320 else c >> 1
  }

  /** The lowest bits of a word, least significant first. */
  function Bits(w: bv32, n: nat): seq<bool>
  {
    LowBits(Low, Half, w, n)
  }

  function Divide(c: bv32, bits: seq<bool>): bv32
  {
    Fold(Feed, c, bits)
  }

  function MessageBits(bytes: seq<byte>): seq<bool>
  {
    if bytes == [] then []
    else MessageBits(bytes[..|bytes| - 1]) + Bits(bytes[|bytes| - 1] as bv32, 8)
  }

  function Crc(bytes: seq<byte>): bv32
  {
    Divide(0xFFFF_FFFF, MessageBits(bytes)) ^ 0xFFFF_FFFF
  }

  // ---- One step --------------------------------------------------------------------------------

  lemma ShiftIsLinear(a: bv32, b: bv32)
    ensures (a ^ b) >> 1 == (a >> 1) ^ (b >> 1)
  {
  }

  lemma LowBitIsLinear(a: bv32, b: bv32)
    ensures (a ^ b) & 1 == (a & 1) ^ (b & 1)
    ensures a & 1 == 0 || a & 1 == 1
    ensures b & 1 == 0 || b & 1 == 1
  {
  }

  lemma XorMoves(p: bv32, q: bv32, m: bv32)
    ensures (p ^ m) ^ (q ^ m) == p ^ q
    ensures (p ^ m) ^ q == (p ^ q) ^ m
    ensures p ^ (q ^ m) == (p ^ q) ^ m
  {
  }

  lemma StepOfXor(a: bv32, b: bv32)
    ensures BitStep(Xor(a, b)) == Xor(BitStep(a), BitStep(b))
  {
    ShiftIsLinear(a, b);
    LowBitIsLinear(a, b);
    XorMoves(a >> 1, b >> 1, 0xEDB88320);
  }

  lemma StepOfFeed(c: bv32, w: bv32)
    ensures BitStep(Xor(c, w)) == Xor(Feed(c, Low(w)), Half(w))
  {
    ShiftIsLinear(c, w);
    LowBitIsLinear(c, w);
    XorMoves(c >> 1, w >> 1, 0xEDB88320);
  }

  lemma StepIsInjective(a: bv32, b: bv32)
    requires BitStep(a) == BitStep(b)
    ensures a == b
  {
  }

  lemma FeedIsInjective(a: bv32, b: bv32, bit: bool)
    requires Feed(a, bit) == Feed(b, bit)
    ensures a == b
  {
  }

  /** The bit step is linear over exclusive or and loses no information. */
  lemma StepLaws()
    ensures Linear(BitStep, Xor) && Injective(BitStep)
  {
    forall a, b ensures BitStep(Xor(a, b)) == Xor(BitStep(a), BitStep(b)) { StepOfXor(a, b); }
    forall a, b | BitStep(a) == BitStep(b) ensures a == b { StepIsInjective(a, b); }
  }

  lemma FeedLaws()
    ensures Feeds(BitStep, Feed, Low, Half, Xor) && FeedInjective(Feed)
  {
    forall c, w ensures BitStep(Xor(c, w)) == Xor(Feed(c, Low(w)), Half(w)) { StepOfFeed(c, w); }
    forall a, b, bit | Feed(a, bit) == Feed(b, bit) ensures a == b { FeedIsInjective(a, b, bit); }
  }

  // ---- One byte --------------------------------------------------------------------------------

  lemma EightIsIterate(c: bv32)
    ensures Iterate(BitStep, c, 8) == Eight(c)
  {
    IterateEight(BitStep, c);
  }

  lemma EightHalves(w: bv32)
    ensures Iterate(Half, w, 8) == w >> 8
  {
    IterateEight(Half, w);
    ShiftEight(w);
  }

  lemma ShiftEight(w: bv32)
    ensures Half(Half(Half(Half(Half(Half(Half(Half(w)))))))) == w >> 8
  {
  }

  lemma NothingLeft(b: byte, x: bv32)
    ensures Xor(x, (b as bv32) >> 8) == x
  {
  }

  lemma FeedByteIsEight(c: bv32, b: byte)
    ensures Divide(c, Bits(b as bv32, 8)) == Eight(Xor(c, b as bv32))
  {
    FeedLaws();
    FeedIsXorAndStep(BitStep, Feed, Low, Half, Xor, c, b as bv32, 8);
    EightHalves(b as bv32);
    NothingLeft(b, Divide(c, Bits(b as bv32, 8)));
    EightIsIterate(Xor(c, b as bv32));
  }

  lemma EightIsLinear(a: bv32, b: bv32)
    ensures Eight(Xor(a, b)) == Xor(Eight(a), Eight(b))
  {
    StepLaws();
    IterateIsLinear(BitStep, Xor, a, b, 8);
    EightIsIterate(a);
    EightIsIterate(b);
    EightIsIterate(Xor(a, b));
  }

  /** Bits above the lowest byte only move down. */
  lemma EightShifts(c: bv32)
    requires c & 0xFF == 0
    ensures Eight(c) == c >> 8
  {
  }

  /** A byte read as a signed character and promoted. */
  function Promoted(b: byte): bv32
  {
    if b >= 0x80 then 0xFFFF_FF00 | (b as bv32) else b as bv32
  }

  function Index(c: bv32, b: byte): bv8
  {
    ((c ^ Promoted(b)) & 0xFF) as bv8
  }

  /** The table index is the low byte of the register with the message byte xored in; the sign of the
      character type does not matter. */
  lemma IndexIsLowByte(c: bv32, b: byte)
    ensures Index(c, b) as bv32 == Xor(c, b as bv32) & 0xFF
  {
  }

  lemma SplitLowByte(x: bv32)
    ensures Xor(x & 0xFFFF_FF00, x & 0xFF) == x && (x & 0xFFFF_FF00) & 0xFF == 0
  {
  }

  lemma HighBytes(c: bv32, b: byte)
    ensures (Xor(c, b as bv32) & 0xFFFF_FF00) >> 8 == c >> 8
  {
  }

  function Lookup(c: bv32, b: byte): bv32
  {
    (c >> 8) ^ Table(Index(c, b))
  }

  lemma HighPart(c: bv32, b: byte)
    ensures Eight(Xor(c, b as bv32) & 0xFFFF_FF00) == c >> 8
  {
    SplitLowByte(Xor(c, b as bv32));
    HighBytes(c, b);
    EightShifts(Xor(c, b as bv32) & 0xFFFF_FF00);
  }

  lemma LowPart(c: bv32, b: byte)
    ensures Eight(Xor(c, b as bv32) & 0xFF) == Table(Index(c, b))
  {
    IndexIsLowByte(c, b);
    TableIsRight(Index(c, b));
  }

  lemma EightOfSplit(x: bv32)
    ensures Eight(x) == Xor(Eight(x & 0xFFFF_FF00), Eight(x & 0xFF))
  {
    SplitLowByte(x);
    EightIsLinear(x & 0xFFFF_FF00, x & 0xFF);
  }

  lemma LookupIsEight(c: bv32, b: byte)
    ensures Lookup(c, b) == Eight(Xor(c, b as bv32))
  {
    EightOfSplit(Xor(c, b as bv32));
    HighPart(c, b);
    LowPart(c, b);
  }

  lemma LookupIsFeed(c: bv32, b: byte)
    ensures Lookup(c, b) == Divide(c, Bits(b as bv32, 8))
  {
    LookupIsEight(c, b);
    FeedByteIsEight(c, b);
  }

  // ---- The loop --------------------------------------------------------------------------------

  function Register(bytes: seq<byte>): bv32
  {
    Divide(0xFFFF_FFFF, MessageBits(bytes))
  }

  lemma OneMoreByte(bytes: seq<byte>, b: byte)
    ensures Register(bytes + [b]) == Lookup(Register(bytes), b)
  {
    var c := 0xFFFF_FFFF;
    assert (bytes + [b])[..|bytes|] == bytes;
    FoldConcat(Feed, c, MessageBits(bytes), Bits(b as bv32, 8));
    LookupIsFeed(Divide(c, MessageBits(bytes)), b);
  }

  method Checksum(buf: seq<byte>) returns (crc: bv32)
    ensures crc == Crc(buf)
  {
    crc := 0xFFFF_FFFF;
    var i := 0;
    while i < |buf|
      invariant i <= |buf|
      invariant crc == Register(buf[..i])
    {
      OneMoreByte(buf[..i], buf[i]);
      assert buf[..i + 1] == buf[..i] + [buf[i]];
      crc := Lookup(crc, buf[i]);
      i := i + 1;
    }
    assert buf[..i] == buf;
    crc := crc ^ 0xFFFF_FFFF;
  }

  // ---- The published check value ---------------------------------------------------------------

  lemma NextRegister(bytes: seq<byte>, i: nat, before: bv32, after: bv32)
    requires i < |bytes| && Register(bytes[..i]) == before && Eight(Xor(before, bytes[i] as bv32)) == after
    ensures Register(bytes[..i + 1]) == after
  {
    OneMoreByte(bytes[..i], bytes[i]);
    LookupIsEight(before, bytes[i]);
    assert bytes[..i + 1] == bytes[..i] + [bytes[i]];
  }

  /** The checksum of the digits from 1 to 9 is the check value published for CRC-32. */
  lemma CheckValue()
    ensures Crc([0x31, 0x32, 0x33, 0x34, 0x35, 0x36, 0x37, 0x38, 0x39]) == 0xCBF4_3926
  {
    var digits: seq<byte> := [0x31, 0x32, 0x33, 0x34, 0x35, 0x36, 0x37, 0x38, 0x39];
    assert digits[..0] == [];
    NextRegister(digits, 0, 0xFFFF_FFFF, 0x7C23_1048);
    NextRegister(digits, 1, 0x7C23_1048, 0xB0AC_BB32);
    NextRegister(digits, 2, 0xB0AC_BB32, 0x77B7_9C2D);
    NextRegister(digits, 3, 0x77B7_9C2D, 0x641C_1F5C);
    NextRegister(digits, 4, 0x641C_1F5C, 0x340A_C5E3);
    NextRegister(digits, 5, 0x340A_C5E3, 0xF68D_2C9E);
    NextRegister(digits, 6, 0xF68D_2C9E, 0xAFFC_9660);
    NextRegister(digits, 7, 0xAFFC_9660, 0x651F_2550);
    NextRegister(digits, 8, 0x651F_2550, 0x340B_C6D9);
    assert digits[..9] == digits;
  }

  // ---- Changes the checksum detects ------------------------------------------------------------

  lemma XorCancels(a: bv32, b: bv32, x: bv32)
    ensures Xor(x, a) == Xor(x, b) ==> a == b
    ensures a ^ x == b ^ x ==> a == b
  {
  }

  function ByteDown(w: bv32): bv32 { w >> 8 }

  lemma SevenHalves(w: bv32)
    ensures Iterate(Half, w, 7) == w >> 7
  {
    assert Iterate(Half, w, 7) == Half(Half(Half(Half(Half(Half(Half(w)))))));
    ShiftSeven(w);
  }

  lemma ShiftSeven(w: bv32)
    ensures Half(Half(Half(Half(Half(Half(Half(w))))))) == w >> 7
  {
  }

  function SevenDown(w: bv32): bv32 { w >> 7 }

  lemma TopBit(w: bv32)
    ensures ByteDown(ByteDown(ByteDown(SevenDown(w)))) == w >> 31
  {
  }

  lemma AllButOneHalf(w: bv32)
    ensures Iterate(Half, w, 31) == w >> 31
  {
    forall x ensures Iterate(Half, x, 7) == SevenDown(x) { SevenHalves(x); }
    forall x ensures Iterate(Half, x, 8) == ByteDown(x) { EightHalves(x); }
    OnceAndThrice(Half, SevenDown, ByteDown, w, 7, 8, 31);
    TopBit(w);
  }

  lemma {:induction false} HalvesOfZero(n: nat)
    ensures Iterate(Half, 0, n) == 0
  {
    if n > 0 { HalvesOfZero(n - 1); }
  }

  /** A word of fewer than 32 bits has its top bit clear. */
  lemma TopIsClear(w: bv32, n: nat)
    requires n < 32 && Iterate(Half, w, n) == 0
    ensures w >> 31 == 0
  {
    IterateTwice(Half, w, n, 31 - n);
    HalvesOfZero(31 - n);
    AllButOneHalf(w);
  }

  function Append(bit: bool, w: bv32): bv32
  {
    (w << 1) | (if bit then 1 else 0)
  }

  lemma AppendedHalves(bit: bool, w: bv32)
    requires w >> 31 == 0
    ensures Low(Append(bit, w)) == bit && Half(Append(bit, w)) == w
  {
  }

  /** The word with the given lowest bits. */
  function Packed(bits: seq<bool>): bv32
  {
    if bits == [] then 0 else Append(bits[0], Packed(bits[1..]))
  }

  lemma {:induction false} PackedBits(bits: seq<bool>)
    requires |bits| <= 32
    ensures Bits(Packed(bits), |bits|) == bits && Iterate(Half, Packed(bits), |bits|) == 0
    decreases |bits|
  {
    if bits != [] {
      PackedBits(bits[1..]);
      TopIsClear(Packed(bits[1..]), |bits| - 1);
      AppendedHalves(bits[0], Packed(bits[1..]));
      assert bits == [bits[0]] + bits[1..];
    }
  }

  lemma XorZero(x: bv32)
    ensures Xor(x, 0) == x
  {
  }

  lemma FeedWindow(c: bv32, bits: seq<bool>)
    requires |bits| <= 32
    ensures Divide(c, bits) == Iterate(BitStep, Xor(c, Packed(bits)), |bits|)
  {
    FeedLaws();
    FeedIsXorAndStep(BitStep, Feed, Low, Half, Xor, c, Packed(bits), |bits|);
    PackedBits(bits);
    XorZero(Divide(c, bits));
  }

  /** Different bits leave different registers, up to 32 of them. */
  lemma BitsAreTold(c: bv32, p: seq<bool>, q: seq<bool>)
    requires |p| == |q| <= 32 && Divide(c, p) == Divide(c, q)
    ensures p == q
  {
    FeedWindow(c, p);
    FeedWindow(c, q);
    StepLaws();
    IterateIsInjective(BitStep, Xor(c, Packed(p)), Xor(c, Packed(q)), |p|);
    XorCancels(Packed(p), Packed(q), c);
    PackedBits(p);
    PackedBits(q);
  }

  lemma WindowIsTold(c: bv32, before: seq<bool>, v: seq<bool>, w: seq<bool>, after: seq<bool>)
    requires Divide(c, before + v + after) == Divide(c, before + w + after)
    ensures Divide(Divide(c, before), v) == Divide(Divide(c, before), w)
  {
    FeedLaws();
    FoldConcat(Feed, c, before + v, after);
    FoldConcat(Feed, c, before + w, after);
    FoldConcat(Feed, c, before, v);
    FoldConcat(Feed, c, before, w);
    FoldIsInjective(Feed, Divide(c, before + v), Divide(c, before + w), after);
  }

  /** Two messages of equal length that differ only within some 32 or fewer consecutive bits have
      different checksums, wherever those bits are and however short the messages. */
  lemma BurstsAreDetected(x: seq<byte>, y: seq<byte>, before: seq<bool>, p: seq<bool>, q: seq<bool>, after: seq<bool>)
    requires MessageBits(x) == before + p + after
    requires MessageBits(y) == before + q + after
    requires |p| == |q| <= 32
    ensures Crc(x) == Crc(y) <==> p == q
  {
    if Crc(x) == Crc(y) {
      XorCancels(Divide(0xFFFF_FFFF, MessageBits(x)), Divide(0xFFFF_FFFF, MessageBits(y)), 0xFFFF_FFFF);
      WindowIsTold(0xFFFF_FFFF, before, p, q, after);
      BitsAreTold(Divide(0xFFFF_FFFF, before), p, q);
    }
  }
}
