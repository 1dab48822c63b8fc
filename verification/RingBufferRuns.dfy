/** One writer thread and one reader thread on the ring, interleaved at every copy and position update. */
module RingBufferRuns {
  import opened Prelude

  /** A call in progress. `from` counts the bytes written (or read) when it began, `seen` those read (or
      written) by the other side according to the position it sampled, `pos`. */
  datatype WriteCall = WriteCall(buf: seq<byte>, from: nat, seen: nat, pos: nat)
  datatype ReadCall = ReadCall(len: nat, from: nat, seen: nat, pos: nat)

  /** `gap`: the chunk goes between the write position and the read position ahead of it. */
  datatype Writer =
    | WIdle
    | WCopy(w: WriteCall, chunk: seq<byte>, rest: seq<byte>, gap: bool)
    | WAdvance(w: WriteCall, chunk: seq<byte>, rest: seq<byte>, gap: bool)
    | WWrap(w: WriteCall, rest: seq<byte>)
    | WDone(w: WriteCall)

  /** `low`: the chunk ends at or before the write position, with no wrap in between. */
  datatype Reader =
    | RIdle
    | RCopy(r: ReadCall, n: nat, left: nat, low: bool)
    | RAdvance(r: ReadCall, chunk: seq<byte>, left: nat, low: bool)
    | RWrap(r: ReadCall, left: nat)
    | RDone(r: ReadCall)

  /** `readBase` and `writeBase` are the lengths of the laps completed by each side. */
  datatype State = State(
    mem: seq<byte>, readPos: nat, writePos: nat, writer: Writer, reader: Reader,
    readBase: nat, writeBase: nat, accepted: seq<byte>, consumed: seq<byte>)

  predicate IsInit(s: State)
  {
    |s.mem| > 0 && s == State(s.mem, 0, 0, WIdle, RIdle, 0, 0, [], [])
  }

  datatype Event = BeginWrite(buf: seq<byte>) | Write | BeginRead(len: nat) | Read

  predicate Enabled(s: State, e: Event)
  {
    match e
    case BeginWrite(_) => s.writer.WIdle? || s.writer.WDone?
    case Write => !s.writer.WIdle? && !s.writer.WDone?
    case BeginRead(_) => s.reader.RIdle? || s.reader.RDone?
    case Read => !s.reader.RIdle? && !s.reader.RDone?
  }

  function Clamp(a: int, n: nat): (r: nat) ensures r <= n { if a < 0 then 0 else if a > n then n else a }

  // ---- The writer's steps ----------------------------------------------------------------------

  function DoBeginWrite(s: State, buf: seq<byte>): State
  {
    var w := WriteCall(buf, |s.accepted|, |s.consumed|, s.readPos);
    if s.writePos >= s.readPos then
      var room := |s.mem| - s.writePos - (if s.readPos == 0 then 1 else 0);
      var len := if s.readPos == 0 then Clamp(room, |buf|) else |buf|;
      var n := Clamp(room, len);
      s.(writer := WCopy(w, buf[..n], buf[n..len], false))
    else
      s.(writer := Gap(s, w, buf))
  }

  /** The second part of a write, up to one slot before the sampled read position. */
  function Gap(s: State, w: WriteCall, rest: seq<byte>): Writer
  {
    if rest == [] then WDone(w)
    else WCopy(w, rest[..Clamp(w.pos - s.writePos - 1, |rest|)], [], true)
  }

  function Overwrite(mem: seq<byte>, at: nat, chunk: seq<byte>): (r: seq<byte>)
    ensures |r| == |mem|
    ensures forall i :: 0 <= i < |mem| ==> r[i] == if at <= i < at + |chunk| then chunk[i - at] else mem[i]
  {
    seq(|mem|, i requires 0 <= i < |mem| => if at <= i < at + |chunk| then chunk[i - at] else mem[i])
  }

  function DoWCopy(s: State): State
    requires s.writer.WCopy?
  {
    var c := s.writer;
    s.(mem := Overwrite(s.mem, s.writePos, c.chunk), writer := WAdvance(c.w, c.chunk, c.rest, c.gap))
  }

  function DoWAdvance(s: State): State
    requires s.writer.WAdvance?
  {
    var c := s.writer;
    s.(writePos := s.writePos + |c.chunk|, accepted := s.accepted + c.chunk,
       writer := if c.gap then WDone(c.w) else WWrap(c.w, c.rest))
  }

  function DoWWrap(s: State): State
    requires s.writer.WWrap?
  {
    var t := if s.writePos == |s.mem| then s.(writePos := 0, writeBase := s.writeBase + |s.mem|) else s;
    t.(writer := Gap(t, s.writer.w, s.writer.rest))
  }

  // ---- The reader's steps ----------------------------------------------------------------------

  function DoBeginRead(s: State, len: nat): State
  {
    var r := ReadCall(len, |s.consumed|, |s.accepted|, s.writePos);
    if s.readPos > s.writePos then
      var n := Clamp(|s.mem| - s.readPos, len);
      s.(reader := RCopy(r, n, len - n, false))
    else
      s.(reader := Rest(s, r, len))
  }

  /** The second part of a read, up to the sampled write position. */
  function Rest(s: State, r: ReadCall, left: nat): Reader
  {
    if left == 0 then RDone(r) else RCopy(r, Clamp(r.pos - s.readPos, left), 0, true)
  }

  function DoRCopy(s: State): State
    requires s.reader.RCopy?
  {
    var c := s.reader;
    var to := Clamp(s.readPos + c.n, |s.mem|);
    var at := Clamp(s.readPos, to);
    s.(reader := RAdvance(c.r, s.mem[at..to], c.left, c.low))
  }

  function DoRAdvance(s: State): State
    requires s.reader.RAdvance?
  {
    var c := s.reader;
    s.(readPos := s.readPos + |c.chunk|, consumed := s.consumed + c.chunk,
       reader := if c.low then RDone(c.r) else RWrap(c.r, c.left))
  }

  function DoRWrap(s: State): State
    requires s.reader.RWrap?
  {
    var t := if s.readPos == |s.mem| then s.(readPos := 0, readBase := s.readBase + |s.mem|) else s;
    t.(reader := Rest(t, s.reader.r, s.reader.left))
  }

  function Apply(s: State, e: Event): State
    requires Enabled(s, e)
  {
    match e
    case BeginWrite(buf) => DoBeginWrite(s, buf)
    case Write =>
      if s.writer.WCopy? then DoWCopy(s) else if s.writer.WAdvance? then DoWAdvance(s) else DoWWrap(s)
    case BeginRead(len) => DoBeginRead(s, len)
    case Read =>
      if s.reader.RCopy? then DoRCopy(s) else if s.reader.RAdvance? then DoRAdvance(s) else DoRWrap(s)
  }

  ghost predicate Run(s: State, es: seq<Event>, t: State)
    decreases |es|
  {
    if es == [] then s == t
    else Enabled(s, es[0]) && Run(Apply(s, es[0]), es[1..], t)
  }

  ghost predicate Reached(t: State)
  {
    exists s, es :: IsInit(s) && Run(s, es, t)
  }

  // ---- Invariant -------------------------------------------------------------------------------

  /** Both sides are on the same lap with the reader behind, or the writer is one lap ahead. */
  predicate Laps(s: State)
  {
    && |s.mem| > 0 && s.readPos <= |s.mem| && s.writePos <= |s.mem|
    && |s.accepted| == s.writeBase + s.writePos && |s.consumed| == s.readBase + s.readPos
    && |s.accepted| - |s.consumed| < |s.mem|
    && ((s.writeBase == s.readBase && s.readPos <= s.writePos)
        || (s.writeBase == s.readBase + |s.mem| && s.writePos < s.readPos))
    && (s.writePos == |s.mem| ==> s.writer.WWrap?)
  }

  /** The slot holding the k-th byte ever written. */
  function Slot(s: State, k: nat): int
  {
    if k < s.readBase + |s.mem| then k - s.readBase else k - s.readBase - |s.mem|
  }

  /** The bytes written and not yet read are in their slots. */
  predicate Stored(s: State)
    requires Laps(s)
  {
    forall k :: |s.consumed| <= k < |s.accepted| ==> s.mem[Slot(s, k)] == s.accepted[k]
  }

  predicate ReadSoFar(s: State)
  {
    s.consumed <= s.accepted
  }

  /** The chunk fits before the end of the array and behind the reader. */
  predicate Fits(s: State, n: nat)
  {
    s.writePos + n <= |s.mem| && |s.accepted| + n - |s.consumed| < |s.mem|
  }

  /** What the sampled read position means: one side of the wrap or the other. */
  predicate Sampled(s: State, w: WriteCall, gap: bool)
  {
    && w.seen <= |s.consumed| && w.pos <= |s.mem|
    && w.seen + (if gap then |s.mem| else 0) == s.writeBase + w.pos
  }

  /** The bytes this call has written, is writing and will write are the head of its buffer. */
  predicate Planned(s: State, w: WriteCall, chunk: seq<byte>, rest: seq<byte>)
  {
    && w.from <= |s.accepted|
    && s.accepted[w.from..] + chunk + rest <= w.buf
  }

  /** How many bytes the call will have accepted: all, or as many as were free when it began. */
  predicate Quota(s: State, w: WriteCall, total: int)
  {
    total == Min(|w.buf|, w.seen + |s.mem| - 1 - w.from)
  }

  /** A first chunk leaves a rest only when it reaches the end, and then part of it fits the gap. */
  function Later(w: WriteCall, rest: seq<byte>): int
  {
    if rest == [] then 0 else Min(|rest|, w.pos - 1)
  }

  predicate WriterInv(s: State)
  {
    match s.writer
    case WIdle => true
    case WCopy(w, chunk, rest, gap) =>
      && Fits(s, |chunk|) && Sampled(s, w, gap) && Planned(s, w, chunk, rest)
      && (rest != [] ==> !gap && w.pos > 0 && s.writePos + |chunk| == |s.mem|)
      && (gap ==> s.writePos + |chunk| < |s.mem|)
      && Quota(s, w, |s.accepted| - w.from + |chunk| + Later(w, rest))
    case WAdvance(w, chunk, rest, gap) =>
      && Fits(s, |chunk|) && Sampled(s, w, gap) && Planned(s, w, chunk, rest)
      && (rest != [] ==> !gap && w.pos > 0 && s.writePos + |chunk| == |s.mem|)
      && (gap ==> s.writePos + |chunk| < |s.mem|)
      && Quota(s, w, |s.accepted| - w.from + |chunk| + Later(w, rest))
      && s.mem[s.writePos..s.writePos + |chunk|] == chunk
    case WWrap(w, rest) =>
      && Sampled(s, w, false) && Planned(s, w, [], rest)
      && (rest != [] ==> w.pos > 0 && s.writePos == |s.mem|)
      && Quota(s, w, |s.accepted| - w.from + Later(w, rest))
    case WDone(w) =>
      && Planned(s, w, [], []) && Quota(s, w, |s.accepted| - w.from)
  }

  predicate ReadSampled(s: State, r: ReadCall, low: bool)
  {
    && r.seen <= |s.accepted| && r.from <= |s.consumed| <= r.seen
    && r.seen == s.readBase + r.pos + (if low then 0 else |s.mem|)
    && (!low ==> s.writeBase == s.readBase + |s.mem|)
  }

  predicate ReadQuota(r: ReadCall, total: int)
  {
    total == Min(r.len, r.seen - r.from)
  }

  function ReadLater(r: ReadCall, left: nat): int
  {
    Min(left, r.pos)
  }

  predicate ReaderInv(s: State)
  {
    match s.reader
    case RIdle => true
    case RCopy(r, n, left, low) =>
      && s.readPos + n <= |s.mem| && |s.consumed| + n <= r.seen && ReadSampled(s, r, low)
      && (left > 0 ==> !low && s.readPos + n == |s.mem|)
      && ReadQuota(r, |s.consumed| - r.from + n + ReadLater(r, left))
    case RAdvance(r, chunk, left, low) =>
      && s.readPos + |chunk| <= |s.mem| && |s.consumed| + |chunk| <= r.seen && ReadSampled(s, r, low)
      && (left > 0 ==> !low && s.readPos + |chunk| == |s.mem|)
      && ReadQuota(r, |s.consumed| - r.from + |chunk| + ReadLater(r, left))
      && chunk == s.accepted[|s.consumed|..|s.consumed| + |chunk|]
    case RWrap(r, left) =>
      && ReadSampled(s, r, false)
      && (left > 0 ==> s.readPos == |s.mem|)
      && ReadQuota(r, |s.consumed| - r.from + ReadLater(r, left))
    case RDone(r) =>
      r.from <= |s.consumed| && ReadQuota(r, |s.consumed| - r.from)
  }

  predicate Inv(s: State)
  {
    Laps(s) && Stored(s) && ReadSoFar(s) && WriterInv(s) && ReaderInv(s)
  }

  /** A step of the writer leaves the reader's view in place. */
  lemma ReaderUnmoved(s: State, t: State)
    requires ReaderInv(s) && Laps(s) && Laps(t)
    requires t.reader == s.reader && t.readPos == s.readPos && t.readBase == s.readBase
    requires t.consumed == s.consumed && |t.mem| == |s.mem| && s.accepted <= t.accepted
    requires t.writeBase >= s.writeBase
    ensures ReaderInv(t)
  {
  }

  /** A step of the reader leaves the writer's view in place. */
  lemma WriterUnmoved(s: State, t: State)
    requires WriterInv(s) && Laps(s) && Laps(t)
    requires t.writer == s.writer && t.writePos == s.writePos && t.writeBase == s.writeBase
    requires t.accepted == s.accepted && t.mem == s.mem && |s.consumed| <= |t.consumed|
    ensures WriterInv(t)
  {
  }

  // ---- The writer ------------------------------------------------------------------------------

  lemma AheadPlan(s: State, buf: seq<byte>)
    requires Laps(s) && s.writePos >= s.readPos && Enabled(s, BeginWrite(buf))
    ensures WriterInv(DoBeginWrite(s, buf))
  {
    var c := DoBeginWrite(s, buf).writer;
    assert s.accepted[|s.accepted|..] + c.chunk == c.chunk;
    assert c.chunk + c.rest == buf[..|c.chunk| + |c.rest|];
  }

  lemma GapPlan(s: State, buf: seq<byte>)
    requires Laps(s) && s.writePos < s.readPos && Enabled(s, BeginWrite(buf))
    ensures WriterInv(DoBeginWrite(s, buf))
  {
    assert s.accepted[|s.accepted|..] == [];
    var c := DoBeginWrite(s, buf).writer;
    if c.WCopy? {
      assert s.accepted[|s.accepted|..] + c.chunk + c.rest == c.chunk;
    }
  }

  lemma BeginWriteKeeps(s: State, buf: seq<byte>)
    requires Inv(s) && Enabled(s, BeginWrite(buf))
    ensures Inv(DoBeginWrite(s, buf))
  {
    var t := DoBeginWrite(s, buf);
    if s.writePos >= s.readPos { AheadPlan(s, buf); } else { GapPlan(s, buf); }
    ReaderUnmoved(s, t);
    SameStored(s, t);
  }

  lemma SameStored(s: State, t: State)
    requires Laps(s) && Laps(t) && Stored(s)
    requires t.mem == s.mem && t.accepted == s.accepted && t.consumed == s.consumed && t.readBase == s.readBase
    ensures Stored(t)
  {
    forall k | |t.consumed| <= k < |t.accepted|
      ensures t.mem[Slot(t, k)] == t.accepted[k]
    {
      assert Slot(t, k) == Slot(s, k);
    }
  }

  /** The slots being copied to hold no unread byte. */
  lemma CopyStored(s: State)
    requires Laps(s) && Stored(s) && s.writer.WCopy? && WriterInv(s)
    ensures Laps(DoWCopy(s)) && Stored(DoWCopy(s))
  {
    var t := DoWCopy(s);
    forall k | |t.consumed| <= k < |t.accepted|
      ensures t.mem[Slot(t, k)] == t.accepted[k]
    {
      assert Slot(t, k) == Slot(s, k);
      assert s.mem[Slot(s, k)] == s.accepted[k];
    }
  }

  lemma WCopyKeeps(s: State)
    requires Inv(s) && s.writer.WCopy?
    ensures Inv(DoWCopy(s))
  {
    var t := DoWCopy(s);
    CopyStored(s);
    assert t.mem[t.writePos..t.writePos + |s.writer.chunk|] == s.writer.chunk;
    ReaderUnmoved(s, t);
  }

  lemma AdvanceStored(s: State)
    requires Laps(s) && Stored(s) && s.writer.WAdvance? && WriterInv(s)
    ensures Laps(DoWAdvance(s)) && Stored(DoWAdvance(s))
  {
    var t := DoWAdvance(s);
    var c := s.writer;
    forall k | |t.consumed| <= k < |t.accepted|
      ensures t.mem[Slot(t, k)] == t.accepted[k]
    {
      assert Slot(t, k) == Slot(s, k);
      if k < |s.accepted| {
        assert s.mem[Slot(s, k)] == s.accepted[k];
      } else {
        var i := k - |s.accepted|;
        assert Slot(s, k) == s.writePos + i;
        assert s.mem[s.writePos..s.writePos + |c.chunk|][i] == c.chunk[i];
      }
    }
  }

  lemma AdvancePlan(s: State)
    requires Laps(s) && s.writer.WAdvance? && WriterInv(s)
    ensures WriterInv(DoWAdvance(s))
  {
    var t := DoWAdvance(s);
    var c := s.writer;
    assert t.accepted[c.w.from..] == s.accepted[c.w.from..] + c.chunk;
    assert s.accepted[c.w.from..] + c.chunk + [] == s.accepted[c.w.from..] + c.chunk;
  }

  lemma WAdvanceKeeps(s: State)
    requires Inv(s) && s.writer.WAdvance?
    ensures Inv(DoWAdvance(s))
  {
    AdvanceStored(s);
    AdvancePlan(s);
    ReaderUnmoved(s, DoWAdvance(s));
  }

  lemma WrapPlan(s: State)
    requires Laps(s) && s.writer.WWrap? && WriterInv(s)
    ensures Laps(DoWWrap(s)) && WriterInv(DoWWrap(s))
  {
    var t := DoWWrap(s);
    var done, rest := s.accepted[s.writer.w.from..], s.writer.rest;
    assert done + [] + rest == done + rest;
    if t.writer.WCopy? {
      var chunk := t.writer.chunk;
      assert chunk <= rest;
      assert done + chunk + [] == done + chunk <= done + rest;
    } else {
      assert done + [] + [] == done;
    }
  }

  lemma WWrapKeeps(s: State)
    requires Inv(s) && s.writer.WWrap?
    ensures Inv(DoWWrap(s))
  {
    WrapPlan(s);
    ReaderUnmoved(s, DoWWrap(s));
    SameStored(s, DoWWrap(s));
  }

  // ---- The reader ------------------------------------------------------------------------------

  lemma ReadPlan(s: State, len: nat)
    requires Laps(s) && ReadSoFar(s) && Enabled(s, BeginRead(len))
    ensures ReaderInv(DoBeginRead(s, len))
  {
  }

  lemma BeginReadKeeps(s: State, len: nat)
    requires Inv(s) && Enabled(s, BeginRead(len))
    ensures Inv(DoBeginRead(s, len))
  {
    ReadPlan(s, len);
    WriterUnmoved(s, DoBeginRead(s, len));
    SameStored(s, DoBeginRead(s, len));
  }

  lemma CopyReads(s: State)
    requires Laps(s) && Stored(s) && s.reader.RCopy? && ReaderInv(s)
    ensures ReaderInv(DoRCopy(s))
  {
    var n, chunk := s.reader.n, DoRCopy(s).reader.chunk;
    assert |chunk| == n;
    forall i | 0 <= i < n
      ensures chunk[i] == s.accepted[|s.consumed| + i]
    {
      assert Slot(s, |s.consumed| + i) == s.readPos + i;
      assert s.mem[Slot(s, |s.consumed| + i)] == s.accepted[|s.consumed| + i];
    }
  }

  lemma RCopyKeeps(s: State)
    requires Inv(s) && s.reader.RCopy?
    ensures Inv(DoRCopy(s))
  {
    CopyReads(s);
    WriterUnmoved(s, DoRCopy(s));
    SameStored(s, DoRCopy(s));
  }

  /** Fewer bytes are unread, and each stays in its slot. */
  lemma FewerStored(s: State, t: State)
    requires Laps(s) && Laps(t) && Stored(s)
    requires t.mem == s.mem && t.accepted == s.accepted && |t.consumed| >= |s.consumed|
    requires t.readBase == s.readBase || (t.readBase == s.readBase + |s.mem| && |t.consumed| == t.readBase)
    ensures Stored(t)
  {
    forall k | |t.consumed| <= k < |t.accepted|
      ensures t.mem[Slot(t, k)] == t.accepted[k]
    {
      assert Slot(t, k) == Slot(s, k);
      assert s.mem[Slot(s, k)] == s.accepted[k];
    }
  }

  lemma AdvanceReads(s: State)
    requires Laps(s) && ReadSoFar(s) && s.reader.RAdvance? && ReaderInv(s)
    ensures Laps(DoRAdvance(s)) && ReadSoFar(DoRAdvance(s)) && ReaderInv(DoRAdvance(s))
  {
  }

  lemma RAdvanceKeeps(s: State)
    requires Inv(s) && s.reader.RAdvance?
    ensures Inv(DoRAdvance(s))
  {
    AdvanceReads(s);
    FewerStored(s, DoRAdvance(s));
    WriterUnmoved(s, DoRAdvance(s));
  }

  lemma WrapReads(s: State)
    requires Laps(s) && s.reader.RWrap? && ReaderInv(s)
    ensures Laps(DoRWrap(s)) && ReaderInv(DoRWrap(s))
  {
  }

  lemma RWrapKeeps(s: State)
    requires Inv(s) && s.reader.RWrap?
    ensures Inv(DoRWrap(s))
  {
    WrapReads(s);
    FewerStored(s, DoRWrap(s));
    WriterUnmoved(s, DoRWrap(s));
  }

  lemma InvKept(s: State, e: Event)
    requires Inv(s) && Enabled(s, e)
    ensures Inv(Apply(s, e))
  {
    match e
    case BeginWrite(buf) => BeginWriteKeeps(s, buf);
    case Write =>
      if s.writer.WCopy? { WCopyKeeps(s); } else if s.writer.WAdvance? { WAdvanceKeeps(s); } else { WWrapKeeps(s); }
    case BeginRead(len) => BeginReadKeeps(s, len);
    case Read =>
      if s.reader.RCopy? { RCopyKeeps(s); } else if s.reader.RAdvance? { RAdvanceKeeps(s); } else { RWrapKeeps(s); }
  }

  lemma {:induction false} RunKeepsInv(s: State, es: seq<Event>, t: State)
    requires Inv(s) && Run(s, es, t)
    ensures Inv(t)
    decreases |es|
  {
    if es != [] {
      InvKept(s, es[0]);
      RunKeepsInv(Apply(s, es[0]), es[1..], t);
    }
  }

  lemma ReachedInv(t: State)
    requires Reached(t)
    ensures Inv(t)
  {
    var s, es :| IsInit(s) && Run(s, es, t);
    RunKeepsInv(s, es, t);
  }

  // ---- Theorems --------------------------------------------------------------------------------

  /** However the two threads interleave, the bytes read are the first of the bytes written, and at most the
      ring's size is unread. */
  lemma ReadsFollowWrites(t: State)
    requires Reached(t)
    ensures t.consumed <= t.accepted && |t.accepted| - |t.consumed| <= |t.mem| - 1
  {
    ReachedInv(t);
  }

  /** A finished write has appended the head of its buffer: all of it, or as much as was free, by the read
      position it sampled. */
  lemma WriteTakesWhatFits(t: State)
    requires Reached(t) && t.writer.WDone?
    ensures var w := t.writer.w;
      && w.from <= |t.accepted|
      && |t.accepted| - w.from == Min(|w.buf|, w.seen + (|t.mem| - 1) - w.from)
      && t.accepted[w.from..] == w.buf[..|t.accepted| - w.from]
  {
    ReachedInv(t);
    var w := t.writer.w;
    assert t.accepted[w.from..] + [] + [] == t.accepted[w.from..];
  }

  /** A finished read has taken the oldest bytes: as many as asked for, or all that were there, by the write
      position it sampled. */
  lemma ReadTakesWhatIsThere(t: State)
    requires Reached(t) && t.reader.RDone?
    ensures var r := t.reader.r;
      && r.from <= |t.consumed| <= |t.accepted|
      && t.consumed[r.from..] == t.accepted[r.from..|t.consumed|]
      && |t.consumed| - r.from == Min(r.len, r.seen - r.from)
  {
    ReachedInv(t);
  }

  /** The two positions are equal exactly when nothing is unread, except while the writer has wrapped and
      the reader still stands at the end. */
  lemma EqualPositionsMeanEmpty(t: State)
    requires Reached(t)
    ensures t.readPos == t.writePos <==>
            |t.accepted| == |t.consumed| && !(t.readPos == |t.mem| && t.writePos == 0)
  {
    ReachedInv(t);
  }

  // ---- A run in which an empty ring has different positions ------------------------------------

  lemma {:induction false} RunSnoc(r: State, es: seq<Event>, s: State, e: Event)
    requires Run(r, es, s) && Enabled(s, e)
    ensures Run(r, es + [e], Apply(s, e))
    decreases |es|
  {
    var more := es + [e];
    if es == [] {
      assert more[0] == e && more[1..] == [];
    } else {
      assert more[0] == es[0] && more[1..] == es[1..] + [e];
      RunSnoc(Apply(r, es[0]), es[1..], s, e);
    }
  }

  lemma ReachedNext(s: State, e: Event)
    requires Reached(s) && Enabled(s, e)
    ensures Reached(Apply(s, e))
  {
    var r, es :| IsInit(r) && Run(r, es, s);
    RunSnoc(r, es, s, e);
  }

  /** The writer puts one byte into an empty ring of one byte, up to the moment before it wraps. */
  lemma WriteOne(s: State, x: byte) returns (t: State)
    requires Reached(s) && |s.mem| == 2 && s.readPos == s.writePos < 2 && Enabled(s, BeginWrite([x]))
    ensures Reached(t) && |t.mem| == 2 && t.readPos == s.readPos && t.writePos == s.writePos + 1
    ensures t.writer.WWrap? && t.writer.rest == [] && t.reader == s.reader && t.consumed == s.consumed
    ensures |t.accepted| == |s.accepted| + 1
  {
    ReachedNext(s, BeginWrite([x]));
    var a := DoBeginWrite(s, [x]);
    assert a.writer.WCopy? && !a.writer.gap && a.writer.chunk == [x] && a.writer.rest == [];
    ReachedNext(a, Write);
    var b := DoWCopy(a);
    ReachedNext(b, Write);
    t := DoWAdvance(b);
  }

  lemma WrapOne(s: State) returns (t: State)
    requires Reached(s) && s.writer.WWrap? && s.writer.rest == []
    ensures Reached(t) && t.writer.WDone? && t.writePos == if s.writePos == |s.mem| then 0 else s.writePos
    ensures t.mem == s.mem && t.readPos == s.readPos && t.reader == s.reader
    ensures t.accepted == s.accepted && t.consumed == s.consumed
  {
    ReachedNext(s, Write);
    t := DoWWrap(s);
  }

  /** The reader takes the one byte there is. */
  lemma ReadOne(s: State) returns (t: State)
    requires Reached(s) && |s.mem| == 2 && s.writePos == s.readPos + 1 <= 2 && Enabled(s, BeginRead(1))
    ensures Reached(t) && t.reader.RDone? && t.readPos == s.writePos && t.writePos == s.writePos && t.mem == s.mem
    ensures t.writer == s.writer && t.accepted == s.accepted && |t.consumed| == |s.consumed| + 1
  {
    ReachedNext(s, BeginRead(1));
    var a := DoBeginRead(s, 1);
    assert a.reader.RCopy? && a.reader.low && a.reader.n == 1;
    ReachedNext(a, Read);
    var b := DoRCopy(a);
    ReachedNext(b, Read);
    t := DoRAdvance(b);
  }

  /** The reader catches up while the writer stands at the end, and then the writer wraps: the ring is empty,
      and the emptiness test says it is not. */
  lemma EmptyRingCanLookFilled()
    ensures exists t :: Reached(t) && t.writer.WDone? && t.reader.RDone? && t.accepted == t.consumed
              && t.readPos != t.writePos
  {
    var s := State([0, 0], 0, 0, WIdle, RIdle, 0, 0, [], []);
    assert Run(s, [], s);
    var a := WriteOne(s, 0);
    var b := WrapOne(a);
    var c := ReadOne(b);
    var d := WriteOne(c, 0);
    var e := ReadOne(d);
    var t := WrapOne(e);
    ReadsFollowWrites(t);
    assert t.accepted == t.consumed;
  }
}
