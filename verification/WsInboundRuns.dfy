/** Every run of the receiving side: frames arrive from the socket thread at any moment, while the
    scheduler delivers messages to a receiver that reads in pieces of any size. */
module WsInboundRuns {
  import opened Prelude
  import opened IoQueue
  import opened WsFrames
  import opened WsInbound

  datatype State = State(
    ready: seq<Buffer>,
    inprogress: seq<Buffer>,
    current: Option<Buffer>,
    tasks: nat,                    // pending delivery tasks
    delivering: bool,
    crashed: bool,                 // a delivery found no complete message
    // History
    received: seq<Wire>,           // frames in arrival order
    taken: nat,                    // how many of them left the ready list
    leftovers: seq<seq<byte>>,     // per delivery, what earlier receivers left unread
    offered: seq<seq<byte>>,       // per delivery, the stream offered to the receiver
    output: seq<byte>,             // what the present receiver has read
    cleared: nat,                  // delivery tasks cleared by connection resets
    orphaned: nat,                 // complete messages dropped by stream resets
    from: nat,                     // frames received by the last stream reset
    base: nat)                     // deliveries started by then

  datatype Event =
    | Receive(b: Buffer)
    | StartDelivery
    | Read(count: nat, after: Option<Buffer>, rest: seq<Buffer>)
    | EndDelivery
    | ConnectionReset
    | Drain

  function Init(): State
  {
    State([], [], None, 0, false, false, [], 0, [], [], [], 0, 0, 0, 0)
  }

  /** What a read of `count` bytes leaves of the stream, as StreamRead promises. */
  predicate Reads(s: State, count: nat, after: Option<Buffer>, rest: seq<Buffer>)
  {
    var stream := Remaining(s.current, s.inprogress);
    && GoodReading(after)
    && AllWhole(rest)
    && Later(s.current, s.inprogress, after, rest)
    && Remaining(after, rest) == stream[Min(count, |stream|)..]
  }

  predicate Enabled(s: State, e: Event)
  {
    && !s.crashed
    && match e
       case Receive(b) => Whole(b)
       case StartDelivery => !s.delivering && s.tasks > 0
       case Read(count, after, rest) => s.delivering && Reads(s, count, after, rest)
       case EndDelivery => s.delivering
       case ConnectionReset => !s.delivering
       case Drain => true
  }

  function DoReceive(s: State, b: Buffer): State
  {
    s.(ready := s.ready + [b], received := s.received + [Sent(b)],
       tasks := if b.kind == BinaryMsg then s.tasks + 1 else s.tasks)
  }

  function DoStart(s: State): State
    requires s.tasks > 0
  {
    if LastCount(s.ready) == 0 then s.(crashed := true) else
    var n := FirstMessage(s.ready);
    s.(ready := s.ready[n..], inprogress := s.inprogress + s.ready[..n], tasks := s.tasks - 1, delivering := true,
       taken := s.taken + n,
       leftovers := s.leftovers + [Bytes(s.inprogress)],
       offered := s.offered + [Bytes(s.inprogress + s.ready[..n])],
       output := [])
  }

  function DoRead(s: State, count: nat, after: Option<Buffer>, rest: seq<Buffer>): State
  {
    var stream := Remaining(s.current, s.inprogress);
    s.(current := after, inprogress := rest, output := s.output + stream[..Min(count, |stream|)])
  }

  function DoEnd(s: State): State
  {
    s.(current := None, delivering := false)
  }

  /** A reset clears every task of the connection, pending deliveries included. */
  function DoReset(s: State): State
  {
    s.(tasks := 0, cleared := s.cleared + s.tasks)
  }

  /** A reset of either stream drops everything ready to be received. (It also drops the outbound current
      buffer, which is a step of the sending side.) */
  function DoDrain(s: State): State
  {
    s.(ready := [], orphaned := s.orphaned + LastCount(s.ready), taken := |s.received|,
       from := |s.received|, base := |s.offered|)
  }

  function Apply(s: State, e: Event): State
    requires Enabled(s, e)
  {
    match e
    case Receive(b) => DoReceive(s, b)
    case StartDelivery => DoStart(s)
    case Read(count, after, rest) => DoRead(s, count, after, rest)
    case EndDelivery => DoEnd(s)
    case ConnectionReset => DoReset(s)
    case Drain => DoDrain(s)
  }

  ghost predicate Run(s: State, es: seq<Event>, t: State)
    decreases |es|
  {
    if es == [] then s == t else Enabled(s, es[0]) && Run(Apply(s, es[0]), es[1..], t)
  }

  ghost predicate Reached(t: State)
  {
    exists es :: Run(Init(), es, t)
  }

  // ---- Invariants ------------------------------------------------------------------------------

  /** Complete messages that are ready, or were dropped, are the deliveries pending or cleared. A delivery
      without a message needs a message dropped. */
  predicate TaskInv(s: State)
  {
    && LastCount(s.ready) + s.orphaned == s.tasks + s.cleared
    && (s.crashed ==> LastCount(s.ready) == 0 < s.tasks)
  }

  /** Since the last stream reset, what left the ready list is a whole number of messages; each was offered
      after what was left over. */
  predicate MessageInv(s: State)
  {
    && Waiting(s.received, s.taken, s.ready)
    && s.from <= s.taken && s.base <= |s.offered| && |s.leftovers| == |s.offered|
    && OnBoundary(s.received[s.from..s.taken])
    && OfferedAfter(Parse(s.received[s.from..s.taken]).messages, s.leftovers[s.base..], s.offered[s.base..])
  }

  /** The ready list holds the received frames from `taken` on. */
  predicate Waiting(received: seq<Wire>, taken: nat, ready: seq<Buffer>)
  {
    && taken + |ready| == |received|
    && forall k :: 0 <= k < |ready| ==> received[taken + k] == Sent(ready[k])
  }

  predicate OfferedAfter(messages: seq<seq<byte>>, leftovers: seq<seq<byte>>, offered: seq<seq<byte>>)
  {
    && |messages| == |offered| == |leftovers|
    && forall k :: 0 <= k < |messages| ==> offered[k] == leftovers[k] + messages[k]
  }

  predicate Suffix(a: seq<byte>, b: seq<byte>)
  {
    |a| <= |b| && a == b[|b| - |a|..]
  }

  function LastOffered(s: State): seq<byte>
  {
    if s.offered == [] then [] else s.offered[|s.offered| - 1]
  }

  /** The present receiver has read a prefix of the stream it was offered. What the next one will find left
      over, and what each found, is the end of the stream before. */
  predicate StreamInv(s: State)
  {
    && GoodReading(s.current) && AllWhole(s.inprogress) && AllWhole(s.ready)
    && (s.delivering ==> s.offered != [] && s.output + Remaining(s.current, s.inprogress) == LastOffered(s))
    && (!s.delivering ==> s.current.None?)
    && Suffix(Bytes(s.inprogress), LastOffered(s))
  }

  predicate LeftInv(s: State)
  {
    && |s.leftovers| == |s.offered|
    && forall k :: 0 <= k < |s.offered| ==> Suffix(s.leftovers[k], if k == 0 then [] else s.offered[k - 1])
  }

  lemma TaskKept(s: State, e: Event)
    requires Enabled(s, e) && TaskInv(s)
    ensures TaskInv(Apply(s, e))
  {
    if e.Receive? {
      LastCountConcat(s.ready, [e.b]);
      assert LastCount([e.b]) == if e.b.kind == BinaryMsg then 1 else 0;
    }
  }

  lemma MessageReceive(s: State, b: Buffer)
    requires MessageInv(s)
    ensures MessageInv(DoReceive(s, b))
  {
    assert (s.received + [Sent(b)])[s.from..s.taken] == s.received[s.from..s.taken];
  }

  lemma MessageDrain(s: State)
    requires MessageInv(s)
    ensures MessageInv(DoDrain(s))
  {
    var n := |s.received|;
    assert s.received[n..n] == [];
    assert s.offered[|s.offered|..] == [] && s.leftovers[|s.offered|..] == [];
  }

  /** The frames up to the first that ends a message parse into that one message. */
  lemma FirstMessageParses(bs: seq<Buffer>)
    requires LastCount(bs) > 0
    ensures Parse(SentAll(bs[..FirstMessage(bs)])) == Parsed([Bytes(bs[..FirstMessage(bs)])], [])
    ensures OnBoundary(SentAll(bs[..FirstMessage(bs)]))
  {
    var n := FirstMessage(bs);
    TakeOneMore(bs, n - 1);
    LastFrame(bs[..n], bs[..n - 1], bs[n - 1]);
  }

  lemma TakeOneMore(bs: seq<Buffer>, k: nat)
    requires k < |bs|
    ensures bs[..k + 1] == bs[..k] + [bs[k]]
  {
  }

  lemma LastFrame(whole: seq<Buffer>, init: seq<Buffer>, last: Buffer)
    requires whole == init + [last] && last.kind == BinaryMsg && forall b :: b in init ==> b.kind != BinaryMsg
    ensures Parse(SentAll(whole)) == Parsed([Bytes(whole)], [])
    ensures OnBoundary(SentAll(whole))
  {
    SentSnoc(init, last);
    ParseSnoc(SentAll(init), Sent(last));
    FragmentsParse(init);
    BytesConcat(init, [last]);
    assert Bytes([last]) == last.data;
    OneMessageParsed(Parse(SentAll(init)), Bytes(init), last.data);
  }

  lemma OneMessageParsed(p: Parsed, bytes: seq<byte>, data: seq<byte>)
    requires p == Parsed([], bytes)
    ensures Parsed(p.messages + [p.tail + data], []) == Parsed([bytes + data], [])
  {
  }

  lemma SentSnoc(init: seq<Buffer>, last: Buffer)
    ensures SentAll(init + [last]) == SentAll(init) + [Sent(last)]
  {
  }

  lemma MessageStart(s: State)
    requires MessageInv(s) && s.tasks > 0 && LastCount(s.ready) > 0
    ensures MessageInv(DoStart(s))
  {
    var n := FirstMessage(s.ready);
    var message := s.ready[..n];
    var t := DoStart(s);
    FirstMessageParses(s.ready);
    TakenParses(s.received, s.from, s.taken, s.ready, n);
    BytesConcat(s.inprogress, message);
    OfferedSnoc(Parse(s.received[s.from..s.taken]).messages, s.leftovers[s.base..], s.offered[s.base..],
      Bytes(message), Bytes(s.inprogress));
    SliceSnoc(s.leftovers, s.base, Bytes(s.inprogress));
    SliceSnoc(s.offered, s.base, Bytes(s.inprogress + message));
  }

  lemma SliceSnoc(xs: seq<seq<byte>>, n: nat, x: seq<byte>)
    requires n <= |xs|
    ensures (xs + [x])[n..] == xs[n..] + [x]
  {
  }

  lemma OfferedSnoc(messages: seq<seq<byte>>, leftovers: seq<seq<byte>>, offered: seq<seq<byte>>, m: seq<byte>, l: seq<byte>)
    requires OfferedAfter(messages, leftovers, offered)
    ensures OfferedAfter(messages + [m], leftovers + [l], offered + [l + m])
  {
  }

  /** Taking the frames of one more message adds that message. */
  lemma TakenParses(received: seq<Wire>, from: nat, taken: nat, ready: seq<Buffer>, n: nat)
    requires Waiting(received, taken, ready) && 1 <= n <= |ready| && from <= taken
    requires OnBoundary(received[from..taken]) && OnBoundary(SentAll(ready[..n]))
    ensures Waiting(received, taken + n, ready[n..])
    ensures OnBoundary(received[from..taken + n])
    ensures Parse(received[from..taken + n]).messages
         == Parse(received[from..taken]).messages + Parse(SentAll(ready[..n])).messages
  {
    var a, b := received[from..taken], SentAll(ready[..n]);
    TakenSplit(received, from, taken, ready, n);
    BoundaryHasNoTail(a);
    ParseConcat(a, b);
    assert OnBoundary(a + b);
  }

  lemma TakenSplit(received: seq<Wire>, from: nat, taken: nat, ready: seq<Buffer>, n: nat)
    requires Waiting(received, taken, ready) && n <= |ready| && from <= taken
    ensures received[from..taken + n] == received[from..taken] + SentAll(ready[..n])
    ensures Waiting(received, taken + n, ready[n..])
  {
    forall k | 0 <= k < n
      ensures received[taken + k] == SentAll(ready[..n])[k]
    {
    }
  }

  lemma MessageKept(s: State, e: Event)
    requires Enabled(s, e) && MessageInv(s)
    ensures MessageInv(Apply(s, e))
  {
    match e
    case Receive(b) => MessageReceive(s, b);
    case StartDelivery => if LastCount(s.ready) > 0 { MessageStart(s); }
    case Drain => MessageDrain(s);
    case _ =>
  }

  lemma StreamStart(s: State)
    requires StreamInv(s) && s.tasks > 0 && LastCount(s.ready) > 0 && !s.delivering
    ensures StreamInv(DoStart(s))
  {
    var n := FirstMessage(s.ready);
    var whole := Bytes(s.inprogress + s.ready[..n]);
    assert Remaining(None, s.inprogress + s.ready[..n]) == whole;
    assert [] + whole == whole;
  }

  lemma StreamRead(s: State, count: nat, after: Option<Buffer>, rest: seq<Buffer>)
    requires StreamInv(s) && s.delivering && Reads(s, count, after, rest)
    ensures StreamInv(DoRead(s, count, after, rest))
  {
    var stream := Remaining(s.current, s.inprogress);
    var held := if after.Some? then after.value.Unread() else [];
    ReadSplits(s.output, stream, Min(count, |stream|), held, Bytes(rest));
  }

  /** After `n` bytes of a stream were read, of which `end` is the end of what remains. */
  lemma ReadSplits(output: seq<byte>, stream: seq<byte>, n: nat, held: seq<byte>, end: seq<byte>)
    requires n <= |stream| && held + end == stream[n..]
    ensures (output + stream[..n]) + (held + end) == output + stream
    ensures Suffix(end, output + stream)
  {
    assert stream == stream[..n] + stream[n..];
    Assoc(output, stream[..n], stream[n..]);
  }

  lemma StreamKept(s: State, e: Event)
    requires Enabled(s, e) && StreamInv(s)
    ensures StreamInv(Apply(s, e))
  {
    match e
    case StartDelivery => if LastCount(s.ready) > 0 { StreamStart(s); }
    case Read(count, after, rest) => StreamRead(s, count, after, rest);
    case _ => StreamOthers(s, e);
  }

  lemma StreamOthers(s: State, e: Event)
    requires Enabled(s, e) && StreamInv(s) && !e.StartDelivery? && !e.Read?
    ensures StreamInv(Apply(s, e))
  {
  }

  lemma LeftKept(s: State, e: Event)
    requires Enabled(s, e) && StreamInv(s) && LeftInv(s)
    ensures LeftInv(Apply(s, e))
  {
  }

  predicate Inv(s: State)
  {
    TaskInv(s) && MessageInv(s) && StreamInv(s) && LeftInv(s)
  }

  lemma InvKept(s: State, e: Event)
    requires Enabled(s, e) && Inv(s)
    ensures Inv(Apply(s, e))
  {
    TaskKept(s, e);
    MessageKept(s, e);
    StreamKept(s, e);
    LeftKept(s, e);
  }

  lemma {:induction false} RunKeepsInv(s: State, es: seq<Event>, t: State)
    requires Run(s, es, t) && Inv(s)
    ensures Inv(t)
    decreases |es|
  {
    if es != [] {
      InvKept(s, es[0]);
      RunKeepsInv(Apply(s, es[0]), es[1..], t);
    }
  }

  lemma InitInv()
    ensures Inv(Init())
  {
  }

  lemma FromInit(s: State, t: State)
    requires Inv(s) && exists es :: Run(s, es, t)
    ensures Inv(t)
  {
    var es :| Run(s, es, t);
    RunKeepsInv(s, es, t);
  }

  lemma ReachedInv(t: State)
    requires Reached(t)
    ensures Inv(t)
  {
    InitInv();
    FromInit(Init(), t);
  }

  // ---- Theorems over all runs ------------------------------------------------------------------

  /** A delivery finds a complete message in the ready list, unless a stream reset dropped one. */
  lemma DeliveryFindsMessage(t: State)
    requires Reached(t) && t.orphaned == 0
    ensures !t.crashed
    ensures t.tasks > 0 ==> LastCount(t.ready) > 0
  {
    ReachedInv(t);
  }

  /** However the peer framed its messages and whatever sizes receivers read in: each stream offered is what
      was left over followed by the next message, and what was left over is the end of the stream before. */
  lemma LeftoverPrecedesNextMessage(t: State, k: nat)
    requires Reached(t) && t.base + k < |t.offered|
    ensures t.from <= |t.received| && |t.leftovers| == |t.offered|
    ensures k < |Parse(t.received[t.from..]).messages|
    ensures t.offered[t.base + k] == t.leftovers[t.base + k] + Parse(t.received[t.from..]).messages[k]
    ensures Suffix(t.leftovers[t.base + k], if t.base + k == 0 then [] else t.offered[t.base + k - 1])
  {
    ReachedInv(t);
    OfferedAt(t, k);
  }

  lemma OfferedAt(t: State, k: nat)
    requires MessageInv(t) && t.base + k < |t.offered|
    ensures k < |Parse(t.received[t.from..]).messages|
    ensures t.offered[t.base + k] == t.leftovers[t.base + k] + Parse(t.received[t.from..]).messages[k]
  {
    TakenPrefix(t);
    var ms, ls, os := Parse(t.received[t.from..t.taken]).messages, t.leftovers[t.base..], t.offered[t.base..];
    assert os[k] == ls[k] + ms[k];
  }

  lemma TakenPrefix(t: State)
    requires MessageInv(t)
    ensures Parse(t.received[t.from..t.taken]).messages <= Parse(t.received[t.from..]).messages
  {
    ParsePrefix(t.received[t.from..], t.taken - t.from);
    assert t.received[t.from..][..t.taken - t.from] == t.received[t.from..t.taken];
  }

  /** So the streams offered are the messages received, in order, exactly when nothing was ever left over. */
  lemma StreamsAreMessages(t: State)
    requires Reached(t)
    ensures t.from <= |t.received| && t.base <= |t.offered| == |t.leftovers|
    ensures t.offered[t.base..] <= Parse(t.received[t.from..]).messages <==>
            forall k :: t.base <= k < |t.leftovers| ==> t.leftovers[k] == []
  {
    ReachedInv(t);
    TakenPrefix(t);
    var ms, ls, os := Parse(t.received[t.from..t.taken]).messages, t.leftovers[t.base..], t.offered[t.base..];
    OfferedPlain(ms, ls, os);
    SameLengthPrefixes(os, ms, Parse(t.received[t.from..]).messages);
    EmptyFrom(t.leftovers, t.base);
  }

  lemma SameLengthPrefixes(a: seq<seq<byte>>, b: seq<seq<byte>>, whole: seq<seq<byte>>)
    requires |a| == |b| && b <= whole
    ensures a <= whole <==> a == b
  {
  }

  lemma EmptyFrom(xs: seq<seq<byte>>, n: nat)
    requires n <= |xs|
    ensures (forall k :: 0 <= k < |xs[n..]| ==> xs[n..][k] == []) <==> (forall k :: n <= k < |xs| ==> xs[k] == [])
  {
    forall k | n <= k < |xs|
      ensures xs[k] == xs[n..][k - n]
    {
    }
  }

  lemma OfferedPlain(ms: seq<seq<byte>>, ls: seq<seq<byte>>, os: seq<seq<byte>>)
    requires OfferedAfter(ms, ls, os)
    ensures os == ms <==> forall k :: 0 <= k < |ls| ==> ls[k] == []
  {
    if os == ms {
      forall k | 0 <= k < |ls|
        ensures ls[k] == []
      {
        assert os[k] == ls[k] + ms[k];
        assert |os[k]| == |ls[k]| + |ms[k]|;
      }
    } else {
      var k :| 0 <= k < |ms| && os[k] != ms[k];
      assert ls[k] != [] by { assert [] + ms[k] == ms[k]; }
    }
  }

  /** The present receiver has read a prefix of its stream, and all of it once nothing remains. */
  lemma ReceiverReadsItsStream(t: State)
    requires Reached(t) && t.delivering
    ensures t.output <= LastOffered(t)
    ensures Remaining(t.current, t.inprogress) == [] <==> t.output == LastOffered(t)
  {
    ReachedInv(t);
  }

  /** A receiver that stops leaves the frames behind the one it stopped in to the next one; of that frame the
      unread rest is lost, and nothing else is. */
  lemma StoppingDropsOneFrame(t: State)
    requires Reached(t) && Enabled(t, EndDelivery)
    ensures t.current.Some? ==> t.current.value.readOffset <= |t.current.value.data|
    ensures var u := Apply(t, EndDelivery);
      LastOffered(t) == t.output + (if t.current.Some? then t.current.value.data[t.current.value.readOffset..] else [])
                        + Bytes(u.inprogress)
  {
    ReachedInv(t);
    Assoc(t.output, if t.current.Some? then t.current.value.Unread() else [], Bytes(t.inprogress));
  }

  /** Over all runs, complete messages ready or dropped by stream resets are as many as deliveries pending or
      cleared by connection resets. */
  lemma DeliveriesAreAccounted(t: State)
    requires Reached(t)
    ensures LastCount(t.ready) + t.orphaned == t.tasks + t.cleared
  {
    ReachedInv(t);
  }

  // ---- Where the guarantees end ----------------------------------------------------------------

  predicate NoDrain(es: seq<Event>)
  {
    forall e :: e in es ==> !e.Drain?
  }

  ghost predicate Crashes(s: State, es: seq<Event>, t: State)
  {
    Run(s, es, t) && NoDrain(es) && t.crashed
  }

  /** A stream reset lets a delivery find no message exactly when one is pending. */
  lemma DrainIsSafe(s: State)
    requires Reached(s) && !s.crashed
    ensures (exists es, t :: Crashes(DoDrain(s), es, t)) <==> s.tasks > 0
  {
    var d := DoDrain(s);
    if s.tasks > 0 {
      var e := if d.delivering then DoEnd(d) else d;
      var t := DoStart(e);
      OneStep(e, StartDelivery);
      if d.delivering {
        Cons(d, EndDelivery, [StartDelivery], t);
        assert Crashes(d, [EndDelivery] + [StartDelivery], t);
      } else {
        assert Crashes(d, [StartDelivery], t);
      }
    } else {
      forall es, t
        ensures !Crashes(d, es, t)
      {
        if Run(d, es, t) && NoDrain(es) { NoDrainNoCrash(d, es, t); }
      }
    }
  }

  lemma OneStep(s: State, e: Event)
    requires Enabled(s, e)
    ensures Run(s, [e], Apply(s, e))
  {
    assert [e][1..] == [];
    assert Run(Apply(s, e), [], Apply(s, e));
  }

  lemma Cons(s: State, e: Event, es: seq<Event>, t: State)
    requires Enabled(s, e) && Run(Apply(s, e), es, t)
    ensures Run(s, [e] + es, t)
  {
    assert ([e] + es)[1..] == es;
  }

  lemma {:induction false} NoDrainNoCrash(s: State, es: seq<Event>, t: State)
    requires Run(s, es, t) && NoDrain(es) && !s.crashed && s.tasks <= LastCount(s.ready)
    ensures !t.crashed
    decreases |es|
  {
    if es != [] {
      var e := es[0];
      if e.Receive? { LastCountConcat(s.ready, [e.b]); }
      NoDrainNoCrash(Apply(s, e), es[1..], t);
    }
  }

  /** From the stream after `s` on, each stream is what was left over and the next message the peer sent. */
  predicate LaterStreams(s: State, t: State)
  {
    && |t.leftovers| == |t.offered|
    && forall k :: 0 <= k < |t.offered| - |s.offered| ==> LaterStream(s, t, k)
  }

  predicate LaterStream(s: State, t: State, k: nat)
    requires |t.leftovers| == |t.offered| && k < |t.offered| - |s.offered|
  {
    var i, j := |s.offered| + k, |Parse(s.received).messages| + k;
    j < |Parse(t.received).messages| && t.offered[i] == t.leftovers[i] + Parse(t.received).messages[j]
  }

  ghost predicate Continues(s: State, es: seq<Event>, t: State)
  {
    Run(DoDrain(s), es, t) && NoDrain(es)
  }

  /** A stream reset keeps the later streams equal to the later messages, in every continuation, exactly when
      no bytes of a message still to be completed have arrived; unless the run drained before, those are the
      bytes at the end of the ready list. */
  lemma DrainKeepsLaterMessages(s: State)
    requires Reached(s) && !s.crashed
    ensures (forall es, t :: Continues(s, es, t) ==> LaterStreams(s, t)) <==> Parse(s.received).tail == []
    ensures s.from == 0 ==> Parse(s.received).tail == Parse(SentAll(s.ready)).tail
  {
    ReachedInv(s);
    OpenTail(s);
    if Parse(s.received).tail == [] {
      forall es, t | Continues(s, es, t)
        ensures LaterStreams(s, t)
      {
        assert Apply(s, Drain) == DoDrain(s);
        InvKept(s, Drain);
        RunKeepsInv(DoDrain(s), es, t);
        RunKeepsSegment(DoDrain(s), es, t);
        SegmentIsLater(s, t);
      }
    } else {
      HeadlessStream(s);
    }
  }

  lemma OpenTail(s: State)
    requires MessageInv(s)
    ensures Parse(s.received[s.from..]).tail == Parse(SentAll(s.ready)).tail
    ensures s.from == 0 ==> s.received[s.from..] == s.received
  {
    var a, b := s.received[s.from..s.taken], SentAll(s.ready);
    assert s.received[s.from..] == a + b;
    BoundaryHasNoTail(a);
    ParseConcat(a, b);
  }

  lemma {:induction false} RunKeepsSegment(s: State, es: seq<Event>, t: State)
    requires Run(s, es, t) && NoDrain(es)
    ensures t.from == s.from && t.base == s.base && s.received <= t.received
    decreases |es|
  {
    if es != [] {
      assert !es[0].Drain?;
      RunKeepsSegment(Apply(s, es[0]), es[1..], t);
    }
  }

  lemma SegmentIsLater(s: State, t: State)
    requires MessageInv(t) && t.from == |s.received| && t.base == |s.offered| && s.received <= t.received
    requires Parse(s.received).tail == []
    ensures LaterStreams(s, t)
  {
    var later := t.received[t.from..];
    assert t.received == s.received + later;
    ParseConcat(s.received, later);
    forall k | 0 <= k < |t.offered| - |s.offered|
      ensures LaterStream(s, t, k)
    {
      OfferedAt(t, k);
    }
  }

  /** The last frame of a message, with one byte. */
  function Ending(x: byte): Buffer
  {
    Buffer(0, [x], 1, 0, BinaryMsg, Ok, None)
  }

  lemma EndsAMessage(x: byte)
    ensures var bs := [Ending(x)];
      LastCount(bs) == 1 && FirstMessage(bs) == 1 && Bytes(bs) == [x] && bs[..1] == bs && bs[1..] == []
  {
    var bs := [Ending(x)];
    assert bs[1..] == [];
    assert LastCount(bs) == 1;
    assert bs[0].data + [] == [x];
  }

  /** After a reset in the middle of a message, its last frame alone is offered as a message. */
  lemma HeadlessStream(s: State)
    requires !s.crashed && Parse(s.received).tail != [] && |s.leftovers| == |s.offered|
    ensures exists es, t :: Continues(s, es, t) && !LaterStreams(s, t)
  {
    var d := DoDrain(s);
    var e := if d.delivering then DoEnd(d) else d;
    var r := DoReceive(e, Ending(0));
    var t := DoStart(r);
    OneStep(r, StartDelivery);
    Cons(e, Receive(Ending(0)), [StartDelivery], t);
    var es := [Receive(Ending(0))] + [StartDelivery];
    if d.delivering {
      Cons(d, EndDelivery, es, t);
      es := [EndDelivery] + es;
    }
    assert Continues(s, es, t);
    HeadIsMissing(s, e, t);
  }

  lemma HeadIsMissing(s: State, e: State, t: State)
    requires e.ready == [] && e.received == s.received && e.offered == s.offered && e.leftovers == s.leftovers
    requires |s.leftovers| == |s.offered| && Parse(s.received).tail != []
    requires t == DoStart(DoReceive(e, Ending(0)))
    ensures !LaterStreams(s, t)
  {
    var b := Ending(0);
    assert [] + [b] == [b];
    EndsAMessage(0);
    ParseSnoc(s.received, Sent(b));
    BytesConcat(e.inprogress, [b]);
    var n := |s.offered|;
    assert t.offered[n] == Bytes(e.inprogress) + [0] && t.leftovers[n] == Bytes(e.inprogress);
    assert |t.offered[n]| == |t.leftovers[n]| + 1;
    assert Parse(t.received).messages[|Parse(s.received).messages|] == Parse(s.received).tail + [0];
    assert !LaterStream(s, t, 0);
  }

  // ---- Runs in which they do end ---------------------------------------------------------------

  lemma {:induction false} RunSnoc(r: State, es: seq<Event>, s: State, e: Event)
    requires Run(r, es, s) && Enabled(s, e)
    ensures Run(r, es + [e], Apply(s, e))
    decreases |es|
  {
    var more := es + [e];
    if es == [] {
      assert more[0] == e && more[1..] == [];
    } else {
      assert more[0] == es[0] && more[1..] == es[1..] + [e];
      RunSnoc(Apply(r, es[0]), es[1..], s, e);
    }
  }

  lemma ReachedNext(s: State, e: Event)
    requires Reached(s) && Enabled(s, e)
    ensures Reached(Apply(s, e))
  {
    RunsOn(Init(), s, e);
  }

  lemma RunsOn(r: State, s: State, e: Event)
    requires (exists es :: Run(r, es, s)) && Enabled(s, e)
    ensures exists es :: Run(r, es, Apply(s, e))
  {
    var es :| Run(r, es, s);
    RunSnoc(r, es, s, e);
  }

  /** One whole message has arrived. */
  lemma MessageArrived(x: byte) returns (s: State)
    ensures Reached(s) && s == Init().(ready := [Ending(x)], received := [Sent(Ending(x))], tasks := 1)
    ensures LastCount(s.ready) == 1
  {
    assert Run(Init(), [], Init());
    ReachedNext(Init(), Receive(Ending(x)));
    s := DoReceive(Init(), Ending(x));
    assert [] + [Ending(x)] == [Ending(x)];
    EndsAMessage(x);
  }

  /** A connection reset leaves a complete message without delivery. */
  lemma ResetForgetsDeliveries()
    ensures exists t :: Reached(t) && LastCount(t.ready) == 1 && t.tasks == 0 && !t.delivering
  {
    var s := MessageArrived(0);
    ReachedNext(s, ConnectionReset);
    assert LastCount(Apply(s, ConnectionReset).ready) == 1;
  }

  /** A stream reset makes a delivery fail. */
  lemma DrainCanCrash()
    ensures exists t :: Reached(t) && t.crashed
  {
    var s := MessageArrived(0);
    ReachedNext(s, Drain);
    var d := DoDrain(s);
    ReachedNext(d, StartDelivery);
    assert DoStart(d).crashed;
  }

  /** A fragment of an open message has arrived, and no message. */
  lemma DrainCanBehead()
    ensures exists s :: Reached(s) && s.tasks == 0 && exists es, t :: Continues(s, es, t) && !LaterStreams(s, t)
  {
    var b := Ending(1).(kind := BinaryFragment);
    assert Run(Init(), [], Init());
    ReachedNext(Init(), Receive(b));
    var s := DoReceive(Init(), b);
    ParseSnoc([], Sent(b));
    assert [] + [Sent(b)] == [Sent(b)];
    assert Parse(s.received).tail == [1];
    HeadlessStream(s);
  }

  /** A receiver that reads nothing leaves its message in front of the next. */
  lemma LeftoverCanPrecede()
    ensures exists t :: Reached(t) && t.from == 0 && t.offered == [[1], [1, 2]]
              && Parse(t.received).messages == [[1], [2]]
  {
    var s := FirstLeftOver();
    ReachedNext(s, Receive(Ending(2)));
    var r := DoReceive(s, Ending(2));
    assert r.ready == [Ending(2)];
    ReachedNext(r, StartDelivery);
    SecondOffered(r);
    ParseSnoc(s.received, Sent(Ending(2)));
    var m: seq<byte> := [] + [2];
    assert m == [2];
    assert Parse(r.received).messages == [[1]] + [m];
    var t := DoStart(r);
    assert t.received == r.received && t.from == 0;
  }

  lemma SecondOffered(r: State)
    requires r.ready == [Ending(2)] && r.inprogress == [Ending(1)] && r.offered == [[1]] && r.tasks > 0
    ensures DoStart(r).offered == [[1], [1, 2]]
  {
    EndsAMessage(1);
    EndsAMessage(2);
    BytesConcat([Ending(1)], [Ending(2)]);
    var m: seq<byte> := [1] + [2];
    assert m == [1, 2];
    assert DoStart(r).offered == [[1]] + [m];
  }

  lemma FirstLeftOver() returns (s: State)
    ensures Reached(s) && s.inprogress == [Ending(1)] && s.ready == [] && s.offered == [[1]] && s.from == 0
    ensures s.tasks == 0 && !s.delivering && !s.crashed && s.received == [Sent(Ending(1))]
    ensures Parse(s.received) == Parsed([[1]], [])
  {
    var a := MessageArrived(1);
    ReachedNext(a, StartDelivery);
    FirstOffered(a);
    var d := DoStart(a);
    ReachedNext(d, EndDelivery);
    s := DoEnd(d);
    LastFrame([Ending(1)], [], Ending(1));
    assert SentAll([Ending(1)]) == s.received;
    EndsAMessage(1);
  }

  lemma FirstOffered(a: State)
    requires a == Init().(ready := [Ending(1)], received := [Sent(Ending(1))], tasks := 1)
    ensures var d := DoStart(a);
      && d.inprogress == [Ending(1)] && d.ready == [] && d.offered == [[1]] && d.tasks == 0 && d.delivering
      && !d.crashed && d.received == a.received && d.from == 0
  {
    EndsAMessage(1);
    var b := Ending(1);
    var n := FirstMessage(a.ready);
    assert n == 1 && a.ready[..n] == [b] && a.ready[n..] == [];
    assert [] + [b] == [b];
  }
}
