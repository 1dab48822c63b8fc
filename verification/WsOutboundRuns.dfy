/** Every run of the sending side. The scheduler (writing, flushing, reporting, disconnecting) and the
    socket thread (begin and end of a send) interleave at each step that takes the queue lock. */
module WsOutboundRuns {
  import opened Prelude
  import opened Completion
  import opened IoQueue
  import opened WsFrames
  import opened WsOutbound

  datatype State = State(
    current: Option<Buffer>,     // buffer being filled
    nextId: nat,
    ready: seq<Buffer>,
    handed: Option<Buffer>,      // buffer between begin and end of a send
    inprogress: seq<Buffer>,
    sweeping: bool,              // the end of a send is moving everything in progress to done
    moving: Option<Buffer>,      // the buffer it has popped and not pushed yet
    done: seq<Buffer>,
    calls: seq<Call>,
    freed: bool,
    // History
    sends: nat,                  // completion callbacks registered so far, numbered from 0
    results: map<nat, Code>,     // by callback, how the latest send of its frame ended
    created: seq<Wire>,          // frames in the order they were queued
    delivered: seq<Wire>,        // frames reported and released
    messages: seq<seq<byte>>,    // messages flushed so far
    open: seq<byte>,             // written since, and not dropped by a stream reset
    epoch: nat,                  // how many frames precede the present connection
    wire: seq<Wire>,             // frames handed out on the present connection
    aligned: bool,               // whether that is a number of whole messages
    clean: bool)                 // no rollback has cut the moving of a completed message

  datatype Event =
    | Write(bytes: seq<byte>, fs: seq<Buffer>, after: Option<Buffer>, id: nat)
    | Flush(hasCb: bool)
    | CompleteNow(code: Code, hasCb: bool)
    | ResetStream
    | BeginSend
    | EndSend(code: Code)
    | SweepPop
    | SweepPush
    | SweepEnd
    | Deliver
    | Rollback
    | RemoteDrop
    | Abort
    | Free

  function Init(): State
  {
    State(None, 0, [], None, [], false, None, [], [], false, 0, map[], [], [], [], [], 0, [], true, true)
  }

  /** The socket holds no buffer of this stream. */
  predicate SocketIdle(s: State)
  {
    s.handed.None? && !s.sweeping
  }

  predicate Enabled(s: State, e: Event)
  {
    && !s.freed
    && match e
       case Write(bytes, fs, after, id) => Framing(s.current, bytes, fs, after) && Numbering(s.current, fs, after, s.nextId, id)
       case Flush(_) => s.current.Some?
       case CompleteNow(_, _) => true
       case ResetStream => true
       case BeginSend => SocketIdle(s) && s.ready != []
       case EndSend(_) => s.handed.Some?
       case SweepPop => s.sweeping && s.moving.None? && s.inprogress != []
       case SweepPush => s.moving.Some?
       case SweepEnd => s.sweeping && s.moving.None? && s.inprogress == []
       case Deliver => s.done != []
       case Rollback => s.handed.None?
       case RemoteDrop => SocketIdle(s)
       case Abort => true
       case Free => SocketIdle(s)
  }

  function Registered(s: State, hasCb: bool): Option<nat>
  {
    if hasCb then Some(s.sends) else None
  }

  // Positions of the lists in the line of all frames
  function Finished(s: State): nat { |s.delivered| + |s.done| }
  function InProgressAt(s: State): nat { Finished(s) + |Opt(s.moving)| }
  function HandedAt(s: State): nat { InProgressAt(s) + |s.inprogress| }
  function ReadyAt(s: State): nat { HandedAt(s) + |Opt(s.handed)| }

  function DoWrite(s: State, bytes: seq<byte>, fs: seq<Buffer>, after: Option<Buffer>, id: nat): State
  {
    s.(current := after, nextId := id, ready := s.ready + fs,
       created := s.created + SentAll(fs), open := s.open + bytes)
  }

  /** The send returns: its last buffer is queued with the completion callback. */
  function DoFlush(s: State, hasCb: bool): State
    requires s.current.Some?
  {
    var last := s.current.value.(kind := BinaryMsg, cb := Registered(s, hasCb));
    s.(current := None, ready := s.ready + [last], created := s.created + [Sent(last)],
       sends := if hasCb then s.sends + 1 else s.sends,
       messages := s.messages + [s.open], open := [])
  }

  /** The send failed or wrote nothing: its callback runs at once. */
  function DoCompleteNow(s: State, code: Code, hasCb: bool): State
  {
    s.(calls := s.calls + Calls(Opt(Registered(s, hasCb)), code), sends := if hasCb then s.sends + 1 else s.sends)
  }

  /** A stream reset drops the current buffer only. */
  function DoReset(s: State): State
  {
    var kept := if |Written(s.current)| <= |s.open| then |s.open| - |Written(s.current)| else 0;
    s.(current := None, open := s.open[..kept])
  }

  function DoBeginSend(s: State): State
    requires s.ready != []
  {
    s.(handed := Some(s.ready[0]), ready := s.ready[1..], wire := s.wire + [Sent(s.ready[0])])
  }

  function DoEndSend(s: State, code: Code): State
    requires s.handed.Some?
  {
    var b := s.handed.value.(code := code);
    s.(handed := None, inprogress := s.inprogress + [b], sweeping := code == Ok && b.kind == BinaryMsg,
       results := if b.cb.Some? then s.results[b.cb.value := code] else s.results)
  }

  function DoSweepPop(s: State): State
    requires s.inprogress != []
  {
    s.(moving := Some(s.inprogress[0]), inprogress := s.inprogress[1..])
  }

  function DoSweepPush(s: State): State
    requires s.moving.Some?
  {
    s.(done := s.done + [s.moving.value], moving := None)
  }

  function DoDeliver(s: State): State
    requires s.done != []
  {
    s.(done := s.done[1..], delivered := s.delivered + [Sent(s.done[0])],
       calls := s.calls + Completions([s.done[0]]))
  }

  /** The last frame moved out of progress so far, if any, ended a message. */
  predicate Ends(s: State)
  {
    if s.moving.Some? then s.moving.value.kind == BinaryMsg
    else if s.done != [] then s.done[|s.done| - 1].kind == BinaryMsg
    else OnBoundary(s.delivered)
  }

  /** The scheduler rolls back; the socket thread may be between two rounds of moving a message to done. */
  function DoRollback(s: State): State
  {
    s.(ready := s.inprogress + s.ready, inprogress := [],
       epoch := InProgressAt(s), wire := [], aligned := Ends(s), clean := s.clean && (s.sweeping ==> Ends(s)))
  }

  /** The last frame in progress, or with none in progress the last one moved, ended a message. */
  predicate AllEnds(s: State)
  {
    if s.inprogress == [] then Ends(s) else s.inprogress[|s.inprogress| - 1].kind == BinaryMsg
  }

  /** The peer closes the connection: nothing is rolled back. */
  function DoRemoteDrop(s: State): State
  {
    s.(epoch := HandedAt(s), wire := [], aligned := AllEnds(s))
  }

  function DoAbort(s: State): State
  {
    s.(done := Detached(s.done), inprogress := Detached(s.inprogress), ready := Detached(s.ready),
       calls := s.calls + Aborts(s.done) + Aborts(s.inprogress) + Aborts(s.ready))
  }

  function DoFree(s: State): State
  {
    s.(current := None, done := [], inprogress := [], ready := [], freed := true,
       calls := s.calls + Aborts(s.done) + Aborts(s.inprogress) + Aborts(s.ready))
  }

  function Apply(s: State, e: Event): State
    requires Enabled(s, e)
  {
    match e
    case Write(bytes, fs, after, id) => DoWrite(s, bytes, fs, after, id)
    case Flush(hasCb) => DoFlush(s, hasCb)
    case CompleteNow(code, hasCb) => DoCompleteNow(s, code, hasCb)
    case ResetStream => DoReset(s)
    case BeginSend => DoBeginSend(s)
    case EndSend(code) => DoEndSend(s, code)
    case SweepPop => DoSweepPop(s)
    case SweepPush => DoSweepPush(s)
    case SweepEnd => s.(sweeping := false)
    case Deliver => DoDeliver(s)
    case Rollback => DoRollback(s)
    case RemoteDrop => DoRemoteDrop(s)
    case Abort => DoAbort(s)
    case Free => DoFree(s)
  }

  ghost predicate Run(s: State, es: seq<Event>, t: State)
    decreases |es|
  {
    if es == [] then s == t else Enabled(s, es[0]) && Run(Apply(s, es[0]), es[1..], t)
  }

  /** Some run from the start leads to `t`. */
  ghost predicate Reached(t: State)
  {
    exists es :: Run(Init(), es, t)
  }

  // ---- Order of frames -------------------------------------------------------------------------

  /** All frames from the oldest reported to the youngest ready one. */
  function Line(s: State): seq<Wire>
  {
    s.delivered + SentAll(s.done) + SentAll(Opt(s.moving)) + SentAll(s.inprogress) + SentAll(Opt(s.handed))
      + SentAll(s.ready)
  }

  /** The buffers are the frames of `ws` from position `at` on. */
  predicate Holds(ws: seq<Wire>, at: nat, bs: seq<Buffer>)
  {
    && at + |bs| <= |ws|
    && forall k :: 0 <= k < |bs| ==> ws[at + k] == Sent(bs[k])
  }

  /** A message ends just before position `n`. */
  predicate BoundaryAt(ws: seq<Wire>, n: nat)
  {
    n <= |ws| && (n > 0 ==> ws[n - 1].last)
  }

  predicate Placed(s: State)
  {
    && s.delivered <= s.created
    && Holds(s.created, |s.delivered|, s.done)
    && (s.moving.Some? ==> Finished(s) < |s.created| && s.created[Finished(s)] == Sent(s.moving.value))
    && Holds(s.created, InProgressAt(s), s.inprogress)
    && (s.handed.Some? ==> HandedAt(s) < |s.created| && s.created[HandedAt(s)] == Sent(s.handed.value))
    && Holds(s.created, ReadyAt(s), s.ready)
    && ReadyAt(s) + |s.ready| == |s.created|
  }

  /** What is reported or done ends with a message, except while a completed message is being moved, or after
      a rollback cut that short. */
  predicate Bounded(s: State)
  {
    && (if s.sweeping then s.handed.None? else s.moving.None?)
    && (s.sweeping && s.inprogress != [] ==> BoundaryAt(s.created, HandedAt(s)))
    && (s.clean ==> BoundaryAt(s.created, if s.sweeping then HandedAt(s) else Finished(s)))
  }

  lemma EndsIsBoundary(s: State)
    requires Placed(s)
    ensures Ends(s) <==> BoundaryAt(s.created, InProgressAt(s))
  {
    var n := InProgressAt(s);
    if s.moving.None? && s.done != [] {
      assert s.created[|s.delivered| + (|s.done| - 1)] == Sent(s.done[|s.done| - 1]);
    }
  }

  lemma AllEndsIsBoundary(s: State)
    requires Placed(s)
    ensures AllEnds(s) <==> BoundaryAt(s.created, HandedAt(s))
  {
    EndsIsBoundary(s);
    var n := |s.inprogress|;
    if n > 0 {
      assert s.created[InProgressAt(s) + (n - 1)] == Sent(s.inprogress[n - 1]);
    }
  }

  /** The present connection has carried the frames from `epoch` on, in order. */
  predicate Carried(s: State)
  {
    && s.epoch + |s.wire| == ReadyAt(s) <= |s.created|
    && (forall k :: 0 <= k < |s.wire| ==> s.wire[k] == s.created[s.epoch + k])
    && (s.aligned <==> BoundaryAt(s.created, s.epoch))
  }

  /** A message ends at position `n`, or at or behind it. */
  predicate EndsBehind(ws: seq<Wire>, n: nat)
  {
    BoundaryAt(ws, n) || exists k :: n <= k < |ws| && ws[k].last
  }

  /** The message of the last frame moved is complete among the frames queued. */
  predicate MovedIsComplete(s: State)
  {
    s.freed || EndsBehind(s.created, InProgressAt(s))
  }

  lemma EndsBehindMore(ws: seq<Wire>, more: seq<Wire>, n: nat)
    requires EndsBehind(ws, n) && ws <= more
    ensures EndsBehind(more, n)
  {
    if !BoundaryAt(ws, n) {
      var k :| n <= k < |ws| && ws[k].last;
      assert more[k].last;
    }
  }

  lemma EndBehindPop(s: State)
    requires Placed(s) && Bounded(s) && s.sweeping && s.moving.None? && s.inprogress != []
    ensures EndsBehind(s.created, InProgressAt(DoSweepPop(s)))
  {
    var k := HandedAt(s) - 1;
    assert s.created[k].last;
  }

  /** Only taking the next frame of a complete message moves the position; frames are only added. */
  lemma PlaceKept(s: State, e: Event)
    requires Enabled(s, e) && !Apply(s, e).freed && !e.SweepPop?
    ensures InProgressAt(Apply(s, e)) == InProgressAt(s) && s.created <= Apply(s, e).created
  {
  }

  lemma MovedKept(s: State, e: Event)
    requires Enabled(s, e) && LineInv(s) && MovedIsComplete(s)
    ensures MovedIsComplete(Apply(s, e))
  {
    if e.SweepPop? {
      EndBehindPop(s);
    } else if !Apply(s, e).freed {
      PlaceKept(s, e);
      EndsBehindMore(s.created, Apply(s, e).created, InProgressAt(s));
    }
  }

  predicate LineInv(s: State)
  {
    if s.freed then s.done == s.inprogress == s.ready == [] && s.moving.None? && s.handed.None?
    else Placed(s) && Bounded(s) && Carried(s)
  }

  lemma LineWrite(s: State, bytes: seq<byte>, fs: seq<Buffer>, after: Option<Buffer>, id: nat)
    requires LineInv(s) && !s.freed
    ensures LineInv(DoWrite(s, bytes, fs, after, id))
  {
  }

  lemma LineFlush(s: State, hasCb: bool)
    requires LineInv(s) && !s.freed && s.current.Some?
    ensures LineInv(DoFlush(s, hasCb))
  {
  }

  lemma LineBeginSend(s: State)
    requires LineInv(s) && !s.freed && s.ready != [] && SocketIdle(s)
    ensures LineInv(DoBeginSend(s))
  {
  }

  lemma LineEndSend(s: State, code: Code)
    requires LineInv(s) && !s.freed && s.handed.Some?
    ensures LineInv(DoEndSend(s, code))
  {
  }

  lemma LineSweepPop(s: State)
    requires LineInv(s) && !s.freed && s.inprogress != [] && s.sweeping && s.moving.None?
    ensures LineInv(DoSweepPop(s))
  {
  }

  lemma LineSweepPush(s: State)
    requires LineInv(s) && !s.freed && s.moving.Some?
    ensures LineInv(DoSweepPush(s))
  {
  }

  lemma LineDeliver(s: State)
    requires LineInv(s) && !s.freed && s.done != []
    ensures LineInv(DoDeliver(s))
  {
  }

  lemma LineRollback(s: State)
    requires LineInv(s) && !s.freed && s.handed.None?
    ensures LineInv(DoRollback(s))
  {
    EndsIsBoundary(s);
    RollbackPlaced(s);
  }

  lemma RollbackPlaced(s: State)
    requires Placed(s) && (s.handed.None? || s.inprogress == [])
    ensures Placed(DoRollback(s))
  {
    var r := DoRollback(s);
    forall k | 0 <= k < |r.ready|
      ensures s.created[ReadyAt(r) + k] == Sent(r.ready[k])
    {
      if k < |s.inprogress| {
        assert s.created[InProgressAt(s) + k] == Sent(s.inprogress[k]);
      } else {
        assert s.created[ReadyAt(s) + (k - |s.inprogress|)] == Sent(s.ready[k - |s.inprogress|]);
      }
    }
  }

  predicate SameFrames(a: seq<Buffer>, b: seq<Buffer>)
  {
    |a| == |b| && forall i :: 0 <= i < |a| ==> Sent(a[i]) == Sent(b[i])
  }

  /** Steps that change no frame and move none. */
  lemma LineQuiet(s: State, t: State)
    requires LineInv(s)
    requires SameFrames(s.done, t.done) && SameFrames(s.inprogress, t.inprogress) && SameFrames(s.ready, t.ready)
    requires s.delivered == t.delivered && s.created == t.created && s.moving == t.moving && s.handed == t.handed
    requires s.sweeping == t.sweeping && !s.freed && !t.freed
    requires s.epoch == t.epoch && s.wire == t.wire && s.aligned == t.aligned && s.clean == t.clean
    ensures LineInv(t)
  {
  }

  lemma DetachedFrames(bs: seq<Buffer>)
    ensures SameFrames(bs, Detached(bs))
  {
  }

  lemma LineAbort(s: State)
    requires LineInv(s) && !s.freed
    ensures LineInv(DoAbort(s))
  {
    DetachedFrames(s.done);
    DetachedFrames(s.inprogress);
    DetachedFrames(s.ready);
    LineQuiet(s, DoAbort(s));
  }

  lemma LineRemoteDrop(s: State)
    requires LineInv(s) && !s.freed && SocketIdle(s)
    ensures LineInv(DoRemoteDrop(s))
  {
    AllEndsIsBoundary(s);
  }

  lemma LineSweepEnd(s: State)
    requires LineInv(s) && !s.freed && s.sweeping && s.moving.None? && s.inprogress == []
    ensures LineInv(s.(sweeping := false))
  {
  }

  lemma LineKept(s: State, e: Event)
    requires Enabled(s, e) && LineInv(s)
    ensures LineInv(Apply(s, e))
  {
    match e
    case Write(bytes, fs, after, id) => LineWrite(s, bytes, fs, after, id);
    case Flush(hasCb) => LineFlush(s, hasCb);
    case BeginSend => LineBeginSend(s);
    case EndSend(code) => LineEndSend(s, code);
    case SweepPop => LineSweepPop(s);
    case SweepPush => LineSweepPush(s);
    case SweepEnd => LineSweepEnd(s);
    case Deliver => LineDeliver(s);
    case Rollback => LineRollback(s);
    case RemoteDrop => LineRemoteDrop(s);
    case Abort => LineAbort(s);
    case CompleteNow(_, _) => LineQuiet(s, Apply(s, e));
    case ResetStream => LineQuiet(s, Apply(s, e));
    case Free =>
  }

  // ---- Content and numbering of frames ---------------------------------------------------------

  predicate Framed(ws: seq<Wire>)
  {
    forall w :: w in ws ==> if w.last then 1 <= |w.data| <= FRAME_SIZE else |w.data| == FRAME_SIZE
  }

  predicate Increasing(ws: seq<Wire>, bound: nat)
  {
    && (forall i, j :: 0 <= i < j < |ws| ==> ws[i].id < ws[j].id)
    && (forall i :: 0 <= i < |ws| ==> ws[i].id < bound)
  }

  /** The queued frames parse into the flushed messages; what is written since is the open message. */
  predicate Content(current: Option<Buffer>, created: seq<Wire>, messages: seq<seq<byte>>, open: seq<byte>)
  {
    && GoodCurrent(current)
    && Framed(created)
    && Parse(created).messages == messages
    && Parse(created).tail + Written(current) == open
  }

  predicate Ids(current: Option<Buffer>, created: seq<Wire>, nextId: nat)
  {
    && (current.Some? ==> current.value.id + 1 == nextId)
    && Increasing(created, if current.Some? then current.value.id else nextId)
  }

  predicate ContentInv(s: State)
  {
    && (!s.freed ==> Content(s.current, s.created, s.messages, s.open))
    && Ids(s.current, s.created, s.nextId)
  }

  lemma ContentWrite(current: Option<Buffer>, created: seq<Wire>, messages: seq<seq<byte>>, open: seq<byte>,
                     bytes: seq<byte>, fs: seq<Buffer>, after: Option<Buffer>)
    requires Content(current, created, messages, open) && Framing(current, bytes, fs, after)
    ensures Content(after, created + SentAll(fs), messages, open + bytes)
  {
    var tail := Parse(created).tail;
    calc {
      Parse(created + SentAll(fs)).tail + Written(after);
    ==  { ParseFragments(created, fs); }
      (tail + Bytes(fs)) + Written(after);
    ==  { Assoc(tail, Bytes(fs), Written(after)); }
      tail + (Written(current) + bytes);
    ==  { Assoc(tail, Written(current), bytes); }
      open + bytes;
    }
    ParseFragments(created, fs);
  }

  lemma ContentFlush(b: Buffer, created: seq<Wire>, messages: seq<seq<byte>>, open: seq<byte>, cb: Option<nat>)
    requires Content(Some(b), created, messages, open)
    ensures Content(None, created + [Sent(b.(kind := BinaryMsg, cb := cb))], messages + [open], [])
  {
    ParseSnoc(created, Sent(b.(kind := BinaryMsg, cb := cb)));
  }

  lemma ContentReset(s: State)
    requires ContentInv(s) && !s.freed
    ensures ContentInv(DoReset(s)) && DoReset(s).open == Parse(s.created).tail
  {
    assert (Parse(s.created).tail + Written(s.current))[..|Parse(s.created).tail|] == Parse(s.created).tail;
  }

  lemma IdsWrite(current: Option<Buffer>, created: seq<Wire>, id: nat, fs: seq<Buffer>, after: Option<Buffer>, id': nat)
    requires Ids(current, created, id) && Numbering(current, fs, after, id, id')
    ensures Ids(after, created + SentAll(fs), id')
  {
  }

  lemma ContentKept(s: State, e: Event)
    requires Enabled(s, e) && ContentInv(s)
    ensures ContentInv(Apply(s, e))
  {
    match e
    case Write(bytes, fs, after, id) =>
      ContentWrite(s.current, s.created, s.messages, s.open, bytes, fs, after);
      IdsWrite(s.current, s.created, s.nextId, fs, after, id);
    case Flush(hasCb) => ContentFlush(s.current.value, s.created, s.messages, s.open, Registered(s, hasCb));
    case ResetStream => ContentReset(s);
    case _ =>
  }

  // ---- Completion callbacks --------------------------------------------------------------------

  function Cbs(bs: seq<Buffer>): multiset<nat>
  {
    multiset(Callbacks(bs))
  }

  lemma CbsConcat(a: seq<Buffer>, b: seq<Buffer>)
    ensures Cbs(a + b) == Cbs(a) + Cbs(b)
  {
    CallbacksConcat(a, b);
  }

  lemma CbsHead(bs: seq<Buffer>)
    requires bs != []
    ensures Cbs(bs) == Cbs([bs[0]]) + Cbs(bs[1..])
  {
    assert bs == [bs[0]] + bs[1..];
    CbsConcat([bs[0]], bs[1..]);
  }

  lemma RanCompletion(b: Buffer)
    ensures Ran(Completions([b])) == Cbs([b])
  {
    assert Completions([b]) == Calls(Opt(b.cb), b.code);
    assert Callbacks([b]) == Opt(b.cb);
    RanCalls(Opt(b.cb), b.code);
  }

  /** Callbacks still attached to some buffer. */
  function Pending(s: State): multiset<nat>
  {
    Sum(Cbs(s.done), Cbs(Opt(s.moving)), Cbs(s.inprogress), Cbs(Opt(s.handed)), Cbs(s.ready))
  }

  function Sum(a: multiset<nat>, b: multiset<nat>, c: multiset<nat>, d: multiset<nat>, e: multiset<nat>): multiset<nat>
  {
    a + b + c + d + e
  }

  /** Taking `x` out of a sum, wherever it is. */
  lemma Regroup(a: multiset<nat>, b: multiset<nat>, c: multiset<nat>, d: multiset<nat>, e: multiset<nat>, x: multiset<nat>)
    ensures Sum(a + x, b, c, d, e) == Sum(x + a, b, c, d, e) == Sum(a, b, c, d, e) + x
    ensures Sum(a, b + x, c, d, e) == Sum(a, b, c, d, e) + x
    ensures Sum(a, b, c + x, d, e) == Sum(a, b, x + c, d, e) == Sum(a, b, c, d, e) + x
    ensures Sum(a, b, c, d + x, e) == Sum(a, b, c, d, e) + x
    ensures Sum(a, b, c, d, e + x) == Sum(a, b, c, d, x + e) == Sum(a, b, c, d, e) + x
  {
  }

  /** Each registered callback has either run, once, or is attached to one buffer. */
  predicate CallbackInv(s: State)
  {
    Ran(s.calls) + Pending(s) == Numbers(s.sends)
  }

  lemma CallbackFlush(s: State, hasCb: bool)
    requires CallbackInv(s) && s.current.Some?
    ensures CallbackInv(DoFlush(s, hasCb))
  {
    var cb := Registered(s, hasCb);
    var last := s.current.value.(kind := BinaryMsg, cb := cb);
    var x := multiset(Opt(cb));
    var t := DoFlush(s, hasCb);
    FlushPending(s, last, x);
    calc {
      Ran(t.calls) + Pending(t);
      Ran(s.calls) + (Pending(s) + x);
    ==  { AddRight(Ran(s.calls), Pending(s), Numbers(s.sends), x); }
      Numbers(s.sends) + x;
    ==  { MoreNumbers(s.sends, cb); }
      Numbers(t.sends);
    }
  }

  lemma FlushPending(s: State, last: Buffer, x: multiset<nat>)
    requires x == multiset(Opt(last.cb))
    ensures Sum(Cbs(s.done), Cbs(Opt(s.moving)), Cbs(s.inprogress), Cbs(Opt(s.handed)), Cbs(s.ready + [last]))
         == Pending(s) + x
  {
    CbsConcat(s.ready, [last]);
    SingleCallback(last);
    Regroup(Cbs(s.done), Cbs(Opt(s.moving)), Cbs(s.inprogress), Cbs(Opt(s.handed)), Cbs(s.ready), x);
  }

  lemma SingleCallback(b: Buffer)
    ensures Callbacks([b]) == Opt(b.cb)
  {
  }

  lemma CallbackWrite(s: State, bytes: seq<byte>, fs: seq<Buffer>, after: Option<Buffer>, id: nat)
    requires CallbackInv(s) && FullFragments(fs)
    ensures CallbackInv(DoWrite(s, bytes, fs, after, id))
  {
    CbsConcat(s.ready, fs);
    NoCallbacks(fs);
    assert Cbs(s.ready + fs) == Cbs(s.ready);
  }

  lemma {:induction false} NoCallbacks(fs: seq<Buffer>)
    requires forall f :: f in fs ==> f.cb.None?
    ensures Callbacks(fs) == []
  {
    if fs != [] {
      NoCallbacks(fs[1..]);
    }
  }

  lemma CallbackCompleteNow(s: State, code: Code, hasCb: bool)
    requires CallbackInv(s)
    ensures CallbackInv(DoCompleteNow(s, code, hasCb))
  {
    CallbackCompleted(s, DoCompleteNow(s, code, hasCb), Registered(s, hasCb), code);
  }

  lemma CallbackCompleted(s: State, t: State, cb: Option<nat>, code: Code)
    requires CallbackInv(s) && (cb.None? || cb == Some(s.sends)) && Pending(t) == Pending(s)
    requires t.calls == s.calls + Calls(Opt(cb), code) && t.sends == s.sends + |Opt(cb)|
    ensures CallbackInv(t)
  {
    var x := multiset(Opt(cb));
    calc {
      Ran(t.calls) + Pending(t);
    ==  { RanConcat(s.calls, Calls(Opt(cb), code)); RanCalls(Opt(cb), code); }
      (Ran(s.calls) + x) + Pending(s);
    ==  { AddLeft(Ran(s.calls), Pending(s), Numbers(s.sends), x); }
      Numbers(s.sends) + x;
    ==  { MoreNumbers(s.sends, cb); }
      Numbers(t.sends);
    }
  }

  lemma CallbackBeginSend(s: State)
    requires s.ready != [] && s.handed.None?
    ensures Pending(DoBeginSend(s)) == Pending(s)
  {
    var x := Cbs([s.ready[0]]);
    CbsHead(s.ready);
    Regroup(Cbs(s.done), Cbs(Opt(s.moving)), Cbs(s.inprogress), multiset{}, Cbs(s.ready[1..]), x);
    assert multiset{} + x == x;
  }

  lemma CallbackEndSend(s: State, code: Code)
    requires s.handed.Some?
    ensures Pending(DoEndSend(s, code)) == Pending(s)
  {
    var b := s.handed.value.(code := code);
    CbsConcat(s.inprogress, [b]);
    SingleCallback(b);
    SingleCallback(s.handed.value);
    var x := Cbs([b]);
    Regroup(Cbs(s.done), Cbs(Opt(s.moving)), Cbs(s.inprogress), multiset{}, Cbs(s.ready), x);
    assert multiset{} + x == x;
  }

  lemma CallbackSweepPop(s: State)
    requires s.inprogress != [] && s.moving.None?
    ensures Pending(DoSweepPop(s)) == Pending(s)
  {
    var x := Cbs([s.inprogress[0]]);
    CbsHead(s.inprogress);
    Regroup(Cbs(s.done), multiset{}, Cbs(s.inprogress[1..]), Cbs(Opt(s.handed)), Cbs(s.ready), x);
    assert multiset{} + x == x;
  }

  lemma CallbackSweepPush(s: State)
    requires s.moving.Some?
    ensures Pending(DoSweepPush(s)) == Pending(s)
  {
    var x := Cbs([s.moving.value]);
    CbsConcat(s.done, [s.moving.value]);
    Regroup(Cbs(s.done), multiset{}, Cbs(s.inprogress), Cbs(Opt(s.handed)), Cbs(s.ready), x);
    assert multiset{} + x == x;
  }

  lemma CallbackDeliver(s: State)
    requires CallbackInv(s) && s.done != []
    ensures CallbackInv(DoDeliver(s))
  {
    var x := Cbs([s.done[0]]);
    CbsHead(s.done);
    RanCompletion(s.done[0]);
    RanConcat(s.calls, Completions([s.done[0]]));
    Regroup(Cbs(s.done[1..]), Cbs(Opt(s.moving)), Cbs(s.inprogress), Cbs(Opt(s.handed)), Cbs(s.ready), x);
  }

  lemma CallbackRollback(s: State)
    ensures Pending(DoRollback(s)) == Pending(s)
  {
    CbsConcat(s.inprogress, s.ready);
    var x := Cbs(s.inprogress);
    Regroup(Cbs(s.done), Cbs(Opt(s.moving)), multiset{}, Cbs(Opt(s.handed)), Cbs(s.ready), x);
    assert multiset{} + x == x;
  }

  /** Aborting or freeing runs exactly the callbacks of the three lists. */
  lemma RanAborts(s: State)
    ensures Ran(s.calls + Aborts(s.done) + Aborts(s.inprogress) + Aborts(s.ready))
         == Ran(s.calls) + Cbs(s.done) + Cbs(s.inprogress) + Cbs(s.ready)
  {
    RanCalls(Callbacks(s.done), Aborted);
    RanCalls(Callbacks(s.inprogress), Aborted);
    RanCalls(Callbacks(s.ready), Aborted);
    RanConcat(s.calls, Aborts(s.done));
    RanConcat(s.calls + Aborts(s.done), Aborts(s.inprogress));
    RanConcat(s.calls + Aborts(s.done) + Aborts(s.inprogress), Aborts(s.ready));
  }

  lemma CallbackAbort(s: State)
    requires CallbackInv(s)
    ensures CallbackInv(DoAbort(s)) && CallbackInv(DoFree(s))
  {
    RanAborts(s);
    ThreeMoved(Ran(s.calls), Cbs(s.done), Cbs(Opt(s.moving)), Cbs(s.inprogress), Cbs(Opt(s.handed)), Cbs(s.ready));
  }

  lemma ThreeMoved(ran: multiset<nat>, a: multiset<nat>, b: multiset<nat>, c: multiset<nat>, d: multiset<nat>, e: multiset<nat>)
    ensures (ran + a + c + e) + Sum(multiset{}, b, multiset{}, d, multiset{}) == ran + Sum(a, b, c, d, e)
  {
  }

  lemma CallbackKept(s: State, e: Event)
    requires Enabled(s, e) && CallbackInv(s)
    ensures CallbackInv(Apply(s, e))
  {
    match e
    case Write(bytes, fs, after, id) => CallbackWrite(s, bytes, fs, after, id);
    case Flush(hasCb) => CallbackFlush(s, hasCb);
    case CompleteNow(code, hasCb) => CallbackCompleteNow(s, code, hasCb);
    case BeginSend => CallbackBeginSend(s);
    case EndSend(code) => CallbackEndSend(s, code);
    case SweepPop => CallbackSweepPop(s);
    case SweepPush => CallbackSweepPush(s);
    case Deliver => CallbackDeliver(s);
    case Rollback => CallbackRollback(s);
    case Abort => CallbackAbort(s);
    case Free => CallbackAbort(s);
    case _ =>
  }

  /** The rounds that follow the end of a message's last send move everything in progress to done. */
  lemma {:induction false} SweepRuns(s: State) returns (es: seq<Event>)
    requires !s.freed && s.sweeping && s.moving.None?
    ensures Run(s, es, s.(done := s.done + s.inprogress, inprogress := [], sweeping := false))
    decreases |s.inprogress|
  {
    var t := s.(done := s.done + s.inprogress, inprogress := [], sweeping := false);
    if s.inprogress == [] {
      es := [SweepEnd];
      assert s.done + s.inprogress == s.done;
      assert Run(t, es[1..], t);
    } else {
      var s1 := Apply(s, SweepPop);
      var s2 := Apply(s1, SweepPush);
      assert s2.done + s2.inprogress == s.done + s.inprogress;
      var es' := SweepRuns(s2);
      es := [SweepPop] + ([SweepPush] + es');
      assert ([SweepPush] + es')[1..] == es' && es[1..] == [SweepPush] + es';
      assert Run(s1, [SweepPush] + es', t);
    }
  }

  // ---- Theorems over all runs ------------------------------------------------------------------

  predicate Inv(s: State)
  {
    LineInv(s) && MovedIsComplete(s) && ContentInv(s) && CallbackInv(s)
  }

  lemma InvKept(s: State, e: Event)
    requires Enabled(s, e) && Inv(s)
    ensures Inv(Apply(s, e))
  {
    LineKept(s, e);
    MovedKept(s, e);
    ContentKept(s, e);
    CallbackKept(s, e);
  }

  lemma {:induction false} RunKeepsInv(s: State, es: seq<Event>, t: State)
    requires Run(s, es, t) && Inv(s)
    ensures Inv(t)
    decreases |es|
  {
    if es != [] {
      InvKept(s, es[0]);
      RunKeepsInv(Apply(s, es[0]), es[1..], t);
    }
  }

  lemma ReachedInv(t: State)
    requires Reached(t)
    ensures Inv(t)
  {
    var es :| Run(Init(), es, t);
    assert Inv(Init());
    RunKeepsInv(Init(), es, t);
  }

  lemma ReachedLine(t: State)
    requires Reached(t) && !t.freed
    ensures Placed(t) && Bounded(t) && Carried(t) && EndsBehind(t.created, InProgressAt(t))
    ensures Framed(t.created) && Parse(t.created).messages == t.messages
  {
    ReachedInv(t);
  }

  lemma LineIsCreated(s: State)
    requires Placed(s)
    ensures Line(s) == s.created
    ensures s.delivered + SentAll(s.done) == s.created[..Finished(s)]
  {
    var a := s.delivered + SentAll(s.done);
    assert a == s.created[..Finished(s)];
    var b := a + SentAll(Opt(s.moving));
    assert b == s.created[..InProgressAt(s)];
    var c := b + SentAll(s.inprogress);
    assert c == s.created[..HandedAt(s)];
    var d := c + SentAll(Opt(s.handed));
    assert d == s.created[..ReadyAt(s)];
    assert d + SentAll(s.ready) == s.created;
  }

  /** Frames are never lost, duplicated or reordered: reported, done, in progress, handed out and ready
      buffers are the queued frames in order. What is finished ends with a whole message, unless a rollback
      cut the moving of one. */
  lemma FramesStayInOrder(t: State)
    requires Reached(t) && !t.freed
    ensures Line(t) == t.created
    ensures t.clean && !t.sweeping ==> OnBoundary(t.delivered + SentAll(t.done))
  {
    ReachedLine(t);
    LineIsCreated(t);
    assert t.clean && !t.sweeping ==> OnBoundary(t.created[..Finished(t)]);
  }

  /** The frames of a run are 4096-byte fragments and last frames of 1 to 4096 bytes, and they parse
      into exactly the messages that were flushed. */
  lemma FramesCarryMessages(t: State)
    requires Reached(t) && !t.freed
    ensures Framed(t.created)
    ensures Parse(Line(t)).messages == t.messages
    ensures Parse(Line(t)).tail + Written(t.current) == t.open
  {
    ReachedInv(t);
    LineIsCreated(t);
  }

  /** The messages whose frames have all moved out of progress. */
  function MovedMessages(s: State): seq<seq<byte>>
  {
    Parse(s.delivered + SentAll(s.done) + SentAll(Opt(s.moving))).messages
  }

  lemma MovedFrames(s: State)
    requires Placed(s)
    ensures s.delivered + SentAll(s.done) + SentAll(Opt(s.moving)) == s.created[..InProgressAt(s)]
  {
    var a := s.delivered + SentAll(s.done);
    assert a == s.created[..Finished(s)];
    assert a + SentAll(Opt(s.moving)) == s.created[..InProgressAt(s)];
  }

  lemma ReadyFrames(s: State)
    requires Placed(s)
    ensures SentAll(s.ready) == s.created[ReadyAt(s)..]
  {
  }

  lemma RolledBackFrames(s: State)
    requires Placed(s) && s.handed.None?
    ensures SentAll(DoRollback(s).ready) == s.created[InProgressAt(s)..]
    ensures s.delivered + SentAll(s.done) + SentAll(Opt(s.moving)) == s.created[..InProgressAt(s)]
  {
    MovedFrames(s);
    RollbackPlaced(s);
    var r := DoRollback(s);
    ReadyFrames(r);
    assert ReadyAt(r) == InProgressAt(s);
  }

  /** After a rollback, what is ready parses into exactly the messages not moved out of progress, in order,
      exactly when the last frame moved ended a message. While no rollback cut a move, that is always so
      between two moves. */
  lemma RollbackResendsWholeMessages(t: State)
    requires Reached(t) && !t.freed && t.handed.None?
    ensures MovedMessages(t) + Parse(SentAll(DoRollback(t).ready)).messages == t.messages <==> Ends(t)
    ensures t.clean && !t.sweeping ==> Ends(t)
  {
    ReachedLine(t);
    RolledBackFrames(t);
    EndsIsBoundary(t);
    ParseAtAnyPoint(t.created, InProgressAt(t));
  }

  lemma {:induction false} LastFrameEnds(ws: seq<Wire>, k: nat)
    requires k < |ws| && ws[k].last
    ensures Parse(ws).messages != []
    decreases |ws|
  {
    var n := |ws| - 1;
    assert ws == ws[..n] + [ws[n]];
    ParseSnoc(ws[..n], ws[n]);
    if k < n { LastFrameEnds(ws[..n], k); }
  }

  /** A frame sequence with a message end at or behind some point can be parsed in two parts there exactly when
      it is a boundary. */
  lemma ParseAtAnyPoint(ws: seq<Wire>, n: nat)
    requires Framed(ws) && n <= |ws| && EndsBehind(ws, n)
    ensures Parse(ws[..n]).messages + Parse(ws[n..]).messages == Parse(ws).messages <==> BoundaryAt(ws, n)
  {
    var a, b, k := CutAt(ws, n);
    if BoundaryAt(ws, n) {
      ParsedInTwo(a, b, ws);
    } else {
      CutParses(a, b, ws, k);
    }
  }

  lemma CutAt(ws: seq<Wire>, n: nat) returns (a: seq<Wire>, b: seq<Wire>, k: nat)
    requires Framed(ws) && n <= |ws| && EndsBehind(ws, n)
    ensures a == ws[..n] && b == ws[n..] && a + b == ws && Framed(a)
    ensures OnBoundary(a) <==> BoundaryAt(ws, n)
    ensures !BoundaryAt(ws, n) ==> k < |b| && b[k].last
  {
    a, b, k := ws[..n], ws[n..], 0;
    assert forall w :: w in a ==> w in ws;
    if !BoundaryAt(ws, n) {
      var i :| n <= i < |ws| && ws[i].last;
      k := i - n;
    }
  }

  lemma CutParses(a: seq<Wire>, b: seq<Wire>, whole: seq<Wire>, k: nat)
    requires a + b == whole && Framed(a) && !OnBoundary(a) && k < |b| && b[k].last
    ensures Parse(a).messages + Parse(b).messages != Parse(whole).messages
  {
    OpenFragment(a);
    LastFrameEnds(b, k);
    ParseOpen(a, b);
    HeadMatters(Parse(a).messages, Parse(a).tail, Parse(b).messages);
  }

  lemma HeadMatters(ms: seq<seq<byte>>, x: seq<byte>, m: seq<seq<byte>>)
    requires m != [] && x != []
    ensures ms + m != ms + ([x + m[0]] + m[1..])
  {
    var k := |ms|;
    assert (ms + m)[k] == m[0] && (ms + ([x + m[0]] + m[1..]))[k] == x + m[0];
    assert |x + m[0]| > |m[0]|;
  }

  lemma OpenFragment(ws: seq<Wire>)
    requires Framed(ws) && ws != [] && !ws[|ws| - 1].last
    ensures Parse(ws).tail != []
  {
    assert ws[|ws| - 1] in ws;
    assert |Parse(ws).tail| >= |ws[|ws| - 1].data|;
  }

  /** A connection that began on a message boundary, after a rollback or a drop, carries whole messages: its
      frames parse into the flushed messages from the first one behind that on, and the start of the next. */
  lemma ConnectionCarriesWholeMessages(t: State)
    requires Reached(t) && !t.freed && t.aligned
    ensures t.epoch <= |t.created| && Parse(t.created[..t.epoch]).messages + Parse(t.wire).messages <= t.messages
  {
    ReachedLine(t);
    CarriedParses(t.created, t.epoch, t.wire);
  }

  lemma CarriedParses(created: seq<Wire>, epoch: nat, wire: seq<Wire>)
    requires BoundaryAt(created, epoch) && epoch + |wire| <= |created|
    requires forall k :: 0 <= k < |wire| ==> wire[k] == created[epoch + k]
    ensures Parse(created[..epoch]).messages + Parse(wire).messages <= Parse(created).messages
  {
    var n := epoch + |wire|;
    WireIsSlice(created, epoch, wire);
    ParsedInTwo(created[..epoch], wire, created[..n]);
    ParsePrefix(created, n);
  }

  lemma ParsedInTwo(a: seq<Wire>, b: seq<Wire>, whole: seq<Wire>)
    requires OnBoundary(a) && a + b == whole
    ensures Parse(whole).messages == Parse(a).messages + Parse(b).messages
  {
    BoundaryHasNoTail(a);
    ParseConcat(a, b);
  }

  lemma WireIsSlice(created: seq<Wire>, epoch: nat, wire: seq<Wire>)
    requires epoch + |wire| <= |created| && forall k :: 0 <= k < |wire| ==> wire[k] == created[epoch + k]
    ensures created[..epoch] + wire == created[..epoch + |wire|]
  {
  }

  /** Every completion callback runs at most once, and exactly once by the time the queue is freed. */
  lemma CallbacksRunOnce(t: State, cb: nat)
    requires Reached(t)
    ensures Ran(t.calls)[cb] <= 1
    ensures cb >= t.sends ==> Ran(t.calls)[cb] == 0
    ensures t.freed ==> Ran(t.calls)[cb] == if cb < t.sends then 1 else 0
  {
    ReachedInv(t);
    assert (Ran(t.calls) + Pending(t))[cb] == Numbers(t.sends)[cb];
  }

  // ---- Where the guarantees end ----------------------------------------------------------------

  /** A rollback keeps the order exactly when the socket holds no buffer or nothing is in progress. */
  lemma RollbackWhileHandedOut(t: State)
    requires Reached(t) && !t.freed
    ensures Line(DoRollback(t)) == t.created <==> t.handed.None? || t.inprogress == []
  {
    ReachedLine(t);
    ReachedInv(t);
    assert Increasing(t.created, if t.current.Some? then t.current.value.id else t.nextId);
    RollbackOrder(t);
  }

  lemma RollbackOrder(s: State)
    requires Placed(s) && (s.handed.Some? ==> s.moving.None?)
    requires forall i, j :: 0 <= i < j < |s.created| ==> s.created[i].id < s.created[j].id
    ensures Line(DoRollback(s)) == s.created <==> s.handed.None? || s.inprogress == []
  {
    var r := DoRollback(s);
    if s.handed.None? || s.inprogress == [] {
      RollbackPlaced(s);
      LineIsCreated(r);
    } else {
      var n := Finished(s);
      assert Line(r)[n] == Sent(s.handed.value) == s.created[HandedAt(s)];
      assert s.created[n].id < s.created[HandedAt(s)].id;
    }
  }

  /** When the peer drops the connection nothing is rolled back, so the next one starts on a message
      boundary exactly when the last frame in progress, if any, else the last one moved, ended a message. */
  lemma RemoteDropStartsOnBoundary(t: State)
    requires Reached(t) && !t.freed && SocketIdle(t)
    ensures BoundaryAt(t.created, DoRemoteDrop(t).epoch) <==> AllEnds(t)
    ensures t.clean ==> Ends(t)
  {
    ReachedLine(t);
    EndsIsBoundary(t);
    AllEndsIsBoundary(t);
  }

  /** A stream reset discards the open message exactly when no fragment of it was queued yet; otherwise
      the fragments stay in front of the next message. */
  lemma ResetDiscardsOpenMessage(t: State)
    requires Reached(t) && !t.freed
    ensures DoReset(t).open == [] <==> |t.open| <= FRAME_SIZE && (t.open == [] || t.current.Some?)
  {
    ReachedInv(t);
    ContentReset(t);
    TailOfFragments(t.created);
  }

  /** An open message with queued fragments is at least one frame long. */
  lemma TailOfFragments(ws: seq<Wire>)
    requires Framed(ws)
    ensures Parse(ws).tail == [] || |Parse(ws).tail| >= FRAME_SIZE
  {
    if ws != [] {
      assert ws[|ws| - 1] in ws;
    }
  }

  // ---- Runs in which they do end ---------------------------------------------------------------

  lemma {:induction false} RunSnoc(r: State, es: seq<Event>, s: State, e: Event)
    requires Run(r, es, s) && Enabled(s, e)
    ensures Run(r, es + [e], Apply(s, e))
    decreases |es|
  {
    var more := es + [e];
    if es == [] {
      assert more[0] == e && more[1..] == [];
    } else {
      assert more[0] == es[0] && more[1..] == es[1..] + [e];
      RunSnoc(Apply(r, es[0]), es[1..], s, e);
    }
  }

  lemma RunsOn(r: State, s: State, e: Event)
    requires (exists es :: Run(r, es, s)) && Enabled(s, e)
    ensures exists es :: Run(r, es, Apply(s, e))
  {
    var es :| Run(r, es, s);
    RunSnoc(r, es, s, e);
  }

  lemma ReachedNext(s: State, e: Event)
    requires Reached(s) && Enabled(s, e)
    ensures Reached(Apply(s, e))
  {
    RunsOn(Init(), s, e);
  }

  /** The first frame, full, of a message and its second, with one byte. */
  predicate TwoFrames(f: Buffer, c: Buffer)
  {
    && f.kind == BinaryFragment && |f.data| == FRAME_SIZE && f.cb.None? && f.id == 0
    && |c.data| == 1 && c.length == FRAME_SIZE && c.cb.None? && c.id == 1
  }

  lemma FramesExist()
    ensures exists f, c :: TwoFrames(f, c)
  {
    var f := Buffer(0, seq(FRAME_SIZE, _ => 0), FRAME_SIZE, 0, BinaryFragment, Ok, None);
    var c := Buffer(1, [0], FRAME_SIZE, 0, Unknown, Ok, None);
    assert TwoFrames(f, c);
  }

  /** A message longer than a frame is being written. */
  lemma FragmentQueued(f: Buffer, c: Buffer) returns (s: State)
    requires TwoFrames(f, c)
    ensures Reached(s) && s.ready == [f] && s.current == Some(c) && s.open == f.data + c.data
    ensures s.done == s.inprogress == [] && s.moving.None? && SocketIdle(s) && !s.freed && s.delivered == []
  {
    assert Run(Init(), [], Init());
    var bytes := f.data + c.data;
    assert Bytes([f]) == f.data by { assert [f][1..] == []; assert f.data + [] == f.data; }
    assert Framing(None, bytes, [f], Some(c)) by { assert [] + bytes == bytes; }
    ReachedNext(Init(), Write(bytes, [f], Some(c), 2));
    s := DoWrite(Init(), bytes, [f], Some(c), 2);
    assert [] + [f] == [f] && [] + bytes == bytes;
  }

  /** A stream reset in the middle of a message can leave its first frames queued. */
  lemma ResetCanLeaveFragments()
    ensures exists t :: Reached(t) && !t.freed && DoReset(t).open != []
  {
    FramesExist();
    var f, c :| TwoFrames(f, c);
    var t := FragmentQueued(f, c);
    ResetDiscardsOpenMessage(t);
    assert |t.open| == FRAME_SIZE + 1;
  }

  /** Both frames are queued, and the first is sent. */
  lemma FragmentSent(f: Buffer, c: Buffer) returns (s: State)
    requires TwoFrames(f, c)
    ensures Reached(s) && s.inprogress == [f.(code := Ok)] && s.ready == [c.(kind := BinaryMsg)]
    ensures s.done == [] && s.moving.None? && SocketIdle(s) && !s.freed && s.delivered == []
  {
    var a := FragmentQueued(f, c);
    ReachedNext(a, Flush(false));
    var b := DoFlush(a, false);
    var last := c.(kind := BinaryMsg);
    assert c.(kind := BinaryMsg, cb := None) == last;
    assert b.ready == [f] + [last] && b.ready[0] == f && b.ready[1..] == [last];
    ReachedNext(b, BeginSend);
    var d := DoBeginSend(b);
    ReachedNext(d, EndSend(Ok));
    s := DoEndSend(d, Ok);
    assert [] + [f.(code := Ok)] == [f.(code := Ok)];
  }

  /** The peer can drop the connection in the middle of a message. */
  lemma RemoteDropCanCutAMessage()
    ensures exists t :: Reached(t) && !t.freed && SocketIdle(t) && !BoundaryAt(t.created, DoRemoteDrop(t).epoch)
  {
    FramesExist();
    var f, c :| TwoFrames(f, c);
    var t := FragmentSent(f, c);
    RemoteDropStartsOnBoundary(t);
  }

  /** A rollback can meet a buffer handed out behind one in progress. */
  lemma RollbackCanReorder()
    ensures exists t :: Reached(t) && !t.freed && Line(DoRollback(t)) != t.created
  {
    FramesExist();
    var f, c :| TwoFrames(f, c);
    var s := FragmentSent(f, c);
    ReachedNext(s, BeginSend);
    var t := DoBeginSend(s);
    RollbackWhileHandedOut(t);
  }

  /** A rollback can fall between two rounds of the move, and then the second frame is resent alone. */
  lemma RollbackCanCutAMove()
    ensures exists t :: Reached(t) && !t.freed && t.sweeping && !Ends(t) && |DoRollback(t).ready| == 1
              && DoRollback(t).ready[0].kind == BinaryMsg
  {
    FramesExist();
    var f, c :| TwoFrames(f, c);
    var s := FragmentSent(f, c);
    ReachedNext(s, BeginSend);
    var a := DoBeginSend(s);
    var last := c.(kind := BinaryMsg);
    assert s.ready[1..] == [];
    ReachedNext(a, EndSend(Ok));
    var b := DoEndSend(a, Ok);
    assert b.inprogress == [f.(code := Ok)] + [last.(code := Ok)];
    assert b.inprogress[1..] == [last.(code := Ok)];
    ReachedNext(b, SweepPop);
    var t := DoSweepPop(b);
    assert t.inprogress + t.ready == [last.(code := Ok)];
  }
}
