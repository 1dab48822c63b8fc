/** What senders are told over every run of the sending side. */
module WsResults {
  import opened Prelude
  import opened Completion
  import opened IoQueue
  import opened WsFrames
  import opened WsOutbound
  import opened WsOutboundRuns

  // ---- Results of sends ------------------------------------------------------------------------

  /** A buffer whose send has ended holds the result recorded for its callback. */
  predicate Told(b: Buffer, results: map<nat, Code>)
  {
    b.cb.Some? ==> b.cb.value in results && results[b.cb.value] == b.code
  }

  predicate AllTold(bs: seq<Buffer>, results: map<nat, Code>)
  {
    forall b :: b in bs ==> Told(b, results)
  }

  predicate ResultInv(s: State)
  {
    AllTold(s.done, s.results) && AllTold(Opt(s.moving), s.results) && AllTold(s.inprogress, s.results)
  }

  lemma {:induction false} HasCallback(bs: seq<Buffer>, b: Buffer)
    requires b in bs && b.cb.Some?
    ensures b.cb.value in Callbacks(bs)
  {
    if b != bs[0] { HasCallback(bs[1..], b); }
  }

  lemma {:induction false} CallbackOf(bs: seq<Buffer>, cb: nat)
    requires cb in Callbacks(bs)
    ensures exists b :: b in bs && b.cb == Some(cb)
  {
    if cb in Opt(bs[0].cb) {
      assert bs[0] in bs;
    } else {
      CallbackOf(bs[1..], cb);
    }
  }

  /** A list of buffers without the callback of the one handed out. */
  lemma NotIn(bs: seq<Buffer>, cb: nat)
    requires Cbs(bs)[cb] == 0
    ensures forall b :: b in bs ==> b.cb != Some(cb)
  {
    forall b | b in bs && b.cb.Some?
      ensures b.cb != Some(cb)
    {
      HasCallback(bs, b);
    }
  }

  lemma HandedIsAlone(s: State, cb: nat)
    requires CallbackInv(s) && s.handed.Some? && s.handed.value.cb == Some(cb)
    ensures Cbs(s.done)[cb] == 0 && Cbs(Opt(s.moving))[cb] == 0 && Cbs(s.inprogress)[cb] == 0
  {
    SingleCallback(s.handed.value);
    assert Cbs(Opt(s.handed)) == multiset{cb};
    assert (Ran(s.calls) + Pending(s))[cb] <= 1;
  }

  lemma ToldMore(bs: seq<Buffer>, results: map<nat, Code>, cb: nat, code: Code)
    requires AllTold(bs, results) && forall b :: b in bs ==> b.cb != Some(cb)
    ensures AllTold(bs, results[cb := code])
  {
  }

  lemma ResultEndSend(s: State, code: Code)
    requires CallbackInv(s) && ResultInv(s) && s.handed.Some?
    ensures ResultInv(DoEndSend(s, code))
  {
    var b := s.handed.value.(code := code);
    if b.cb.Some? {
      var cb := b.cb.value;
      HandedIsAlone(s, cb);
      NotIn(s.done, cb);
      NotIn(Opt(s.moving), cb);
      NotIn(s.inprogress, cb);
      ToldMore(s.done, s.results, cb, code);
      ToldMore(Opt(s.moving), s.results, cb, code);
      ToldMore(s.inprogress, s.results, cb, code);
    }
  }

  lemma ResultAbort(s: State)
    requires ResultInv(s)
    ensures ResultInv(DoAbort(s))
  {
    DetachedTold(s.done, s.results);
    DetachedTold(s.inprogress, s.results);
  }

  lemma DetachedTold(bs: seq<Buffer>, results: map<nat, Code>)
    ensures AllTold(Detached(bs), results)
  {
  }

  lemma ResultKept(s: State, e: Event)
    requires Enabled(s, e) && CallbackInv(s) && ResultInv(s)
    ensures ResultInv(Apply(s, e))
  {
    match e
    case EndSend(code) => ResultEndSend(s, code);
    case Abort => ResultAbort(s);
    case SweepPop => ResultMoves(s);
    case SweepPush => ResultMoves(s);
    case Deliver => ResultMoves(s);
    case _ => ResultOthers(s, Apply(s, e));
  }

  lemma ResultMoves(s: State)
    requires ResultInv(s)
    ensures s.inprogress != [] ==> ResultInv(DoSweepPop(s))
    ensures s.moving.Some? ==> ResultInv(DoSweepPush(s))
    ensures s.done != [] ==> ResultInv(DoDeliver(s))
  {
  }

  lemma ResultOthers(s: State, t: State)
    requires ResultInv(s) && t.results == s.results && t.moving == s.moving
    requires t.done == s.done || t.done == []
    requires t.inprogress == s.inprogress || t.inprogress == []
    ensures ResultInv(t)
  {
  }

  lemma {:induction false} RunKeepsResults(s: State, es: seq<Event>, t: State)
    requires Run(s, es, t) && Inv(s) && ResultInv(s)
    ensures ResultInv(t)
    decreases |es|
  {
    if es != [] {
      InvKept(s, es[0]);
      ResultKept(s, es[0]);
      RunKeepsResults(Apply(s, es[0]), es[1..], t);
    }
  }

  lemma ReachedResults(t: State)
    requires Reached(t)
    ensures ResultInv(t)
  {
    var es :| Run(Init(), es, t);
    RunKeepsResults(Init(), es, t);
  }

  // ---- Theorems over all runs ------------------------------------------------------------------

  /** The buffers that can have a callback attached. */
  predicate Attached(s: State, cb: nat)
  {
    exists b :: b in s.done + s.inprogress + s.ready && b.cb == Some(cb)
  }

  /** Every run of a callback tells its sender what happened: a report the result of the latest send of the
      frame it is attached to, an abort and a release that the message was aborted, and a send that queued
      nothing its own result. No other step runs one. */
  lemma SendersAreToldTheResult(s: State, e: Event, c: Call)
    requires Reached(s) && Enabled(s, e)
    ensures var t := Apply(s, e);
      && s.calls <= t.calls
      && (c in t.calls[|s.calls|..] ==>
           || (e.Deliver? && c.cb in s.results && c.code == s.results[c.cb] && s.done[0].cb == Some(c.cb))
           || ((e.Abort? || e.Free?) && c.code == Aborted && Attached(s, c.cb))
           || (e.CompleteNow? && c == Call(s.sends, e.code)))
  {
    ReachedResults(s);
    match e
    case Deliver => DeliverTells(s, c);
    case Abort => AbortTells(s, c);
    case Free => AbortTells(s, c);
    case _ =>
  }

  lemma DeliverTells(s: State, c: Call)
    requires ResultInv(s) && s.done != []
    ensures var t := DoDeliver(s);
      && s.calls <= t.calls
      && (c in t.calls[|s.calls|..] ==> c.cb in s.results && c.code == s.results[c.cb] && s.done[0].cb == Some(c.cb))
  {
    assert s.done[0] in s.done && Told(s.done[0], s.results);
    assert Completions([s.done[0]]) == DoDeliver(s).calls[|s.calls|..];
  }

  lemma AbortsTell(bs: seq<Buffer>, c: Call)
    requires c in Aborts(bs)
    ensures c.code == Aborted && exists b :: b in bs && b.cb == Some(c.cb)
  {
    var k :| 0 <= k < |Aborts(bs)| && Aborts(bs)[k] == c;
    assert Callbacks(bs)[k] == c.cb;
    CallbackOf(bs, c.cb);
  }

  lemma AbortTells(s: State, c: Call)
    ensures var more := Aborts(s.done) + Aborts(s.inprogress) + Aborts(s.ready);
      && s.calls + Aborts(s.done) + Aborts(s.inprogress) + Aborts(s.ready) == s.calls + more
      && (c in more ==> c.code == Aborted && Attached(s, c.cb))
  {
    if c in Aborts(s.done) { AbortsTell(s.done, c); }
    else if c in Aborts(s.inprogress) { AbortsTell(s.inprogress, c); }
    else if c in Aborts(s.ready) { AbortsTell(s.ready, c); }
  }

  /** Every send succeeds, and nothing is aborted, refused or released. */
  predicate Smooth(es: seq<Event>)
  {
    forall e :: e in es ==> !e.Abort? && !e.Free? && !e.CompleteNow? && (e.EndSend? ==> e.code == Ok)
  }

  predicate AllOk(s: State)
  {
    && (forall cb :: cb in s.results ==> s.results[cb] == Ok)
    && (forall c :: c in s.calls ==> c.code == Ok)
  }

  /** In a run in which every send succeeds, every sender that is told anything is told so. */
  lemma SmoothRunsReportSuccess(es: seq<Event>, t: State)
    requires Run(Init(), es, t) && Smooth(es)
    ensures forall c :: c in t.calls ==> c.code == Ok
  {
    assert Run(Init(), [], Init());
    SmoothRun(Init(), es, t);
  }

  lemma {:induction false} SmoothRun(s: State, es: seq<Event>, t: State)
    requires Run(s, es, t) && Inv(s) && ResultInv(s) && AllOk(s) && Smooth(es)
    ensures AllOk(t)
    decreases |es|
  {
    if es != [] {
      var e := es[0];
      assert e in es;
      InvKept(s, e);
      ResultKept(s, e);
      SmoothStep(s, e);
      SmoothRun(Apply(s, e), es[1..], t);
    }
  }

  lemma SmoothStep(s: State, e: Event)
    requires Enabled(s, e) && ResultInv(s) && AllOk(s) && Smooth([e])
    ensures AllOk(Apply(s, e))
  {
    assert e in [e];
    if e.Deliver? {
      var t := DoDeliver(s);
      forall c | c in t.calls
        ensures c.code == Ok
      {
        DeliverTells(s, c);
      }
    }
  }
}
