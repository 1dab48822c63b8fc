/** Threads sharing a buffer pool: reference counts change outside its lock, and signals are delivered
    after the lock is left. */
module BufferPoolRuns {
  import opened Prelude
  import opened BufferPool

  /** `inFlight` are the signals decided on whose callback is still to be made. Of the last allocation that
      took a buffer, `growth` is what the pool asked for and made, if it grew; `back` counts the buffers
      returned since. */
  datatype World = World(pool: State, inFlight: seq<Signal>, delivered: seq<Signal>,
                         growth: Option<Growth>, back: nat)

  datatype Growth = Growth(asked: nat, made: nat)

  datatype Event =
    | Alloc(mallocs: nat)
    | Share(id: nat)
    | Drop(id: nat)
    | Return(id: nat)
    | Deliver(index: nat)

  /** Only a thread that holds a reference can share or drop it. */
  predicate Enabled(w: World, e: Event)
  {
    match e
    case Alloc(_) => w.pool.freeCount == |w.pool.freeList| && Known(w.pool)
    case Share(id) => id < |w.pool.refs| && w.pool.refs[id] > 0
    case Drop(id) => id < |w.pool.refs| && w.pool.refs[id] > 0
    case Return(id) => id in w.pool.returning
    case Deliver(i) => i < |w.inFlight|
  }

  predicate Known(s: State)
  {
    forall id :: id in s.freeList ==> id < |s.refs|
  }

  function Step(s: State, e: Event): State
    requires Enabled(World(s, [], [], None, 0), e) && !e.Deliver?
  {
    match e
    case Alloc(m) => DoAlloc(s, m)
    case Share(id) => DoShare(s, id)
    case Drop(id) => DoDrop(s, id)
    case Return(id) => DoReturn(s, id)
  }

  function Apply(w: World, e: Event): World
    requires Enabled(w, e)
  {
    if e.Deliver? then Delivered(w, e.index) else Stepped(w, e)
  }

  function Delivered(w: World, i: nat): World
    requires i < |w.inFlight|
  {
    w.(inFlight := w.inFlight[..i] + w.inFlight[i + 1..], delivered := w.delivered + [w.inFlight[i]])
  }

  function Stepped(w: World, e: Event): World
    requires Enabled(w, e) && !e.Deliver?
  {
    var s, n := Step(w.pool, e), |w.pool.raised|;
    var v := w.(pool := s, inFlight := w.inFlight + (if n < |s.raised| then s.raised[n..] else []));
    match e
    case Alloc(mallocs) => if w.pool.freeList == [] then v else v.(growth := Grown(w.pool, mallocs), back := 0)
    case Return(_) => v.(back := w.back + 1)
    case _ => v
  }

  /** What taking the head of the free list asks for and makes; the pool only grows for the last buffer. */
  function Grown(s: State, mallocs: nat): Option<Growth>
    requires s.freeList != [] && s.freeCount > 0
  {
    if s.freeCount > 1 then None
    else
      var t := s.(freeList := s.freeList[1..], freeCount := 0);
      Some(Growth(Items(t), Made(t, mallocs)))
  }

  ghost predicate Run(w: World, es: seq<Event>, t: World)
    decreases |es|
  {
    if es == [] then w == t
    else Enabled(w, es[0]) && Run(Apply(w, es[0]), es[1..], t)
  }

  /** Creation succeeds when the first growth made at least one buffer. */
  ghost predicate Created(w: World)
  {
    exists fixed, config, mallocs: nat :: CreatedBy(w, fixed, config, mallocs)
  }

  predicate CreatedBy(w: World, fixed: bool, config: Config, mallocs: nat)
  {
    w == World(Init(fixed, config, mallocs), [], [], None, 0) && w.pool.freeCount > 0
  }

  ghost predicate Reached(t: World)
  {
    exists w, es :: Created(w) && Run(w, es, t)
  }

  // ---- Invariant -------------------------------------------------------------------------------

  predicate HighInv(s: State)
  {
    s.config.max != 0 && s.config.high >= s.config.max ==> |s.raised| <= 1
  }

  predicate ConfigInv(s: State)
  {
    && s.count > 0 && (s.config.max != 0 ==> s.config.high <= s.config.max)
    && (s.config.low <= s.config.high || (s.config.max != 0 && s.config.high == s.config.max))
  }

  /** With buffers out, a pool that is not signalled low has more free than the low watermark. */
  predicate LowInv(s: State)
  {
    s.checkedOut != [] && !s.empty ==> s.freeCount > s.config.low
  }

  /** The free list is empty exactly when the last growth made nothing and nothing has come back since. */
  predicate GrowthInv(w: World)
  {
    && (w.pool.freeList == [] <==> w.growth.Some? && w.growth.value.made == 0 && w.back == 0)
    && (w.growth.Some? && w.growth.value.asked == 0 ==>
          w.pool.config.max != 0 && w.pool.count >= w.pool.config.max)
  }

  ghost predicate Inv(w: World)
  {
    && PoolInv(w.pool) && HighInv(w.pool) && ConfigInv(w.pool) && GrowthInv(w) && LowInv(w.pool)
    && |w.delivered| + |w.inFlight| == |w.pool.raised|
  }

  lemma CreatedInv(w: World)
    requires Created(w)
    ensures Inv(w)
  {
    var fixed, config, mallocs: nat :| CreatedBy(w, fixed, config, mallocs);
    var blank := State(fixed, Normalized(config), [], 0, [], [], 0, false, [], [], false);
    forall id: nat
      ensures Places(w.pool, id) == if id < w.pool.count then 1 else 0
    {
      GrowKeepsLists(blank, mallocs, id);
    }
    forall id | 0 <= id < |w.pool.refs|
      ensures w.pool.refs[id] == 0 && id in w.pool.freeList
    {
      RefGrow(blank, mallocs, id);
    }
  }

  lemma StepKeepsPool(s: State, e: Event)
    requires PoolInv(s) && !e.Deliver? && Enabled(World(s, [], [], None, 0), e)
    ensures PoolInv(Step(s, e))
  {
    match e
    case Alloc(m) => AllocKeeps(s, m);
    case Share(id) => ShareKeeps(s, id);
    case Drop(id) => DropKeeps(s, id);
    case Return(id) => ReturnKeeps(s, id);
  }

  lemma ShareKeeps(s: State, id: nat)
    requires PoolInv(s) && id < |s.refs| && s.refs[id] > 0
    ensures PoolInv(DoShare(s, id))
  {
    assert ListInv(DoShare(s, id)) by {
      assert forall x: nat :: Places(DoShare(s, id), x) == Places(s, x);
    }
  }

  /** A step raises at most one signal, and a high one only past the high watermark. */
  lemma StepRaises(s: State, e: Event)
    requires PoolInv(s) && !e.Deliver? && Enabled(World(s, [], [], None, 0), e)
    ensures var t := Step(s, e);
      && t.config == s.config && t.count >= s.count
      && (t.raised == s.raised || (t.raised == s.raised + [Low] && !s.empty)
          || (t.raised == s.raised + [High] && s.empty && t.freeCount > t.config.high))
  {
    if e.Alloc? { AllocRaises(s, e.mallocs); }
  }

  lemma AllocRaises(s: State, mallocs: nat)
    requires PoolInv(s) && Known(s)
    ensures var t := DoAlloc(s, mallocs);
      && t.config == s.config && t.count >= s.count
      && (t.raised == s.raised || (t.raised == s.raised + [Low] && !s.empty))
  {
  }

  lemma InvKept(w: World, e: Event)
    requires Inv(w) && Enabled(w, e)
    ensures Inv(Apply(w, e))
  {
    if !e.Deliver? {
      assert Enabled(World(w.pool, [], [], None, 0), e);
      StepKeepsPool(w.pool, e);
      StepRaises(w.pool, e);
      assert ListInv(Step(w.pool, e));
      GrowthKept(w, e);
      LowKept(w.pool, e);
    }
  }

  lemma LowKept(s: State, e: Event)
    requires PoolInv(s) && ConfigInv(s) && LowInv(s) && !e.Deliver? && Enabled(World(s, [], [], None, 0), e)
    requires PoolInv(Step(s, e))
    ensures LowInv(Step(s, e))
  {
    if e.Return? { ReturnShrinks(s, e.id); }
  }

  lemma GrowthKept(w: World, e: Event)
    requires PoolInv(w.pool) && GrowthInv(w) && Enabled(w, e) && !e.Deliver?
    ensures GrowthInv(Apply(w, e))
  {
    if e.Alloc? && w.pool.freeList != [] { AllocLeaves(w.pool, e.mallocs); }
  }

  /** What an allocation leaves on the free list. */
  lemma AllocLeaves(s: State, mallocs: nat)
    requires PoolInv(s) && Known(s) && s.freeList != []
    ensures var t, g := DoAlloc(s, mallocs), Grown(s, mallocs);
      && t.config == s.config && t.freeCount == |t.freeList|
      && t.freeCount == s.freeCount - 1 + (if g.Some? then g.value.made else 0)
      && t.count == s.count + (if g.Some? then g.value.made else 0)
      && (g.Some? && g.value.asked == 0 ==> s.config.max != 0 && s.count >= s.config.max)
  {
    TakeSizes(s, mallocs);
  }

  lemma {:induction false} RunKeepsInv(w: World, es: seq<Event>, t: World)
    requires Inv(w) && Run(w, es, t)
    ensures Inv(t)
    decreases |es|
  {
    if es != [] {
      InvKept(w, es[0]);
      RunKeepsInv(Apply(w, es[0]), es[1..], t);
    }
  }

  lemma ReachedInv(t: World)
    requires Reached(t)
    ensures Inv(t)
  {
    var w, es :| Created(w) && Run(w, es, t);
    CreatedInv(w);
    RunKeepsInv(w, es, t);
  }

  // ---- Theorems --------------------------------------------------------------------------------

  /** Free and checked out buffers add up to those made, within the maximum, and each buffer is on exactly
      one of the two lists. */
  lemma BuffersAreConserved(t: World, id: nat)
    requires Reached(t)
    ensures t.pool.freeCount + |t.pool.checkedOut| == t.pool.count
    ensures t.pool.config.max != 0 ==> t.pool.count <= t.pool.config.max
    ensures id < t.pool.count <==> id in t.pool.freeList || id in t.pool.checkedOut
    ensures !(id in t.pool.freeList && id in t.pool.checkedOut)
  {
    ReachedInv(t);
    Listed(t.pool, id);
  }

  /** A buffer has no references exactly when it is free or on its way back to the free list. */
  lemma FreeMeansUnreferenced(t: World, id: nat)
    requires Reached(t) && id < t.pool.count
    ensures id < |t.pool.refs|
    ensures t.pool.refs[id] == 0 <==> id in t.pool.freeList || id in t.pool.returning
  {
    ReachedInv(t);
  }

  /** Allocation hands out a buffer nobody else holds, with one reference. */
  lemma AllocIsExclusive(t: World, mallocs: nat)
    requires Reached(t) && t.pool.freeList != []
    ensures Enabled(t, Alloc(mallocs))
    ensures var id, u := t.pool.freeList[0], Apply(t, Alloc(mallocs));
      && id < |t.pool.refs| <= |u.pool.refs| && t.pool.refs[id] == 0 && u.pool.refs[id] == 1
      && forall x :: 0 <= x < |t.pool.refs| && x != id ==> u.pool.refs[x] == t.pool.refs[x]
  {
    ReachedInv(t);
    AllListed(t.pool);
    var id := t.pool.freeList[0];
    assert id in t.pool.freeList;
    TakeSizes(t.pool, mallocs);
  }

  /** Allocation fails exactly when the free list is empty; that is only so when the maximum number of
      buffers has been made and all are out, or a growth has failed. */
  lemma AllocFailsOnlyWhenExhausted(t: World)
    requires Reached(t) && t.pool.freeList == []
    ensures |t.pool.checkedOut| == t.pool.count
    ensures t.pool.failed || (t.pool.config.max != 0 && t.pool.count == t.pool.config.max)
  {
    ReachedInv(t);
  }

  /** Signals are decided on alternately, starting with low. */
  lemma SignalsAlternate(t: World)
    requires Reached(t)
    ensures Alternating(t.pool.raised)
    ensures t.pool.empty <==> t.pool.raised != [] && t.pool.raised[|t.pool.raised| - 1] == Low
  {
    ReachedInv(t);
    LastDecides(t.pool.raised);
  }

  lemma LastDecides(xs: seq<Signal>)
    requires Alternating(xs)
    ensures |xs| % 2 == 1 <==> xs != [] && xs[|xs| - 1] == Low
  {
  }

  /** Once buffers are out, the pool says that it is low as long as no more than the low watermark are free. */
  lemma LowIsSignalled(t: World)
    requires Reached(t) && t.pool.checkedOut != []
    ensures t.pool.freeCount <= t.pool.config.low ==> t.pool.empty
  {
    ReachedInv(t);
  }

  /** An allocation raises low exactly when the pool was not low before and has no more than the low watermark
      free after; it raises nothing else. */
  lemma AllocSignalsLow(t: World, mallocs: nat)
    requires Reached(t) && t.pool.freeList != []
    ensures Enabled(t, Alloc(mallocs))
    ensures var u := Apply(t, Alloc(mallocs));
      if !t.pool.empty && u.pool.freeCount <= t.pool.config.low
      then u.pool.raised == t.pool.raised + [Low] && u.inFlight == t.inFlight + [Low] && u.pool.empty
      else u.pool.raised == t.pool.raised && u.inFlight == t.inFlight && u.pool.empty == t.pool.empty
  {
    ReachedInv(t);
    AllListed(t.pool);
  }

  /** A return raises high exactly when the pool was low before and has more than the high watermark free after;
      it raises nothing else. */
  lemma ReturnSignalsHigh(t: World, id: nat)
    requires Reached(t) && id in t.pool.returning
    ensures var u := Apply(t, Return(id));
      if t.pool.empty && u.pool.freeCount > t.pool.config.high
      then u.pool.raised == t.pool.raised + [High] && u.inFlight == t.inFlight + [High] && !u.pool.empty
      else u.pool.raised == t.pool.raised && u.inFlight == t.inFlight && u.pool.empty == t.pool.empty
  {
    ReachedInv(t);
  }

  /** An allocation takes one buffer off the free list. It makes more only when it takes the last: then as many
      as the pool started with, or as the maximum allows, in one block or one by one as far as memory goes. */
  lemma AllocGrowsThePool(t: World, mallocs: nat)
    requires Reached(t) && t.pool.freeList != []
    ensures Enabled(t, Alloc(mallocs))
    ensures var c, u := t.pool.config, Apply(t, Alloc(mallocs));
      && u.pool.freeCount == t.pool.freeCount - 1 + (u.pool.count - t.pool.count)
      && (t.pool.freeCount > 1 ==> u.pool.count == t.pool.count)
      && (t.pool.freeCount == 1 ==>
           var wanted := if c.max == 0 || t.pool.count + c.initial <= c.max then c.initial else c.max - t.pool.count;
           u.pool.count - t.pool.count ==
             if t.pool.fixed then (if mallocs > 0 then wanted else 0) else if mallocs < wanted then mallocs else wanted)
  {
    ReachedInv(t);
    AllListed(t.pool);
    AllocLeaves(t.pool, mallocs);
  }

  /** The settings in force are those given, where they make sense together. */
  lemma SettingsAreKept(w: World, fixed: bool, c: Config, mallocs: nat, es: seq<Event>, t: World)
    requires CreatedBy(w, fixed, c, mallocs) && Run(w, es, t)
    ensures var d := t.pool.config;
      && d.max == c.max
      && (c.initial > 0 ==> d.initial == c.initial) && d.initial > 0
      && (c.low <= c.high ==> d.low == c.low) && (c.low > c.high ==> d.low == 0)
      && (c.max == 0 || c.high <= c.max ==> d.high == c.high) && (c.max != 0 && c.high > c.max ==> d.high == c.max)
  {
    assert Created(w);
    CreatedInv(w);
    RunKeepsConfig(w, es, t);
  }

  // ---- Where the guarantees end ----------------------------------------------------------------

  /** Callbacks made and to be made are the signals decided on, in order. */
  predicate InOrder(w: World)
  {
    w.delivered + w.inFlight == w.pool.raised
  }

  /** Callbacks are made outside the lock. As long as they came in order, the next one can come out of order
      exactly when two or more threads are on their way to call back. */
  lemma DeliveryKeepsOrder(w: World)
    requires Reached(w) && InOrder(w)
    ensures (exists i :: 0 <= i < |w.inFlight| && !(w.delivered + [w.inFlight[i]] <= w.pool.raised)) <==>
            |w.inFlight| >= 2
    ensures w.inFlight != [] ==> InOrder(Apply(w, Deliver(0)))
  {
    SignalsAlternate(w);
    if |w.inFlight| >= 2 { SecondDiffers(w.delivered, w.inFlight, w.pool.raised); }
    if w.inFlight != [] { OldestFirst(w); }
  }

  lemma SecondDiffers(delivered: seq<Signal>, inFlight: seq<Signal>, raised: seq<Signal>)
    requires Alternating(raised) && delivered + inFlight == raised && |inFlight| >= 2
    ensures !(delivered + [inFlight[1]] <= raised)
  {
    var n := |delivered|;
    assert raised[n] == inFlight[0] && raised[n + 1] == inFlight[1];
    assert (delivered + [inFlight[1]])[n] != raised[n];
  }

  lemma OldestFirst(w: World)
    requires InOrder(w) && w.inFlight != []
    ensures w.delivered + [w.inFlight[0]] <= w.pool.raised && InOrder(Delivered(w, 0))
  {
    var rest := w.inFlight[1..];
    assert w.inFlight == [w.inFlight[0]] + rest;
    Assoc(w.delivered, [w.inFlight[0]], rest);
    assert w.inFlight[..0] + rest == rest;
  }

  lemma {:induction false} RunSnoc(r: World, es: seq<Event>, w: World, e: Event)
    requires Run(r, es, w) && Enabled(w, e)
    ensures Run(r, es + [e], Apply(w, e))
    decreases |es|
  {
    var more := es + [e];
    if es == [] {
      assert more[0] == e && more[1..] == [];
    } else {
      assert more[0] == es[0] && more[1..] == es[1..] + [e];
      RunSnoc(Apply(r, es[0]), es[1..], w, e);
    }
  }

  lemma ReachedNext(w: World, e: Event)
    requires Reached(w) && Enabled(w, e)
    ensures Reached(Apply(w, e))
  {
    var r, es :| Created(r) && Run(r, es, w);
    RunSnoc(r, es, w, e);
  }

  /** Signals can arrive swapped: a pool that has buffers again has told its owner that it is low last. */
  lemma SignalsCanSwap()
    ensures exists t :: Reached(t) && t.inFlight == [] && t.delivered == [High, Low] && !t.pool.empty
  {
    var config :| config == Config(2, 0, 1, 1);
    var w := BothRaised(config);
    ReachedNext(w, Deliver(1));
    var a := Apply(w, Deliver(1));
    assert a.inFlight == [Low] && a.delivered == [High];
    ReachedNext(a, Deliver(0));
    var t := Apply(a, Deliver(0));
    assert t.inFlight == [] && t.delivered == [High, Low];
  }

  /** One of two buffers goes out and comes back, across both watermarks. */
  lemma BothRaised(config: Config) returns (w: World)
    requires config.initial == 2 && config.max == 0 && config.low == 1 && config.high == 1
    ensures Reached(w) && w.inFlight == [Low, High] && w.delivered == [] && !w.pool.empty
  {
    var a := TwoFree(config);
    ReachedNext(a, Alloc(0));
    var b := Apply(a, Alloc(0));
    OneOfTwoOut(a.pool, 0);
    assert b.inFlight == [] + [Low];
    ReachedNext(b, Drop(0));
    var c := Apply(b, Drop(0));
    OneOfTwoDropped(b.pool);
    assert c.inFlight == [Low] + [];
    ReachedNext(c, Return(0));
    w := Apply(c, Return(0));
    OneOfTwoBack(c.pool);
    assert w.inFlight == [Low] + [High];
  }

  lemma TwoFree(config: Config) returns (w: World)
    requires config.initial == 2 && config.low == 1
    requires (config.max == 0 && config.high == 1) || config.max == config.high == 2
    ensures Reached(w) && w.inFlight == w.delivered == [] && Known(w.pool)
    ensures w.pool.freeList == [0, 1] && w.pool.refs == [0, 0] && w.pool.freeCount == 2 && w.pool.checkedOut == []
    ensures w.pool.raised == [] && !w.pool.empty && w.pool.config == config && w.pool.returning == []
  {
    var s := Init(true, config, 1);
    w := World(s, [], [], None, 0);
    assert |s.freeList| == 2 && s.freeList[0] == 0 && s.freeList[1] == 1;
    assert |s.refs| == 2 && s.refs[0] == 0 && s.refs[1] == 0;
    assert CreatedBy(w, true, config, 1);
    assert Run(w, [], w);
  }

  lemma OneOfTwoOut(s: State, mallocs: nat)
    requires s.freeList == [0, 1] && s.refs == [0, 0] && s.freeCount == 2 && s.checkedOut == [] && Known(s)
    requires s.raised == [] && !s.empty && s.config.low == 1 && s.returning == []
    ensures var t := DoAlloc(s, mallocs);
      && t.freeList == [1] && t.refs == [1, 0] && t.freeCount == 1 && t.checkedOut == [0] && t.returning == []
      && t.raised == [Low] && t.empty && t.config == s.config
  {
    assert s.freeList[1..] == [1];
    assert [0, 0][0 := 1] == [1, 0];
  }

  lemma OneOfTwoDropped(s: State)
    requires s.refs == [1, 0] && s.returning == []
    ensures var t := DoDrop(s, 0); t == s.(refs := [0, 0], returning := [0])
  {
    assert [1, 0][0 := 0] == [0, 0];
    assert [] + [0] == [0];
  }

  lemma OneOfTwoBack(s: State)
    requires s.freeCount == 1 && s.raised == [Low] && s.empty && s.config.high == 1
    ensures var t := DoReturn(s, 0); t.raised == [Low, High] && !t.empty
  {
    assert [Low] + [High] == [Low, High];
  }

  ghost predicate RaisesHigh(w: World, es: seq<Event>, t: World)
  {
    Run(w, es, t) && t.pool.raised == w.pool.raised + [High]
  }

  ghost predicate CanRaise(w: World)
  {
    exists es, t :: RaisesHigh(w, es, t)
  }

  lemma RaiseNow(w: World, e: Event)
    requires Enabled(w, e) && Apply(w, e).pool.raised == w.pool.raised + [High]
    ensures CanRaise(w)
  {
    var t := Apply(w, e);
    assert Run(t, [], t);
    assert [e][1..] == [];
    assert RaisesHigh(w, [e], t);
  }

  lemma RaiseAfter(w: World, e: Event)
    requires Enabled(w, e) && Apply(w, e).pool.raised == w.pool.raised && CanRaise(Apply(w, e))
    ensures CanRaise(w)
  {
    var es, t :| RaisesHigh(Apply(w, e), es, t);
    assert ([e] + es)[1..] == es;
    assert RaisesHigh(w, [e] + es, t);
  }

  /** The refs of the buffer checked out longest, or nothing while one is on its way back. */
  function Held(s: State): nat
    requires s.returning == [] && s.checkedOut != [] ==> s.checkedOut[0] < |s.refs|
  {
    if s.returning == [] && s.checkedOut != [] then s.refs[s.checkedOut[0]] else 0
  }

  lemma HeadOut(s: State)
    requires PoolInv(s) && s.returning == [] && s.checkedOut != []
    ensures s.checkedOut[0] < |s.refs| && s.refs[s.checkedOut[0]] > 0
  {
    Listed(s, s.checkedOut[0]);
    assert s.checkedOut[0] in s.checkedOut;
  }

  lemma ReturnShrinks(s: State, id: nat)
    requires PoolInv(s) && id in s.returning
    ensures var t := DoReturn(s, id);
      |t.checkedOut| == |s.checkedOut| - 1 && t.freeCount == s.freeCount + 1 && t.count == s.count
  {
    RemoveCounts(s.checkedOut, id, id);
  }

  /** With more buffers made than the high watermark, giving them all back raises the high signal. */
  lemma {:induction false} CanReturnAll(w: World)
    requires Inv(w) && w.pool.empty && w.pool.count > w.pool.config.high
    requires w.pool.freeCount <= w.pool.config.high || w.pool.checkedOut != []
    requires w.pool.returning == [] && w.pool.checkedOut != [] ==> w.pool.checkedOut[0] < |w.pool.refs|
    ensures CanRaise(w)
    decreases |w.pool.checkedOut|, Held(w.pool)
  {
    var s := w.pool;
    if s.returning != [] {
      var id := s.returning[0];
      assert id in s.returning;
      ReturnShrinks(s, id);
      var t := Apply(w, Return(id));
      if t.pool.freeCount > s.config.high {
        RaiseNow(w, Return(id));
      } else {
        InvKept(w, Return(id));
        if t.pool.returning == [] && t.pool.checkedOut != [] { HeadOut(t.pool); }
        CanReturnAll(t);
        RaiseAfter(w, Return(id));
      }
    } else {
      HeadOut(s);
      var id := s.checkedOut[0];
      InvKept(w, Drop(id));
      CanReturnAll(Apply(w, Drop(id)));
      RaiseAfter(w, Drop(id));
    }
  }

  lemma AllocGrows(s: State)
    requires PoolInv(s) && s.empty && s.freeList != [] && Known(s)
    ensures var t := DoAlloc(s, s.config.initial);
      && t.raised == s.raised && t.empty && t.config == s.config && t.checkedOut != [] && t.returning == s.returning
      && (s.freeCount > 1 ==> t.count == s.count && t.freeCount == s.freeCount - 1)
      && (s.freeCount == 1 && (s.config.max == 0 || s.count < s.config.max) ==> t.count > s.count)
  {
  }

  lemma HeadKept(w: World, e: Event)
    requires Inv(w) && Enabled(w, e)
    ensures var s := Apply(w, e).pool;
      Inv(Apply(w, e)) && (s.returning == [] && s.checkedOut != [] ==> s.checkedOut[0] < |s.refs|)
  {
    InvKept(w, e);
    var s := Apply(w, e).pool;
    if s.returning == [] && s.checkedOut != [] { HeadOut(s); }
  }

  /** From any state, the pool can be made to hold more buffers than the high watermark, if it may. */
  lemma {:induction false} CanGrow(w: World)
    requires Inv(w) && w.pool.empty && (w.pool.config.max == 0 || w.pool.config.high < w.pool.config.max)
    requires w.pool.returning == [] && w.pool.checkedOut != [] ==> w.pool.checkedOut[0] < |w.pool.refs|
    ensures CanRaise(w)
    decreases w.pool.config.high + 1 - w.pool.count, w.pool.freeCount == 0, w.pool.freeCount, Held(w.pool)
  {
    var s := w.pool;
    AllListed(s);
    if s.count > s.config.high && (s.freeCount <= s.config.high || s.checkedOut != []) {
      CanReturnAll(w);
    } else if s.freeList != [] {
      var e := Alloc(s.config.initial);
      AllocGrows(s);
      HeadKept(w, e);
      var t := Apply(w, e);
      if s.count > s.config.high {
        CanReturnAll(t);
      } else {
        CanGrow(t);
      }
      RaiseAfter(w, e);
    } else if s.returning != [] {
      var id := s.returning[0];
      assert id in s.returning;
      ReturnShrinks(s, id);
      HeadKept(w, Return(id));
      CanGrow(Apply(w, Return(id)));
      RaiseAfter(w, Return(id));
    } else {
      HeadOut(s);
      var id := s.checkedOut[0];
      InvKept(w, Drop(id));
      CanGrow(Apply(w, Drop(id)));
      RaiseAfter(w, Drop(id));
    }
  }

  /** After a low signal a high one can still come exactly when the high watermark is below the maximum;
      a configured watermark at or above the maximum is clamped to it and never exceeded. */
  lemma HighSignalCanCome(w: World)
    requires Reached(w) && w.pool.empty
    ensures CanRaise(w) <==> w.pool.config.max == 0 || w.pool.config.high < w.pool.config.max
  {
    ReachedInv(w);
    if w.pool.config.max == 0 || w.pool.config.high < w.pool.config.max {
      if w.pool.returning == [] && w.pool.checkedOut != [] { HeadOut(w.pool); }
      CanGrow(w);
    } else {
      forall es, t
        ensures !RaisesHigh(w, es, t)
      {
        if Run(w, es, t) {
          RunKeepsInv(w, es, t);
          RunKeepsConfig(w, es, t);
        }
      }
    }
  }

  /** The high watermark can be the maximum, and then a pool that is low never says that it no longer is. */
  lemma HighSignalCanStayAway()
    ensures exists w :: Reached(w) && w.pool.empty && !CanRaise(w)
  {
    var config :| config == Config(2, 2, 1, 2);
    var w := LowForever(config);
    HighSignalCanCome(w);
  }

  lemma LowForever(config: Config) returns (w: World)
    requires config.initial == 2 && config.low == 1 && config.max == config.high == 2
    ensures Reached(w) && w.pool.empty && w.pool.config == config
  {
    var a := TwoFree(config);
    ReachedNext(a, Alloc(0));
    w := Apply(a, Alloc(0));
    OneOfTwoOut(a.pool, 0);
  }

  lemma {:induction false} RunKeepsConfig(w: World, es: seq<Event>, t: World)
    requires Inv(w) && Run(w, es, t)
    ensures t.pool.config == w.pool.config
    decreases |es|
  {
    if es != [] {
      InvKept(w, es[0]);
      if !es[0].Deliver? { StepRaises(w.pool, es[0]); }
      RunKeepsConfig(Apply(w, es[0]), es[1..], t);
    }
  }

  /** Allocation fails exactly when the growth at the last buffer taken made nothing and no buffer has come
      back since. Below the maximum, that growth asked for memory; it is not tried again. */
  lemma RefusesExactlyWhenDry(t: World, available: nat)
    requires Reached(t)
    ensures Enabled(t, Alloc(available))
    ensures Apply(t, Alloc(available)).pool == t.pool <==>
            t.growth.Some? && t.growth.value.made == 0 && t.back == 0
    ensures t.pool.freeList == [] && (t.pool.config.max == 0 || t.pool.count < t.pool.config.max) ==>
            t.growth.Some? && t.growth.value.asked > 0
  {
    ReachedInv(t);
    AllListed(t.pool);
    if t.pool.freeList != [] {
      AllocMovesHead(t.pool, available);
    }
  }

  lemma AllocMovesHead(s: State, mallocs: nat)
    requires PoolInv(s) && Known(s) && s.freeList != []
    ensures DoAlloc(s, mallocs) != s
  {
    TakeSizes(s, mallocs);
    assert |DoAlloc(s, mallocs).checkedOut| == |s.checkedOut| + 1;
  }

  ghost predicate RunsDry(w: World, es: seq<Event>, t: World)
  {
    Run(w, es, t) && t.pool.freeList == [] && t.pool.config == w.pool.config
  }

  /** From every state of every pool, fixed or growing, bounded or not, allocations without memory lead to one
      that refuses, whatever memory there is then. */
  lemma FailedGrowthIsNotRetried(w: World, available: nat)
    requires Reached(w)
    ensures exists es, t :: RunsDry(w, es, t) && Enabled(t, Alloc(available)) && Apply(t, Alloc(available)) == t
  {
    ReachedInv(w);
    CanRunDry(w, available);
  }

  lemma {:induction false} CanRunDry(w: World, available: nat)
    requires Inv(w)
    ensures exists es, t :: RunsDry(w, es, t) && Enabled(t, Alloc(available)) && Apply(t, Alloc(available)) == t
    decreases w.pool.freeCount
  {
    AllListed(w.pool);
    if w.pool.freeList == [] {
      AllocFromNothing(w, available);
      assert RunsDry(w, [], w);
    } else {
      var e := Alloc(0);
      AllocLeaves(w.pool, 0);
      InvKept(w, e);
      CanRunDry(Apply(w, e), available);
      var es, t :| RunsDry(Apply(w, e), es, t) && Enabled(t, Alloc(available)) && Apply(t, Alloc(available)) == t;
      assert ([e] + es)[1..] == es;
      assert RunsDry(w, [e] + es, t);
    }
  }

  lemma AllocFromNothing(t: World, mallocs: nat)
    requires t.pool.freeList == [] && t.pool.freeCount == 0
    ensures Enabled(t, Alloc(mallocs)) && Apply(t, Alloc(mallocs)) == t
  {
    assert t.inFlight + [] == t.inFlight;
  }
}
