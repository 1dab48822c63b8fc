/** The scheduler's worker thread and its client threads, interleaved between any two critical sections. */
module SchedulerRuns {
  import opened Prelude
  import opened Scheduler

  /** What a fetch that found nothing to run saw: the idle time it returned, the number of entries
      inserted so far, and the earliest deadline waiting. */
  datatype View = View(idle: int, mark: nat, due: Option<int>)

  datatype Worker =
    | Top
    | Polled(t: int)
    | Empty(view: View)
    | Sleepy(view: View)
    | Asleep(view: View)
    | Running(entry: Entry)
    | Exited

  /** A call to queue a task: when it was made, and with which delay. */
  datatype Asked = Asked(task: nat, context: nat, at: int, delay: nat)

  datatype State = State(
    now: seq<Entry>, later: seq<Entry>, clock: int, worker: Worker,
    filling: seq<Entry>,        // taken from the pool, not yet inserted
    unsignalled: nat,           // calls that still have to set the wake-up signal
    signal: bool, refs: nat, shouldRun: bool, out: nat,
    inserted: seq<Entry>, ran: seq<Entry>, ranAt: seq<int>, removed: seq<Entry>,
    calls: seq<Asked>,          // the calls behind what is being filled
    asked: seq<Asked>,          // the calls behind what was inserted
    late: bool)                 // the last release met a worker that had just found nothing, with work queued

  function Init(): State
  {
    State([], [], 0, Top, [], 0, false, 1, true, 0, [], [], [], [], [], [], false)
  }

  datatype Event =
    | Tick(d: nat)
    | Alloc(task: nat, context: nat, delay: nat)
    | Put(index: nat)
    | SetSignal
    | Clear(taskType: Option<nat>, owner: Option<nat>)
    | Kill(id: nat)
    | Retain
    | Release
    | ReadClock
    | Fetch
    | Decide
    | BeginWait
    | Wake
    | WaitEnds
    | Finish

  /** Clients hold a reference while they call; a task may call while it runs. */
  predicate Usable(s: State)
  {
    s.refs > 0 || s.worker.Running?
  }

  /** The last reference is given up when no call is in progress, or the running task may be the one in it;
      a task returns only when its calls have. */
  predicate Enabled(s: State, e: Event)
  {
    match e
    case Tick(_) => true
    case Alloc(_, _, _) => Usable(s)
    case Put(i) => i < |s.filling| == |s.calls|
    case SetSignal => s.unsignalled > 0
    case Clear(_, _) => Usable(s)
    case Kill(_) => Usable(s)
    case Retain => s.refs > 0
    case Release => s.refs > 1 || (s.refs == 1 && (s.filling == [] || s.worker.Running?))
    case ReadClock => s.worker.Top?
    case Fetch => s.worker.Polled?
    case Decide => s.worker.Empty?
    case BeginWait => s.worker.Sleepy?
    case Wake => s.worker.Asleep? && s.signal
    case WaitEnds => s.worker.Asleep?
    case Finish => s.worker.Running? && (s.refs > 0 || s.filling == [])
  }

  function DoAlloc(s: State, task: nat, context: nat, delay: nat): State
  {
    s.(filling := s.filling + [Entry(task, context, s.clock + delay, delay == 0, 0)], out := s.out + 1,
       calls := s.calls + [Asked(task, context, s.clock, delay)])
  }

  function DoPut(s: State, i: nat): State
    requires i < |s.filling| == |s.calls|
  {
    var e := s.filling[i].(order := |s.inserted|);
    s.(filling := s.filling[..i] + s.filling[i + 1..],
       now := if e.immediate then s.now + [e] else s.now,
       later := if e.immediate then s.later else Insert(s.later, e),
       inserted := s.inserted + [e],
       calls := s.calls[..i] + s.calls[i + 1..], asked := s.asked + [s.calls[i]],
       unsignalled := s.unsignalled + 1)
  }

  function DoClear(s: State, task: Option<nat>, context: Option<nat>): State
  {
    var gone := Taken(s.now, task, context) + Taken(s.later, task, context);
    s.(now := Kept(s.now, task, context), later := Kept(s.later, task, context),
       removed := s.removed + gone, out := Max(s.out - |gone|, 0))
  }

  function Max(a: int, b: int): int { if a > b then a else b }

  /** The first entry numbered `id`. */
  function Named(list: seq<Entry>, id: nat): Entry
    requires Has(list, id)
  {
    if list[0].order == id then list[0] else
    assert Has(list[1..], id) by {
      var i :| 0 <= i < |list| && list[i].order == id;
      assert list[1..][i - 1].order == id;
    }
    Named(list[1..], id)
  }

  function DoKill(s: State, id: nat): State
  {
    if Has(s.now, id) then
      s.(now := Without(s.now, id), removed := s.removed + [Named(s.now, id)], out := Max(s.out - 1, 0))
    else if Has(s.later, id) then
      s.(later := Without(s.later, id), removed := s.removed + [Named(s.later, id)], out := Max(s.out - 1, 0))
    else s
  }

  function DoRelease(s: State): State
    requires s.refs > 0
  {
    if s.refs > 1 then s.(refs := s.refs - 1)
    else s.(refs := 0, shouldRun := false, unsignalled := s.unsignalled + 1, late := Racing(s))
  }

  /** The worker has found nothing to run or wait for, has not yet looked at the stop flag, and since then
      work was queued. */
  predicate Racing(s: State)
  {
    s.worker.Empty? && s.worker.view.due.None? && (s.now != [] || s.later != [])
  }

  function DoFetch(s: State): State
    requires s.worker.Polled?
  {
    var f := GetNext(s.now, s.later, s.worker.t);
    if f.entry.Some? then
      s.(now := f.now, later := f.later, worker := Running(f.entry.value),
         ran := s.ran + [f.entry.value], ranAt := s.ranAt + [s.worker.t])
    else
      s.(worker := Empty(View(f.idle, |s.inserted|,
                              if s.later == [] then None else Some(s.later[0].deadline))))
  }

  function DoDecide(s: State): State
    requires s.worker.Empty?
  {
    s.(worker := if !s.shouldRun && s.worker.view.idle == -1 then Exited else Sleepy(s.worker.view))
  }

  function DoBeginWait(s: State): State
    requires s.worker.Sleepy?
  {
    if s.signal then s.(signal := false, worker := Top) else s.(worker := Asleep(s.worker.view))
  }

  function Apply(s: State, e: Event): State
    requires Enabled(s, e)
  {
    match e
    case Tick(d) => s.(clock := s.clock + d)
    case Alloc(t, c, d) => DoAlloc(s, t, c, d)
    case Put(i) => DoPut(s, i)
    case SetSignal => s.(unsignalled := s.unsignalled - 1, signal := true)
    case Clear(t, c) => DoClear(s, t, c)
    case Kill(id) => DoKill(s, id)
    case Retain => s.(refs := s.refs + 1)
    case Release => DoRelease(s)
    case ReadClock => s.(worker := Polled(s.clock))
    case Fetch => DoFetch(s)
    case Decide => DoDecide(s)
    case BeginWait => DoBeginWait(s)
    case Wake => s.(signal := false, worker := Top)
    case WaitEnds => s.(worker := Top)
    case Finish => s.(worker := Top, out := Max(s.out - 1, 0))
  }

  ghost predicate Run(s: State, es: seq<Event>, t: State)
    decreases |es|
  {
    if es == [] then s == t
    else Enabled(s, es[0]) && Run(Apply(s, es[0]), es[1..], t)
  }

  ghost predicate Reached(t: State)
  {
    exists es :: Run(Init(), es, t)
  }

  // ---- Order of the two lists ------------------------------------------------------------------

  predicate Numbered(list: seq<Entry>, n: nat)
  {
    forall e :: e in list ==> e.order < n
  }

  predicate OrderInv(s: State)
  {
    && Sorted(s.later) && Queued(s.now)
    && Numbered(s.now, |s.inserted|) && Numbered(s.later, |s.inserted|)
    && (forall e :: e in s.now ==> e.immediate)
    && (forall e :: e in s.later ==> !e.immediate)
  }

  lemma InsertedIn(later: seq<Entry>, e: Entry)
    ensures forall x :: x in Insert(later, e) ==> x == e || x in later
  {
  }

  lemma OrderPut(s: State, i: nat)
    requires OrderInv(s) && i < |s.filling| == |s.calls|
    ensures OrderInv(DoPut(s, i))
  {
    var e := s.filling[i].(order := |s.inserted|);
    if e.immediate {
    } else {
      assert forall k :: 0 <= k < |s.later| ==> s.later[k] in s.later;
      InsertKeepsSorted(s.later, e);
      InsertedIn(s.later, e);
    }
  }

  lemma OrderClear(s: State, task: Option<nat>, context: Option<nat>)
    requires OrderInv(s)
    ensures OrderInv(DoClear(s, task, context))
  {
    ClearKeepsSorted(s.later, task, context);
    ClearKeepsQueued(s.now, task, context);
  }

  lemma {:induction false} WithoutKeepsSorted(list: seq<Entry>, id: nat)
    requires Sorted(list)
    ensures Sorted(Without(list, id))
  {
    if list != [] {
      SortedTail(list);
      WithoutKeepsSorted(list[1..], id);
      SortedCons(list[0], Without(list[1..], id));
    }
  }

  lemma {:induction false} WithoutKeepsQueued(list: seq<Entry>, id: nat)
    requires Queued(list)
    ensures Queued(Without(list, id))
  {
    if list != [] {
      QueuedTail(list);
      WithoutKeepsQueued(list[1..], id);
      QueuedCons(list[0], Without(list[1..], id));
    }
  }

  lemma OrderKill(s: State, id: nat)
    requires OrderInv(s)
    ensures OrderInv(DoKill(s, id))
  {
    WithoutKeepsQueued(s.now, id);
    WithoutKeepsSorted(s.later, id);
  }

  lemma OrderFetch(s: State)
    requires OrderInv(s) && s.worker.Polled?
    ensures OrderInv(DoFetch(s))
  {
    if s.now != [] { QueuedTail(s.now); }
    if s.later != [] { SortedTail(s.later); }
  }

  lemma OrderKept(s: State, e: Event)
    requires OrderInv(s) && Enabled(s, e)
    ensures OrderInv(Apply(s, e))
  {
    match e
    case Put(i) => OrderPut(s, i);
    case Clear(t, c) => OrderClear(s, t, c);
    case Kill(id) => OrderKill(s, id);
    case Fetch => OrderFetch(s);
    case _ =>
  }

  // ---- Start order and start time --------------------------------------------------------------

  predicate StartInv(s: State)
  {
    && |s.ran| == |s.ranAt|
    && (forall i :: 0 <= i < |s.ran| ==> InTime(s.ran[i], s.ranAt[i]))
    && (forall i, j :: 0 <= i < j < |s.ran| && s.ran[i].immediate && s.ran[j].immediate ==>
          s.ran[i].order < s.ran[j].order)
    && (forall i, e :: 0 <= i < |s.ran| && s.ran[i].immediate && e in s.now ==> s.ran[i].order < e.order)
    && (forall i :: 0 <= i < |s.ran| ==> s.ran[i].order < |s.inserted|)
  }

  predicate InTime(e: Entry, t: int)
  {
    e.immediate || Wrap32(e.deadline - t) <= 0
  }

  lemma StartPut(s: State, i: nat)
    requires StartInv(s) && OrderInv(s) && i < |s.filling| == |s.calls|
    ensures StartInv(DoPut(s, i))
  {
  }

  lemma StartFewer(s: State, t: State)
    requires StartInv(s) && t.ran == s.ran && t.ranAt == s.ranAt && t.inserted == s.inserted
    requires forall e :: e in t.now ==> e in s.now
    ensures StartInv(t)
  {
  }

  /** One more task starts, in time and behind the immediate tasks started before. */
  lemma StartOne(s: State, t: State, e: Entry, at: int)
    requires StartInv(s) && t.ran == s.ran + [e] && t.ranAt == s.ranAt + [at] && t.inserted == s.inserted
    requires InTime(e, at) && e.order < |s.inserted|
    requires forall x :: x in t.now ==> x in s.now
    requires e.immediate ==> e in s.now && forall x :: x in t.now ==> e.order < x.order
    ensures StartInv(t)
  {
  }

  lemma StartFetch(s: State)
    requires StartInv(s) && OrderInv(s) && s.worker.Polled?
    ensures StartInv(DoFetch(s))
  {
    var f := GetNext(s.now, s.later, s.worker.t);
    if f.entry.Some? {
      var e := f.entry.value;
      if s.later != [] && Wrap32(s.later[0].deadline - s.worker.t) <= 0 {
        assert e in s.later && !e.immediate;
      } else {
        assert e in s.now && e.immediate;
        QueuedTail(s.now);
      }
      StartOne(s, DoFetch(s), e, s.worker.t);
    }
  }

  lemma StartKept(s: State, e: Event)
    requires StartInv(s) && OrderInv(s) && Enabled(s, e)
    ensures StartInv(Apply(s, e))
  {
    match e
    case Put(i) => StartPut(s, i);
    case Fetch => StartFetch(s);
    case _ => StartFewer(s, Apply(s, e));
  }

  // ---- Conservation ----------------------------------------------------------------------------

  predicate PoolInv(s: State)
  {
    && s.out == |s.now| + |s.later| + |s.filling| + (if s.worker.Running? then 1 else 0)
    && (forall i :: 0 <= i < |s.inserted| ==> s.inserted[i].order == i)
  }

  predicate LogInv(s: State)
  {
    multiset(s.inserted) == Pending(s.now, s.later) + multiset(s.ran) + multiset(s.removed)
  }

  lemma {:induction false} WithoutDropsOne(list: seq<Entry>, id: nat)
    requires Has(list, id)
    ensures multiset(list) == multiset(Without(list, id)) + multiset{Named(list, id)}
    ensures |list| == |Without(list, id)| + 1
  {
    assert list == [list[0]] + list[1..];
    if list[0].order != id {
      assert Has(list[1..], id) by {
        var i :| 0 <= i < |list| && list[i].order == id;
        assert list[1..][i - 1].order == id;
      }
      WithoutDropsOne(list[1..], id);
    }
  }

  lemma PoolPut(s: State, i: nat)
    requires PoolInv(s) && i < |s.filling| == |s.calls|
    ensures PoolInv(DoPut(s, i))
  {
    var e := s.filling[i].(order := |s.inserted|);
    assert |Insert(s.later, e)| == |s.later| + 1;
  }

  lemma PoolClear(s: State, t: Option<nat>, c: Option<nat>)
    requires PoolInv(s)
    ensures PoolInv(DoClear(s, t, c))
  {
    ClearLengths(s.now, t, c);
    ClearLengths(s.later, t, c);
  }

  lemma PoolKill(s: State, id: nat)
    requires PoolInv(s)
    ensures PoolInv(DoKill(s, id))
  {
    if Has(s.now, id) { WithoutDropsOne(s.now, id); }
    else if Has(s.later, id) { WithoutDropsOne(s.later, id); }
  }

  lemma PoolFetch(s: State)
    requires PoolInv(s) && s.worker.Polled?
    ensures PoolInv(DoFetch(s))
  {
  }

  lemma PoolKept(s: State, e: Event)
    requires PoolInv(s) && Enabled(s, e)
    ensures PoolInv(Apply(s, e))
  {
    match e
    case Put(i) => PoolPut(s, i);
    case Clear(t, c) => PoolClear(s, t, c);
    case Kill(id) => PoolKill(s, id);
    case Fetch => PoolFetch(s);
    case _ =>
  }

  lemma LogPut(s: State, i: nat)
    requires LogInv(s) && i < |s.filling| == |s.calls|
    ensures LogInv(DoPut(s, i))
  {
    InsertAdds(s.later, s.filling[i].(order := |s.inserted|));
  }

  lemma LogClear(s: State, t: Option<nat>, c: Option<nat>)
    requires LogInv(s)
    ensures LogInv(DoClear(s, t, c))
  {
    ClearSplits(s.now, t, c);
    ClearSplits(s.later, t, c);
    var gone := Taken(s.now, t, c) + Taken(s.later, t, c);
    assert multiset(s.removed + gone) ==
           multiset(s.removed) + (multiset(Taken(s.now, t, c)) + multiset(Taken(s.later, t, c)));
  }

  lemma LogKill(s: State, id: nat)
    requires LogInv(s)
    ensures LogInv(DoKill(s, id))
  {
    if Has(s.now, id) { WithoutDropsOne(s.now, id); }
    else if Has(s.later, id) { WithoutDropsOne(s.later, id); }
  }

  lemma OneMoves(e: multiset<Entry>, pending: multiset<Entry>, ran: multiset<Entry>, removed: multiset<Entry>)
    ensures (e + pending) + ran + removed == pending + (ran + e) + removed
  {
  }

  lemma LogFetch(s: State)
    requires LogInv(s) && s.worker.Polled?
    ensures LogInv(DoFetch(s))
  {
    var f := GetNext(s.now, s.later, s.worker.t);
    if f.entry.Some? {
      var e := multiset{f.entry.value};
      assert Pending(s.now, s.later) == e + Pending(f.now, f.later) by {
        if s.later != [] {
          HeadSplits(s.later);
          Regroup(multiset{s.later[0]}, multiset(s.now), multiset(s.later[1..]));
        }
        if s.now != [] {
          HeadSplits(s.now);
          Regroup(multiset{s.now[0]}, multiset(s.now[1..]), multiset(s.later));
        }
      }
      assert multiset(s.ran + [f.entry.value]) == multiset(s.ran) + e;
      OneMoves(e, Pending(f.now, f.later), multiset(s.ran), multiset(s.removed));
    }
  }

  lemma LogKept(s: State, e: Event)
    requires LogInv(s) && Enabled(s, e)
    ensures LogInv(Apply(s, e))
  {
    match e
    case Put(i) => LogPut(s, i);
    case Clear(t, c) => LogClear(s, t, c);
    case Kill(id) => LogKill(s, id);
    case Fetch => LogFetch(s);
    case _ =>
  }

  // ---- What was asked for ----------------------------------------------------------------------

  predicate Answers(e: Entry, a: Asked)
  {
    && e.task == a.task && e.context == a.context
    && e.deadline == a.at + a.delay && (e.immediate <==> a.delay == 0)
  }

  predicate AskedInv(s: State)
  {
    && |s.calls| == |s.filling| && (forall i :: 0 <= i < |s.filling| ==> Answers(s.filling[i], s.calls[i]))
    && |s.asked| == |s.inserted| && (forall i :: 0 <= i < |s.inserted| ==> Answers(s.inserted[i], s.asked[i]))
  }

  lemma AskedKept(s: State, e: Event)
    requires AskedInv(s) && Enabled(s, e)
    ensures AskedInv(Apply(s, e))
  {
    match e
    case Put(i) => AskedPut(s, i);
    case _ =>
  }

  lemma AskedPut(s: State, i: nat)
    requires AskedInv(s) && i < |s.filling|
    ensures AskedInv(DoPut(s, i))
  {
  }

  // ---- Wake-ups --------------------------------------------------------------------------------

  /** The worker cannot stay asleep: the signal is set, or a call is about to set it. */
  predicate Woken(s: State)
  {
    s.signal || s.unsignalled > 0
  }

  predicate Seen(s: State, v: View)
  {
    && v.mark <= |s.inserted|
    && (v.mark < |s.inserted| ==> Woken(s))
    && (v.idle == -1 <==> v.due.None?)
    && (forall e :: e in s.now ==> e.order >= v.mark)
    && (forall e :: e in s.later && e.order < v.mark ==> v.due.Some? && v.due.value <= e.deadline)
  }

  predicate WakeInv(s: State)
  {
    && (s.worker.Empty? || s.worker.Sleepy? || s.worker.Asleep? ==> Seen(s, s.worker.view))
    && ((s.worker.Sleepy? || s.worker.Asleep?) && s.worker.view.due.None? && !s.shouldRun ==> Woken(s))
  }

  lemma WakePut(s: State, i: nat)
    requires WakeInv(s) && i < |s.filling| == |s.calls|
    ensures WakeInv(DoPut(s, i))
  {
    InsertedIn(s.later, s.filling[i].(order := |s.inserted|));
  }

  lemma WakeFetch(s: State)
    requires WakeInv(s) && OrderInv(s) && s.worker.Polled?
    ensures WakeInv(DoFetch(s))
  {
    var t := DoFetch(s);
    if t.worker.Empty? && s.later != [] {
      forall e | e in s.later
        ensures s.later[0].deadline <= e.deadline
      {
        var k :| 0 <= k < |s.later| && s.later[k] == e;
        assert k > 0 ==> Before(s.later[0], s.later[k]);
      }
    }
  }

  /** Removing entries hides nothing from the worker. */
  lemma WakeFewer(s: State, t: State)
    requires WakeInv(s) && t == s.(now := t.now, later := t.later, removed := t.removed, out := t.out)
    requires forall e :: e in t.now ==> e in s.now
    requires forall e :: e in t.later ==> e in s.later
    ensures WakeInv(t)
  {
  }

  /** The lists and the worker's view are as before, and no wake-up was taken back. */
  lemma WakeSame(s: State, t: State)
    requires WakeInv(s) && t.now == s.now && t.later == s.later && t.inserted == s.inserted
    requires t.worker == s.worker && (Woken(s) ==> Woken(t)) && (s.shouldRun && !t.shouldRun ==> Woken(t))
    ensures WakeInv(t)
  {
  }

  lemma WakeDecide(s: State)
    requires WakeInv(s) && s.worker.Empty?
    ensures WakeInv(DoDecide(s))
  {
    assert Seen(s, s.worker.view);
    assert Seen(DoDecide(s), s.worker.view);
  }

  lemma WakeBeginWait(s: State)
    requires WakeInv(s) && s.worker.Sleepy?
    ensures WakeInv(DoBeginWait(s))
  {
    if !s.signal { assert Seen(DoBeginWait(s), s.worker.view); }
  }

  lemma WakeKept(s: State, e: Event)
    requires WakeInv(s) && OrderInv(s) && Enabled(s, e)
    ensures WakeInv(Apply(s, e))
  {
    match e
    case Put(i) => WakePut(s, i);
    case Clear(_, _) => WakeFewer(s, Apply(s, e));
    case Kill(_) => WakeFewer(s, Apply(s, e));
    case Fetch => WakeFetch(s);
    case Decide => WakeDecide(s);
    case BeginWait => WakeBeginWait(s);
    case Tick(_) => WakeSame(s, Apply(s, e));
    case Alloc(_, _, _) => WakeSame(s, Apply(s, e));
    case SetSignal => WakeSame(s, Apply(s, e));
    case Retain => WakeSame(s, Apply(s, e));
    case Release => WakeSame(s, Apply(s, e));
    case _ =>
  }

  // ---- Shutting down ---------------------------------------------------------------------------

  predicate Idle(s: State)
  {
    s.now == [] && s.later == [] && s.filling == []
  }

  predicate ExitInv(s: State)
  {
    && (s.shouldRun <==> s.refs > 0)
    && (s.refs == 0 && !s.worker.Running? ==> s.filling == [])
    && (s.refs > 0 ==> !s.late)
    && (s.worker.Empty? && s.worker.view.due.None? && s.refs == 0 && !s.late ==> Idle(s))
    && (s.worker.Exited? ==> s.refs == 0)
    && (s.worker.Exited? && !s.late ==> Idle(s))
    && (s.worker.Empty? ==> (s.worker.view.idle == -1 <==> s.worker.view.due.None?))
  }

  lemma ExitClear(s: State, t: Option<nat>, c: Option<nat>)
    requires ExitInv(s) && Usable(s)
    ensures ExitInv(DoClear(s, t, c))
  {
  }

  lemma ExitFetch(s: State)
    requires ExitInv(s) && s.worker.Polled?
    ensures ExitInv(DoFetch(s))
  {
  }

  lemma ExitKept(s: State, e: Event)
    requires ExitInv(s) && Enabled(s, e)
    ensures ExitInv(Apply(s, e))
  {
    match e
    case Clear(t, c) => ExitClear(s, t, c);
    case Fetch => ExitFetch(s);
    case _ =>
  }

  // ---- Runs ------------------------------------------------------------------------------------

  predicate Inv(s: State)
  {
    OrderInv(s) && StartInv(s) && PoolInv(s) && LogInv(s) && WakeInv(s) && ExitInv(s) && AskedInv(s)
  }

  lemma InvKept(s: State, e: Event)
    requires Inv(s) && Enabled(s, e)
    ensures Inv(Apply(s, e))
  {
    OrderKept(s, e);
    StartKept(s, e);
    PoolKept(s, e);
    LogKept(s, e);
    WakeKept(s, e);
    ExitKept(s, e);
    AskedKept(s, e);
  }

  lemma {:induction false} RunKeepsInv(s: State, es: seq<Event>, t: State)
    requires Inv(s) && Run(s, es, t)
    ensures Inv(t)
    decreases |es|
  {
    if es != [] {
      InvKept(s, es[0]);
      RunKeepsInv(Apply(s, es[0]), es[1..], t);
    }
  }

  lemma ReachedInv(t: State)
    requires Reached(t)
    ensures Inv(t)
  {
    var es :| Run(Init(), es, t);
    RunKeepsInv(Init(), es, t);
  }

  // ---- Theorems --------------------------------------------------------------------------------

  /** No wake-up is lost: whenever the worker is on its way to sleep or asleep, and some pending task is
      immediate or due before the deadline its timeout was computed from, the signal is set or the call
      that queued the task is about to set it. */
  lemma NoLostWakeup(t: State, e: Entry)
    requires Reached(t) && (t.worker.Empty? || t.worker.Sleepy? || t.worker.Asleep?)
    requires e in t.now || (e in t.later && (t.worker.view.due.Some? ==> e.deadline < t.worker.view.due.value))
    ensures t.signal || t.unsignalled > 0
  {
    ReachedInv(t);
  }

  /** A worker without a timeout is always woken for the last release. */
  lemma LastReleaseWakesWorker(t: State)
    requires Reached(t) && t.worker.Asleep? && t.worker.view.due.None? && !t.shouldRun
    ensures t.signal || t.unsignalled > 0
  {
    ReachedInv(t);
  }

  /** Immediate tasks start in the order they were queued, ahead of those still queued. */
  lemma ImmediateTasksStartInOrder(t: State, i: nat, j: nat)
    requires Reached(t) && i < j < |t.ran| && t.ran[i].immediate && t.ran[j].immediate
    ensures t.ran[i].order < t.ran[j].order
    ensures forall e :: e in t.now ==> t.ran[j].order < e.order
  {
    ReachedInv(t);
  }

  /** The call behind a started task. */
  lemma StartedWasAsked(t: State, i: nat)
    requires Reached(t) && i < |t.ran|
    ensures t.ran[i].order < |t.asked| && Answers(t.ran[i], t.asked[t.ran[i].order])
  {
    ReachedInv(t);
    var e := t.ran[i];
    assert e in multiset(t.ran);
    assert e in multiset(t.inserted);
    var k :| 0 <= k < |t.inserted| && t.inserted[k] == e;
  }

  /** A started task is the one a call asked for. If that asked for a delay, the delay had passed since exactly
      when the 32-bit difference tells, by the clock the worker read; so it starts early only if 2^31 ms or more
      were left. */
  lemma DelayedTasksStartOnTime(t: State, i: nat)
    requires Reached(t) && i < |t.ran|
    ensures |t.ran| == |t.ranAt| && t.ran[i].order < |t.asked|
    ensures var a := t.asked[t.ran[i].order];
      && t.ran[i].task == a.task && t.ran[i].context == a.context && (t.ran[i].immediate <==> a.delay == 0)
      && (a.delay > 0 ==> var x := a.at + a.delay - t.ranAt[i];
           (x <= 0 <==> Told(x)) && (x > 0 ==> x >= 0x8000_0000))
  {
    ReachedInv(t);
    StartedWasAsked(t, i);
    assert InTime(t.ran[i], t.ranAt[i]);
    WrapTells(t.ran[i].deadline - t.ranAt[i]);
  }

  /** Killing a task by its number removes it if it is pending, and no other. */
  lemma KillIsExact(t: State, id: nat, e: Entry)
    requires Reached(t)
    ensures var u := DoKill(t, id); Pending(u.now, u.later)[e] == if e.order == id then 0 else Pending(t.now, t.later)[e]
  {
    ReachedInv(t);
    if e.order != id {
      WithoutCounts(t.now, id, e);
      WithoutCounts(t.later, id, e);
    } else if e in t.now {
      OnlyOne(t, e);
      WithoutRemoves(t.now, e);
      assert Has(t.now, id);
    } else if e in t.later {
      OnlyOne(t, e);
      WithoutRemoves(t.later, e);
      assert !Has(t.now, id) && Has(t.later, id);
    }
  }

  /** A pending entry is pending once, and no other has its number. */
  lemma OnlyOne(t: State, e: Entry)
    requires PoolInv(t) && LogInv(t) && (e in t.now || e in t.later)
    ensures multiset(t.now)[e] + multiset(t.later)[e] == 1
    ensures forall x :: (x in t.now || x in t.later) && x.order == e.order ==> x == e
  {
    Distinct(t.inserted, e);
    assert multiset(t.inserted)[e] == Pending(t.now, t.later)[e] + multiset(t.ran)[e] + multiset(t.removed)[e];
    forall x | (x in t.now || x in t.later) && x.order == e.order
      ensures x == e
    {
      IsInserted(t, x);
      IsInserted(t, e);
    }
  }

  lemma IsInserted(t: State, x: Entry)
    requires PoolInv(t) && LogInv(t) && (x in t.now || x in t.later)
    ensures x.order < |t.inserted| && t.inserted[x.order] == x
  {
    assert Pending(t.now, t.later)[x] > 0;
    assert x in multiset(t.inserted);
    var i :| 0 <= i < |t.inserted| && t.inserted[i] == x;
  }

  lemma {:induction false} WithoutRemoves(list: seq<Entry>, e: Entry)
    requires multiset(list)[e] <= 1 && forall x :: x in list && x.order == e.order ==> x == e
    ensures multiset(Without(list, e.order))[e] == 0
  {
    if list != [] {
      HeadSplits(list);
      if list[0].order != e.order {
        WithoutRemoves(list[1..], e);
        ConsSplits(list[0], Without(list[1..], e.order));
      }
    }
  }

  lemma {:induction false} WithoutCounts(list: seq<Entry>, id: nat, e: Entry)
    requires e.order != id
    ensures multiset(Without(list, id))[e] == multiset(list)[e]
  {
    if list != [] {
      HeadSplits(list);
      if list[0].order != id {
        WithoutCounts(list[1..], id, e);
        ConsSplits(list[0], Without(list[1..], id));
      }
    }
  }

  /** In every run, what the worker does next is what the lists and the clock it read call for exactly when the
      32-bit difference tells whether the first deadline has passed. */
  lemma FetchesAreTimely(s: State)
    requires Reached(s) && s.worker.Polled?
    ensures Timely(s.now, s.later, s.worker.t) <==> s.later == [] || Told(s.later[0].deadline - s.worker.t)
  {
    ReachedInv(s);
    FetchIsTimely(s.now, s.later, s.worker.t);
  }

  /** Every queued task is pending, was started, or was removed, and only one of these, once. */
  lemma EachTaskHasOneFate(t: State, e: Entry)
    requires Reached(t) && e in t.inserted
    ensures Pending(t.now, t.later)[e] + multiset(t.ran)[e] + multiset(t.removed)[e] == 1
  {
    ReachedInv(t);
    Distinct(t.inserted, e);
  }

  lemma {:induction false} Distinct(list: seq<Entry>, e: Entry)
    requires forall i :: 0 <= i < |list| ==> list[i].order == i
    ensures multiset(list)[e] <= 1
  {
    if list != [] {
      var n := |list| - 1;
      assert list == list[..n] + [list[n]];
      Distinct(list[..n], e);
      if e == list[n] {
        assert e !in list[..n];
      }
    }
  }

  /** The pool entries checked out are those pending, being filled or running. */
  lemma PoolEntriesAccounted(t: State)
    requires Reached(t)
    ensures t.out == |t.now| + |t.later| + |t.filling| + (if t.worker.Running? then 1 else 0)
  {
    ReachedInv(t);
  }

  // ---- Where the guarantees end ----------------------------------------------------------------

  /** The worker exits with tasks still queued only if the last release raced with a fetch. Otherwise it
      has run or dropped everything and returned every pool entry. */
  lemma ExitLeavesNothing(t: State)
    requires Reached(t) && t.worker.Exited? && !t.late
    ensures t.now == [] && t.later == [] && t.out == 0
  {
    ReachedInv(t);
  }

  ghost predicate Strands(s: State, es: seq<Event>, t: State)
  {
    Run(s, es, t) && t.worker.Exited? && (t.now != [] || t.later != [])
  }

  /** Whether the last release can make the worker exit with tasks queued is decided by the state it meets:
      exactly when the worker has just found nothing and work was queued since. */
  lemma LastReleaseIsSafe(s: State)
    requires Reached(s) && s.refs == 1 && Enabled(s, Release)
    ensures (exists es, t :: Strands(DoRelease(s), es, t)) <==> Racing(s)
  {
    ReachedInv(s);
    var r := DoRelease(s);
    assert r == Apply(s, Release);
    InvKept(s, Release);
    if Racing(s) {
      var t := DoDecide(r);
      assert Apply(r, Decide) == t;
      assert Run(t, [], t);
      assert [Decide][1..] == [];
      assert Run(r, [Decide], t);
      assert Strands(r, [Decide], t);
    } else {
      forall es, t
        ensures !Strands(r, es, t)
      {
        if Run(r, es, t) && t.worker.Exited? {
          RunKeepsInv(r, es, t);
          LateIsSettled(r, es, t);
        }
      }
    }
  }

  lemma {:induction false} LateIsSettled(s: State, es: seq<Event>, t: State)
    requires Run(s, es, t) && s.refs == 0
    ensures t.refs == 0 && t.late == s.late
    decreases |es|
  {
    if es != [] {
      LateIsSettled(Apply(s, es[0]), es[1..], t);
    }
  }

  lemma {:induction false} RunSnoc(r: State, es: seq<Event>, s: State, e: Event)
    requires Run(r, es, s) && Enabled(s, e)
    ensures Run(r, es + [e], Apply(s, e))
    decreases |es|
  {
    var more := es + [e];
    if es == [] {
      assert more[0] == e && more[1..] == [];
    } else {
      assert more[0] == es[0] && more[1..] == es[1..] + [e];
      RunSnoc(Apply(r, es[0]), es[1..], s, e);
    }
  }

  lemma ReachedNext(s: State, e: Event)
    requires Reached(s) && Enabled(s, e)
    ensures Reached(Apply(s, e))
  {
    var es :| Run(Init(), es, s);
    RunSnoc(Init(), es, s, e);
  }

  /** A fetch that finds nothing, followed by a task queued. */
  lemma RaceReached() returns (s: State)
    ensures Reached(s) && Racing(s) && s.refs == 1 && s.filling == [] && |s.now| == 1 && s.ran == []
    ensures s.worker.view.idle == -1
  {
    s := Init();
    assert Run(s, [], s);
    ReachedNext(s, ReadClock);
    s := Apply(s, ReadClock);
    ReachedNext(s, Fetch);
    assert Apply(s, Fetch) == s.(worker := Empty(View(-1, 0, None)));
    s := s.(worker := Empty(View(-1, 0, None)));
    ReachedNext(s, Alloc(1, 1, 0));
    var e := Entry(1, 1, 0, true, 0);
    assert Apply(s, Alloc(1, 1, 0)) == s.(filling := [e], out := 1, calls := [Asked(1, 1, 0, 0)]);
    s := s.(filling := [e], out := 1, calls := [Asked(1, 1, 0, 0)]);
    ReachedNext(s, Put(0));
    s := Apply(s, Put(0));
  }

  /** Such a race exists: the worker polls an empty scheduler, a client queues a task and gives up the last
      reference, and the worker exits without running the task. */
  lemma ExitCanStrandATask()
    ensures exists t :: Reached(t) && t.worker.Exited? && |t.now| == 1 && t.ran == []
  {
    var s := RaceReached();
    ReachedNext(s, Release);
    var r := Apply(s, Release);
    ReachedNext(r, Decide);
  }

  /** A task with the delay is queued and the worker has read the clock `after` ms later. */
  lemma DelayedTaskPolled(delay: nat, after: nat) returns (s: State)
    requires delay > 0
    ensures Reached(s) && s.worker == Polled(after) && s.clock == after && s.now == s.ran == [] && s.ranAt == []
    ensures s.later == [Entry(0, 0, delay, false, 0)]
  {
    var e := Entry(0, 0, delay, false, 0);
    var a := Init();
    assert Run(a, [], a);
    ReachedNext(a, Alloc(0, 0, delay));
    var b := Apply(a, Alloc(0, 0, delay));
    assert b.filling == [e];
    ReachedNext(b, Put(0));
    var c := Apply(b, Put(0));
    assert Insert([], e) == [e];
    ReachedNext(c, Tick(after));
    var d := Apply(c, Tick(after));
    ReachedNext(d, ReadClock);
    s := Apply(d, ReadClock);
  }

  /** A task with a delay of 2^31 ms can start at once. */
  lemma LongDelayCanStartAtOnce()
    ensures exists t :: Reached(t) && t.ranAt == [0] && |t.ran| == 1 && t.ran[0].deadline == 0x8000_0000
  {
    var s := DelayedTaskPolled(0x8000_0000, 0);
    ReachedNext(s, Fetch);
    WrapTells(0x8000_0000);
    var t := DoFetch(s);
    assert t.ran == s.later && t.ranAt == [0];
  }

  /** A task overdue by more than 2^31 ms can be held back: the worker finds nothing to run. */
  lemma OverdueTaskCanBeHeldBack()
    ensures exists t :: Reached(t) && t.worker.Empty? && t.ran == [] && |t.later| == 1
              && t.later[0].deadline + 0x8000_0001 == t.clock
  {
    var s := DelayedTaskPolled(1, 0x8000_0002);
    ReachedNext(s, Fetch);
    WrapTells(-0x8000_0001);
    var t := DoFetch(s);
    assert t.worker.Empty? && t.later == s.later;
  }
}
