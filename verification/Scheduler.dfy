/** The task scheduler: an immediate FIFO list, a list ordered by deadline, and their entries' pool. */
module Scheduler {
  import opened Prelude

  /** `order` numbers the entries as they are inserted; immediate entries were queued without delay. */
  datatype Entry = Entry(task: nat, context: nat, deadline: int, immediate: bool, order: nat)

  /** Conversion of a 64-bit tick difference to a signed 32-bit number of milliseconds. */
  function Wrap32(x: int): (r: int)
    ensures -0x8000_0000 <= r < 0x8000_0000
    ensures -0x8000_0000 <= x < 0x8000_0000 ==> r == x
  {
    (x + 0x8000_0000) % 0x1_0000_0000 - 0x8000_0000
  }

  // ---- Inserting by deadline -------------------------------------------------------------------

  /** Index of the first entry due later than `deadline`, or the length of the list. */
  function Position(later: seq<Entry>, deadline: int): (i: nat)
    ensures i <= |later|
    ensures forall j :: 0 <= j < i ==> later[j].deadline <= deadline
    ensures i < |later| ==> later[i].deadline > deadline
  {
    if later == [] || later[0].deadline > deadline then 0 else 1 + Position(later[1..], deadline)
  }

  function Insert(later: seq<Entry>, e: Entry): seq<Entry>
  {
    var i := Position(later, e.deadline);
    later[..i] + [e] + later[i..]
  }

  /** Due earlier, or at the same time and inserted earlier. */
  predicate Before(a: Entry, b: Entry)
  {
    a.deadline < b.deadline || (a.deadline == b.deadline && a.order < b.order)
  }

  predicate Sorted(later: seq<Entry>)
  {
    forall i, j :: 0 <= i < j < |later| ==> Before(later[i], later[j])
  }

  /** A new entry goes behind all entries due no later than itself, so the list stays sorted by
      deadline with ties in insertion order. */
  lemma InsertKeepsSorted(later: seq<Entry>, e: Entry)
    requires Sorted(later) && forall i :: 0 <= i < |later| ==> later[i].order < e.order
    ensures Sorted(Insert(later, e))
  {
    var i := Position(later, e.deadline);
    var r := Insert(later, e);
    forall a, b | 0 <= a < b < |r|
      ensures Before(r[a], r[b])
    {
      if a < i {
        assert r[a] == later[a];
        if b == i { assert r[b] == e; } else {
          assert r[b] == later[if b < i then b else b - 1];
        }
      } else {
        assert r[b] == later[b - 1];
        if a == i {
          assert r[a] == e;
          assert b - 1 == i || Before(later[i], later[b - 1]);
        } else {
          assert r[a] == later[a - 1];
        }
      }
    }
  }

  lemma InsertAdds(later: seq<Entry>, e: Entry)
    ensures multiset(Insert(later, e)) == multiset(later) + multiset{e}
  {
    var i := Position(later, e.deadline);
    assert later == later[..i] + later[i..];
  }

  // ---- Fetching --------------------------------------------------------------------------------

  /** The entry to run, if any, what is left, and how long to idle; -1 means until woken. */
  datatype Fetched = Fetched(entry: Option<Entry>, now: seq<Entry>, later: seq<Entry>, idle: int)

  function GetNext(now: seq<Entry>, later: seq<Entry>, t: int): Fetched
  {
    var idle := if later == [] then -1 else Wrap32(later[0].deadline - t);
    if later != [] && idle <= 0 then Fetched(Some(later[0]), now, later[1..], 0)
    else if now != [] then Fetched(Some(now[0]), now[1..], later, 0)
    else Fetched(None, now, later, idle)
  }

  predicate Due(later: seq<Entry>, t: int)
  {
    exists e :: e in later && e.deadline <= t
  }

  /** The signed 32-bit difference says whether a deadline `x` ms away has passed: of every 2^32 ms the first
      half before a deadline, and the first half after it, are told apart from the second. */
  predicate Told(x: int)
  {
    if x > 0 then 0 < x % 0x1_0000_0000 < 0x8000_0000 else (-x) % 0x1_0000_0000 <= 0x8000_0000
  }

  lemma WrapTells(x: int)
    ensures (Wrap32(x) <= 0 <==> x <= 0) <==> Told(x)
    ensures -0x8000_0000 <= x < 0x8000_0000 ==> Told(x)
    ensures x > 0 && Told(x) ==> 0 < Wrap32(x) <= x
  {
    var r := x % 0x1_0000_0000;
    WrapOfRemainder(x);
    if r == 0 {
      assert (-x) % 0x1_0000_0000 == 0;
    } else {
      assert (-x) % 0x1_0000_0000 == 0x1_0000_0000 - r;
    }
  }

  lemma WrapOfRemainder(x: int)
    ensures var r := x % 0x1_0000_0000; Wrap32(x) == if r < 0x8000_0000 then r else r - 0x1_0000_0000
    ensures x >= 0 ==> x % 0x1_0000_0000 <= x
  {
  }

  /** Whatever is queued, the delayed task due first is taken when due, and only then, exactly when the 32-bit
      difference tells. */
  lemma FetchWraps(now: seq<Entry>, later: seq<Entry>, t: int)
    requires later != []
    ensures var x := later[0].deadline - t;
      (GetNext(now, later, t).later == later[1..] <==> x <= 0) <==> Told(x)
  {
    WrapTells(later[0].deadline - t);
    assert |later[1..]| < |later|;
  }

  /** A fetch takes the delayed task that is due first, if any is due, else the oldest immediate task; it
      returns nothing exactly when no task is immediate and none is due. It idles until woken exactly when none
      is waiting, and otherwise not beyond the first deadline. */
  predicate Timely(now: seq<Entry>, later: seq<Entry>, t: int)
  {
    var f := GetNext(now, later, t);
    && (f.entry.None? <==> now == [] && !Due(later, t))
    && (Due(later, t) ==> f.now == now && later != [] && f.entry == Some(later[0]) && f.later == later[1..]
                          && forall e :: e in later[1..] ==> Before(later[0], e))
    && (!Due(later, t) && now != [] ==> f.later == later && f.entry == Some(now[0]) && f.now == now[1..])
    && (f.entry.None? ==> (f.idle == -1 <==> later == []) && (later != [] ==> 0 < f.idle <= later[0].deadline - t))
  }

  /** Only the first deadline matters: a fetch is timely exactly when the 32-bit difference tells whether that
      has passed. */
  lemma FetchIsTimely(now: seq<Entry>, later: seq<Entry>, t: int)
    requires Sorted(later)
    ensures Timely(now, later, t) <==> later == [] || Told(later[0].deadline - t)
  {
    if later != [] {
      WrapTells(later[0].deadline - t);
      HeadIsDue(later, t);
      assert |later[1..]| < |later|;
    }
  }

  lemma HeadIsDue(later: seq<Entry>, t: int)
    requires Sorted(later) && later != []
    ensures Due(later, t) <==> later[0].deadline <= t
    ensures forall e :: e in later[1..] ==> Before(later[0], e)
  {
    assert later[0] in later;
    SortedTail(later);
    assert forall e :: e in later ==> e == later[0] || e in later[1..];
  }

  // ---- Clearing --------------------------------------------------------------------------------

  /** A missing task or context matches any. */
  predicate Matches(e: Entry, task: Option<nat>, context: Option<nat>)
  {
    (context.None? || e.context == context.value) && (task.None? || e.task == task.value)
  }

  function Taken(list: seq<Entry>, task: Option<nat>, context: Option<nat>): (r: seq<Entry>)
    ensures forall e :: e in r ==> e in list && Matches(e, task, context)
  {
    if list == [] then [] else
    (if Matches(list[0], task, context) then [list[0]] else []) + Taken(list[1..], task, context)
  }

  function Kept(list: seq<Entry>, task: Option<nat>, context: Option<nat>): (r: seq<Entry>)
    ensures forall e :: e in r ==> e in list && !Matches(e, task, context)
  {
    if list == [] then [] else
    (if Matches(list[0], task, context) then [] else [list[0]]) + Kept(list[1..], task, context)
  }

  lemma ClearStep(list: seq<Entry>, p: nat, task: Option<nat>, context: Option<nat>)
    requires p < |list|
    ensures Matches(list[p], task, context) ==>
      && Taken(list[p..], task, context) == [list[p]] + Taken(list[p + 1..], task, context)
      && Kept(list[p..], task, context) == Kept(list[p + 1..], task, context)
    ensures !Matches(list[p], task, context) ==>
      && Taken(list[p..], task, context) == Taken(list[p + 1..], task, context)
      && Kept(list[p..], task, context) == [list[p]] + Kept(list[p + 1..], task, context)
  {
    assert list[p..][1..] == list[p + 1..];
  }

  lemma {:induction false} ClearLengths(list: seq<Entry>, task: Option<nat>, context: Option<nat>)
    ensures |Taken(list, task, context)| + |Kept(list, task, context)| == |list|
  {
    if list != [] { ClearLengths(list[1..], task, context); }
  }

  lemma HeadSplits(list: seq<Entry>)
    requires list != []
    ensures multiset(list) == multiset{list[0]} + multiset(list[1..])
  {
    assert list == [list[0]] + list[1..];
  }

  lemma ConsSplits(e: Entry, rest: seq<Entry>)
    ensures multiset([e] + rest) == multiset{e} + multiset(rest)
  {
  }

  lemma Regroup(e: multiset<Entry>, a: multiset<Entry>, b: multiset<Entry>)
    ensures (e + a) + b == e + (a + b) == a + (e + b)
  {
  }

  /** Clearing splits a list into the matching entries and the others. */
  lemma {:induction false} ClearSplits(list: seq<Entry>, task: Option<nat>, context: Option<nat>)
    ensures multiset(Taken(list, task, context)) + multiset(Kept(list, task, context)) == multiset(list)
  {
    if list != [] {
      var a, b := Taken(list[1..], task, context), Kept(list[1..], task, context);
      ClearSplits(list[1..], task, context);
      HeadSplits(list);
      Regroup(multiset{list[0]}, multiset(a), multiset(b));
      if Matches(list[0], task, context) { ConsSplits(list[0], a); } else { ConsSplits(list[0], b); }
    }
  }

  /** Immediate tasks stand in the order they were queued. */
  predicate Queued(now: seq<Entry>)
  {
    forall i, j :: 0 <= i < j < |now| ==> now[i].order < now[j].order
  }

  lemma QueuedTail(list: seq<Entry>)
    requires Queued(list) && list != []
    ensures Queued(list[1..]) && forall e :: e in list[1..] ==> list[0].order < e.order
  {
    forall e | e in list[1..]
      ensures list[0].order < e.order
    {
      var k :| 1 <= k < |list| && list[k] == e;
    }
  }

  lemma QueuedCons(e: Entry, rest: seq<Entry>)
    requires Queued(rest) && forall x :: x in rest ==> e.order < x.order
    ensures Queued([e] + rest)
  {
  }

  lemma SortedTail(list: seq<Entry>)
    requires Sorted(list) && list != []
    ensures Sorted(list[1..]) && forall e :: e in list[1..] ==> Before(list[0], e)
  {
    forall e | e in list[1..]
      ensures Before(list[0], e)
    {
      var k :| 1 <= k < |list| && list[k] == e;
    }
  }

  lemma SortedCons(e: Entry, rest: seq<Entry>)
    requires Sorted(rest) && forall x :: x in rest ==> Before(e, x)
    ensures Sorted([e] + rest)
  {
  }

  /** Clearing keeps the order of the entries it leaves. */
  lemma {:induction false} ClearKeepsSorted(list: seq<Entry>, task: Option<nat>, context: Option<nat>)
    requires Sorted(list)
    ensures Sorted(Kept(list, task, context))
  {
    if list != [] {
      SortedTail(list);
      ClearKeepsSorted(list[1..], task, context);
      SortedCons(list[0], Kept(list[1..], task, context));
    }
  }

  lemma {:induction false} ClearKeepsQueued(list: seq<Entry>, task: Option<nat>, context: Option<nat>)
    requires Queued(list)
    ensures Queued(Kept(list, task, context))
  {
    if list != [] {
      QueuedTail(list);
      ClearKeepsQueued(list[1..], task, context);
      QueuedCons(list[0], Kept(list[1..], task, context));
    }
  }

  /** The list without its first entry numbered `id`, if there is one. */
  function Without(list: seq<Entry>, id: nat): (r: seq<Entry>)
    ensures forall e :: e in r ==> e in list
  {
    if list == [] then [] else
    if list[0].order == id then list[1..] else [list[0]] + Without(list[1..], id)
  }

  predicate Has(list: seq<Entry>, id: nat)
  {
    exists i :: 0 <= i < |list| && list[i].order == id
  }

  // ---- The scheduler object --------------------------------------------------------------------

  function Pending(now: seq<Entry>, later: seq<Entry>): multiset<Entry>
  {
    multiset(now) + multiset(later)
  }

  lemma {:induction false} CountTaken(list: seq<Entry>, e: Entry, task: Option<nat>, context: Option<nat>)
    ensures multiset(Kept(list, task, context))[e] == if Matches(e, task, context) then 0 else multiset(list)[e]
  {
    if list != [] {
      CountTaken(list[1..], e, task, context);
      HeadSplits(list);
      ConsSplits(list[0], Kept(list[1..], task, context));
    }
  }

  /** What clearing leaves of both lists. */
  function Left(now: seq<Entry>, later: seq<Entry>, task: Option<nat>, context: Option<nat>): multiset<Entry>
  {
    Pending(Kept(now, task, context), Kept(later, task, context))
  }

  /** Clearing by task and context leaves the entries with another task or another context, clearing by one of
      them those with another one, and clearing by neither nothing. */
  lemma ClearIsExact(now: seq<Entry>, later: seq<Entry>, task: nat, context: nat, e: Entry)
    ensures Left(now, later, Some(task), Some(context))[e] ==
            if e.task == task && e.context == context then 0 else Pending(now, later)[e]
    ensures Left(now, later, None, Some(context))[e] == if e.context == context then 0 else Pending(now, later)[e]
    ensures Left(now, later, Some(task), None)[e] == if e.task == task then 0 else Pending(now, later)[e]
    ensures Left(now, later, None, None)[e] == 0
  {
    ClearCounts(now, later, Some(task), Some(context), e);
    ClearCounts(now, later, None, Some(context), e);
    ClearCounts(now, later, Some(task), None, e);
    ClearCounts(now, later, None, None, e);
  }

  lemma ClearCounts(now: seq<Entry>, later: seq<Entry>, task: Option<nat>, context: Option<nat>, e: Entry)
    ensures Left(now, later, task, context)[e] == if Matches(e, task, context) then 0 else Pending(now, later)[e]
  {
    CountTaken(now, e, task, context);
    CountTaken(later, e, task, context);
  }

  class TaskScheduler {
    var now: seq<Entry>
    var later: seq<Entry>
    /** Entries checked out of the task pool. */
    var out: nat
    var inserted: nat
    var signalled: bool

    constructor ()
      ensures now == [] && later == [] && out == 0 && inserted == 0 && !signalled
    {
      now, later, out, inserted, signalled := [], [], 0, 0, false;
    }

    /** `available` says whether the pool had an entry; without one the call fails and changes nothing. */
    method Queue(task: nat, context: nat, delay: nat, ticks: int, available: bool) returns (id: Option<nat>)
      modifies this
      ensures id == if available then Some(old(inserted)) else None
      ensures !available ==> unchanged(this)
      ensures available ==>
        var e := Entry(task, context, ticks + delay, delay == 0, old(inserted));
        && now == (if e.immediate then old(now) + [e] else old(now))
        && later == (if e.immediate then old(later) else Insert(old(later), e))
        && out == old(out) + 1 && inserted == old(inserted) + 1 && signalled
    {
      if !available {
        return None;
      }
      var e := Entry(task, context, ticks + delay, delay == 0, inserted);
      out := out + 1;
      if delay == 0 {
        now := now + [e];
      } else {
        var p := 0;
        while p < |later| && later[p].deadline <= e.deadline
          invariant p <= |later|
          invariant forall j :: 0 <= j < p ==> later[j].deadline <= e.deadline
        {
          p := p + 1;
        }
        assert p == Position(later, e.deadline);
        later := later[..p] + [e] + later[p..];
      }
      inserted := inserted + 1;
      signalled := true;
      id := Some(e.order);
    }

    method Next(ticks: int) returns (entry: Option<Entry>, idle: int)
      modifies this`now, this`later
      ensures Fetched(entry, now, later, idle) == GetNext(old(now), old(later), ticks)
    {
      idle := -1;
      if later != [] {
        var candidate := later[0];
        idle := Wrap32(candidate.deadline - ticks);
        if idle <= 0 {
          later := later[1..];
          return Some(candidate), 0;
        }
      }
      if now != [] {
        idle := 0;
        var candidate := now[0];
        now := now[1..];
        return Some(candidate), idle;
      }
      entry := None;
    }

    static method RemoveByTaskType(queue: seq<Entry>, task: Option<nat>, context: Option<nat>)
      returns (left: seq<Entry>, result: seq<Entry>)
      ensures left == Kept(queue, task, context) && result == Taken(queue, task, context)
      ensures forall e :: e in result ==> (task.Some? ==> e.task == task.value) && (context.Some? ==> e.context == context.value)
      ensures forall e :: e in left ==> (task.Some? && e.task != task.value) || (context.Some? && e.context != context.value)
    {
      var p := 0;
      left, result := [], [];
      while p < |queue|
        invariant p <= |queue|
        invariant Kept(queue, task, context) == left + Kept(queue[p..], task, context)
        invariant Taken(queue, task, context) == result + Taken(queue[p..], task, context)
      {
        ClearStep(queue, p, task, context);
        if Matches(queue[p], task, context) {
          Assoc(result, [queue[p]], Taken(queue[p + 1..], task, context));
          result := result + [queue[p]];
        } else {
          Assoc(left, [queue[p]], Kept(queue[p + 1..], task, context));
          left := left + [queue[p]];
        }
        p := p + 1;
      }
      assert queue[p..] == [];
    }

    method Clear(task: Option<nat>, context: Option<nat>)
      requires out >= |now| + |later|
      modifies this`now, this`later, this`out
      ensures now == Kept(old(now), task, context) && later == Kept(old(later), task, context)
      ensures forall e :: Pending(now, later)[e] ==
                (if (task.Some? && e.task != task.value) || (context.Some? && e.context != context.value)
                 then old(Pending(now, later))[e] else 0)
      ensures old(out) - out == |old(now)| - |now| + |old(later)| - |later|
    {
      var dropped, more;
      forall e {
        ClearCounts(now, later, task, context, e);
      }
      ClearLengths(now, task, context);
      ClearLengths(later, task, context);
      now, dropped := RemoveByTaskType(now, task, context);
      later, more := RemoveByTaskType(later, task, context);
      out := out - |dropped| - |more|;
    }

    static method RemoveById(queue: seq<Entry>, id: nat) returns (left: seq<Entry>, found: bool)
      ensures found <==> Has(queue, id)
      ensures left == Without(queue, id)
      ensures |left| == |queue| - if found then 1 else 0
    {
      var p := 0;
      while p < |queue| && queue[p].order != id
        invariant p <= |queue|
        invariant forall i :: 0 <= i < p ==> queue[i].order != id
        invariant Without(queue, id) == queue[..p] + Without(queue[p..], id)
      {
        assert queue[p..][1..] == queue[p + 1..];
        assert queue[..p + 1] == queue[..p] + [queue[p]];
        Assoc(queue[..p], [queue[p]], Without(queue[p + 1..], id));
        p := p + 1;
      }
      found := p < |queue|;
      left := if found then queue[..p] + queue[p + 1..] else queue;
      assert found ==> queue[p..][1..] == queue[p + 1..];
    }

    method Kill(id: nat) returns (found: bool)
      requires out >= |now| + |later|
      modifies this`now, this`later, this`out
      ensures found <==> Has(old(now), id) || Has(old(later), id)
      ensures now == Without(old(now), id)
      ensures later == if Has(old(now), id) then old(later) else Without(old(later), id)
      ensures old(out) - out == (if found then 1 else 0) == |old(now)| - |now| + |old(later)| - |later|
    {
      now, found := RemoveById(now, id);
      if !found {
        later, found := RemoveById(later, id);
      }
      if found {
        out := out - 1;
      }
    }

    /** The do-later macro clears the task's earlier requests, then queues it: afterwards exactly one entry
        of that task and context is pending (none when the pool is exhausted), and all others are as before. */
    method DoLater(task: nat, context: nat, delay: nat, ticks: int, available: bool) returns (id: Option<nat>)
      requires out >= |now| + |later|
      modifies this
      ensures var e := Entry(task, context, ticks + delay, delay == 0, old(inserted));
        && id == (if available then Some(e.order) else None)
        && forall x :: Pending(now, later)[x] ==
            if x.task == task && x.context == context then (if available && x == e then 1 else 0)
            else old(Pending(now, later))[x]
    {
      ghost var e := Entry(task, context, ticks + delay, delay == 0, inserted);
      Clear(Some(task), Some(context));
      InsertAdds(later, e);
      id := Queue(task, context, delay, ticks, available);
    }
  }
}
