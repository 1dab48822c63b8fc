/** The growing, reference counted buffer pools: what each critical section does to the pool. */
module BufferPool {
  import opened Prelude

  /** A maximum of 0 means unbounded. */
  datatype Config = Config(initial: nat, max: nat, low: nat, high: nat)

  datatype Signal = Low | High

  /** Buffers are numbered as they are made. */
  datatype State = State(
    fixed: bool, config: Config,
    freeList: seq<nat>, freeCount: nat, checkedOut: seq<nat>, refs: seq<nat>, count: nat, empty: bool,
    returning: seq<nat>,        // last reference given up, not yet back on the free list
    raised: seq<Signal>,        // signals in the order the pool decided on them
    failed: bool)               // some growth got less memory than it asked for

  function Normalized(c: Config): Config
  {
    var initial := if c.initial == 0 then 10 else c.initial;
    var low := if c.low > c.high then 0 else c.low;
    var high := if c.max != 0 && c.high > c.max then c.max else c.high;
    Config(initial, c.max, low, high)
  }

  function Items(s: State): nat
  {
    if s.config.max == 0 then s.config.initial
    else if s.count >= s.config.max then 0
    else Min(s.config.max - s.count, s.config.initial)
  }

  /** A dynamic pool allocates its buffers one by one, a fixed pool all in one block; `mallocs` is the
      number of allocations that will succeed. */
  function Made(s: State, mallocs: nat): nat
  {
    if s.fixed then (if mallocs > 0 then Items(s) else 0) else Min(Items(s), mallocs)
  }

  function Fresh(from: nat, n: nat): (r: seq<nat>)
    ensures |r| == n && forall i :: 0 <= i < n ==> r[i] == from + i
  {
    if n == 0 then [] else Fresh(from, n - 1) + [from + n - 1]
  }

  function Zeros(n: nat): (r: seq<nat>)
    ensures |r| == n && forall i :: 0 <= i < n ==> r[i] == 0
  {
    if n == 0 then [] else Zeros(n - 1) + [0]
  }

  /** The pool with `n` more unreferenced buffers at the tail of its free list. */
  function Added(s: State, n: nat): State
  {
    s.(freeList := s.freeList + Fresh(s.count, n), freeCount := s.freeCount + n,
       refs := s.refs + Zeros(n), count := s.count + n)
  }

  lemma AddedOneMore(s: State, n: nat)
    ensures var t := Added(s, n);
      Added(s, n + 1) == t.(freeList := t.freeList + [t.count], freeCount := t.freeCount + 1,
                            refs := t.refs + [0], count := t.count + 1)
  {
    Assoc(s.freeList, Fresh(s.count, n), [s.count + n]);
    Assoc(s.refs, Zeros(n), [0]);
  }

  function DoGrow(s: State, mallocs: nat): State
  {
    var n := Made(s, mallocs);
    Added(s, n).(failed := s.failed || n < Items(s))
  }

  function Raise(s: State, x: Signal): State
  {
    s.(empty := x == Low, raised := s.raised + [x])
  }

  function Init(fixed: bool, config: Config, mallocs: nat): State
  {
    DoGrow(State(fixed, Normalized(config), [], 0, [], [], 0, false, [], [], false), mallocs)
  }

  /** Taking the head of the free list, growing when that was the last one. */
  function Take(s: State, mallocs: nat): State
    requires s.freeList != [] && s.freeCount > 0
  {
    var t := s.(freeList := s.freeList[1..], freeCount := s.freeCount - 1);
    if t.freeCount == 0 then DoGrow(t, mallocs) else t
  }

  function CheckLow(s: State): State
  {
    if s.freeCount <= s.config.low && !s.empty then Raise(s, Low) else s
  }

  function CheckHigh(s: State): State
  {
    if s.freeCount > s.config.high && s.empty then Raise(s, High) else s
  }

  /** Allocation returns nothing, and changes nothing, when the free list is empty. */
  function DoAlloc(s: State, mallocs: nat): State
    requires s.freeCount == |s.freeList| && forall id :: id in s.freeList ==> id < |s.refs|
  {
    if s.freeList == [] then s else
    var id := s.freeList[0];
    assert id in s.freeList;
    var t := CheckLow(Take(s, mallocs));
    t.(refs := t.refs[id := t.refs[id] + 1], checkedOut := t.checkedOut + [id])
  }

  function DoShare(s: State, id: nat): State
    requires id < |s.refs|
  {
    s.(refs := s.refs[id := s.refs[id] + 1])
  }

  function DoDrop(s: State, id: nat): State
    requires id < |s.refs| && s.refs[id] > 0
  {
    s.(refs := s.refs[id := s.refs[id] - 1],
       returning := if s.refs[id] == 1 then s.returning + [id] else s.returning)
  }

  function Remove(list: seq<nat>, id: nat): seq<nat>
  {
    if list == [] then [] else if list[0] == id then list[1..] else [list[0]] + Remove(list[1..], id)
  }

  function DoReturn(s: State, id: nat): State
  {
    CheckHigh(s.(returning := Remove(s.returning, id), checkedOut := Remove(s.checkedOut, id),
                 freeList := s.freeList + [id], freeCount := s.freeCount + 1))
  }

  // ---- What every section keeps ----------------------------------------------------------------

  function Count(list: seq<nat>, id: nat): (n: nat)
    ensures n > 0 <==> id in list
  {
    if list == [] then 0 else (if list[0] == id then 1 else 0) + Count(list[1..], id)
  }

  lemma {:induction false} CountConcat(a: seq<nat>, b: seq<nat>, id: nat)
    ensures Count(a + b, id) == Count(a, id) + Count(b, id)
  {
    if a == [] {
      assert a + b == b;
    } else {
      assert (a + b)[1..] == a[1..] + b;
      CountConcat(a[1..], b, id);
    }
  }

  /** How often a buffer is on the two lists. */
  function Places(s: State, id: nat): nat
  {
    Count(s.freeList, id) + Count(s.checkedOut, id)
  }

  /** Every buffer made is on exactly one list, and there are no others. */
  ghost predicate ListInv(s: State)
  {
    && s.freeCount == |s.freeList| && s.count == |s.refs|
    && |s.freeList| + |s.checkedOut| == s.count
    && (s.config.max != 0 ==> s.count <= s.config.max)
    && (forall id: nat :: Places(s, id) == if id < s.count then 1 else 0)
  }

  /** A buffer is unreferenced exactly while it is free or on its way back. */
  ghost predicate RefInv(s: State)
  {
    && |s.refs| == s.count
    && (forall id :: id in s.returning ==> id < s.count && id in s.checkedOut)
    && (forall id :: Count(s.returning, id) <= 1)
    && (forall id :: 0 <= id < |s.refs| ==> (s.refs[id] == 0 <==> id in s.freeList || id in s.returning))
  }

  /** The pool runs dry only at its maximum, or after a failed growth. */
  predicate DryInv(s: State)
  {
    && s.config.initial > 0
    && s.freeCount == |s.freeList|
    && (s.freeList == [] ==> s.failed || (s.config.max != 0 && s.count >= s.config.max))
  }

  predicate Alternating(xs: seq<Signal>)
  {
    forall i :: 0 <= i < |xs| ==> xs[i] == if i % 2 == 0 then Low else High
  }

  predicate SignalInv(s: State)
  {
    Alternating(s.raised) && (s.empty <==> |s.raised| % 2 == 1)
  }

  lemma Listed(s: State, id: nat)
    requires ListInv(s)
    ensures id in s.freeList ==> id < s.count && id !in s.checkedOut
    ensures id in s.checkedOut ==> id < s.count && id !in s.freeList
    ensures id < s.count ==> id in s.freeList || id in s.checkedOut
  {
    assert Places(s, id) == if id < s.count then 1 else 0;
    assert id in s.freeList <==> Count(s.freeList, id) > 0;
    assert id in s.checkedOut <==> Count(s.checkedOut, id) > 0;
  }

  lemma SnocCounts(list: seq<nat>, x: nat, id: nat)
    ensures Count(list + [x], id) == Count(list, id) + if id == x then 1 else 0
  {
    CountConcat(list, [x], id);
  }

  lemma {:induction false} FreshCounts(from: nat, n: nat, id: nat)
    ensures Count(Fresh(from, n), id) == if from <= id < from + n then 1 else 0
  {
    if n > 0 {
      FreshCounts(from, n - 1, id);
      SnocCounts(Fresh(from, n - 1), from + n - 1, id);
    }
  }

  lemma {:induction false} RemoveCounts(list: seq<nat>, id: nat, x: nat)
    ensures Count(Remove(list, id), x) == Count(list, x) - if x == id && id in list then 1 else 0
    ensures |Remove(list, id)| == |list| - if id in list then 1 else 0
  {
    if list != [] {
      if list[0] != id {
        RemoveCounts(list[1..], id, x);
        var r := [list[0]] + Remove(list[1..], id);
        assert r[1..] == Remove(list[1..], id);
      }
    }
  }

  lemma GrowKeepsLists(s: State, mallocs: nat, id: nat)
    requires s.config.max != 0 ==> s.count <= s.config.max
    ensures var t := DoGrow(s, mallocs);
      && (t.config.max != 0 ==> t.count <= t.config.max)
      && |t.freeList| == |s.freeList| + (t.count - s.count)
      && Count(t.freeList, id) == Count(s.freeList, id) + if s.count <= id < t.count then 1 else 0
  {
    FreshCounts(s.count, Made(s, mallocs), id);
    CountConcat(s.freeList, Fresh(s.count, Made(s, mallocs)), id);
  }

  lemma TakePlaces(s: State, mallocs: nat, id: nat)
    requires ListInv(s) && s.freeList != []
    ensures var t := Take(s, mallocs);
      Places(t, id) == if id < t.count && id != s.freeList[0] then 1 else 0
  {
    var mid := s.(freeList := s.freeList[1..], freeCount := s.freeCount - 1);
    Listed(s, s.freeList[0]);
    assert s.freeList[0] in s.freeList;
    assert Places(s, id) == if id < s.count then 1 else 0;
    GrowKeepsLists(mid, mallocs, id);
  }

  lemma TakeSizes(s: State, mallocs: nat)
    requires ListInv(s) && s.freeList != []
    ensures var t := Take(s, mallocs);
      && t.freeCount == |t.freeList| && t.count == |t.refs| && t.checkedOut == s.checkedOut
      && |t.freeList| + |t.checkedOut| == t.count - 1
      && (t.config.max != 0 ==> t.count <= t.config.max)
      && s.freeList[0] < s.count <= t.count
  {
    Listed(s, s.freeList[0]);
    assert s.freeList[0] in s.freeList;
  }

  lemma ListAlloc(s: State, mallocs: nat)
    requires ListInv(s) && forall id :: id in s.freeList ==> id < |s.refs|
    ensures ListInv(DoAlloc(s, mallocs))
  {
    if s.freeList != [] {
      TakeSizes(s, mallocs);
      var t := Take(s, mallocs);
      var u := DoAlloc(s, mallocs);
      forall id: nat
        ensures Places(u, id) == if id < u.count then 1 else 0
      {
        TakePlaces(s, mallocs, id);
        SnocCounts(t.checkedOut, s.freeList[0], id);
      }
    }
  }

  lemma ListReturn(s: State, id: nat)
    requires ListInv(s) && id in s.checkedOut
    ensures ListInv(DoReturn(s, id))
  {
    var t := DoReturn(s, id);
    RemoveCounts(s.checkedOut, id, id);
    forall x: nat
      ensures Places(t, x) == if x < t.count then 1 else 0
    {
      RemoveCounts(s.checkedOut, id, x);
      assert Places(s, x) == if x < s.count then 1 else 0;
      SnocCounts(s.freeList, id, x);
    }
  }

  /** Buffers made by growing are free and unreferenced. */
  lemma RefGrow(s: State, mallocs: nat, id: nat)
    requires id < |DoGrow(s, mallocs).refs| && |s.refs| == s.count
    ensures var t := DoGrow(s, mallocs);
      if id < |s.refs| then t.refs[id] == s.refs[id] && (id in t.freeList <==> id in s.freeList)
      else t.refs[id] == 0 && id in t.freeList
  {
    var n := Made(s, mallocs);
    if id >= |s.refs| {
      assert Fresh(s.count, n)[id - s.count] == id;
    } else {
      assert id !in Fresh(s.count, n);
    }
  }

  lemma RefTake(s: State, mallocs: nat, id: nat)
    requires ListInv(s) && RefInv(s) && s.freeList != [] && id < |Take(s, mallocs).refs| && id != s.freeList[0]
    ensures var t := Take(s, mallocs); t.refs[id] == 0 <==> id in t.freeList || id in t.returning
  {
    var mid := s.(freeList := s.freeList[1..], freeCount := s.freeCount - 1);
    assert s.freeList == [s.freeList[0]] + mid.freeList;
    if mid.freeCount == 0 { RefGrow(mid, mallocs, id); }
    if id >= s.count { assert id !in s.returning; }
  }

  lemma RefAlloc(s: State, mallocs: nat)
    requires ListInv(s) && RefInv(s) && forall id :: id in s.freeList ==> id < |s.refs|
    ensures RefInv(DoAlloc(s, mallocs))
  {
    if s.freeList != [] {
      var u := DoAlloc(s, mallocs);
      TakeSizes(s, mallocs);
      forall id | 0 <= id < |u.refs|
        ensures u.refs[id] == 0 <==> id in u.freeList || id in u.returning
      {
        if id == s.freeList[0] { RefHead(s, mallocs); } else { RefTake(s, mallocs, id); }
      }
    }
  }

  /** The buffer handed out was free, so it is not on its way back, and is no longer free. */
  lemma RefHead(s: State, mallocs: nat)
    requires ListInv(s) && RefInv(s) && s.freeList != []
    ensures s.freeList[0] !in Take(s, mallocs).freeList && s.freeList[0] !in s.returning
  {
    TakePlaces(s, mallocs, s.freeList[0]);
    assert s.freeList[0] in s.freeList;
    Listed(s, s.freeList[0]);
  }

  lemma RefDrop(s: State, id: nat)
    requires ListInv(s) && RefInv(s) && id < |s.refs| && s.refs[id] > 0
    ensures RefInv(DoDrop(s, id))
  {
    Listed(s, id);
    assert id !in s.returning;
    forall x: nat
      ensures Count(DoDrop(s, id).returning, x) <= 1
    {
      SnocCounts(s.returning, id, x);
    }
  }

  lemma RefReturn(s: State, id: nat)
    requires ListInv(s) && RefInv(s) && id in s.returning
    ensures RefInv(DoReturn(s, id))
  {
    var t := DoReturn(s, id);
    forall x: nat
      ensures x in t.returning <==> x in s.returning && x != id
      ensures Count(t.returning, x) <= 1
      ensures x != id ==> (x in t.checkedOut <==> x in s.checkedOut)
    {
      RemoveCounts(s.returning, id, x);
      RemoveCounts(s.checkedOut, id, x);
      assert x in t.returning <==> Count(t.returning, x) > 0;
      assert x in t.checkedOut <==> Count(t.checkedOut, x) > 0;
    }
  }

  lemma DryAlloc(s: State, mallocs: nat)
    requires DryInv(s) && ListInv(s) && forall id :: id in s.freeList ==> id < |s.refs|
    ensures DryInv(DoAlloc(s, mallocs))
  {
    if s.freeList != [] {
      TakeSizes(s, mallocs);
    }
  }

  // ---- The pool object -------------------------------------------------------------------------

  class Pool {
    const fixed: bool
    const config: Config
    var freeList: seq<nat>
    var freeCount: nat
    var checkedOut: seq<nat>
    var refs: seq<nat>
    var count: nat
    var empty: bool
    var failed: bool
    var raised: seq<Signal>

    /** The pool between calls: nothing on its way back. */
    function View(): State
      reads this
    {
      State(fixed, config, freeList, freeCount, checkedOut, refs, count, empty, [], raised, failed)
    }

    constructor (fixed: bool, c: Config)
      ensures View() == State(fixed, Normalized(c), [], 0, [], [], 0, false, [], [], false)
    {
      this.fixed := fixed;
      var initial, low, high := c.initial, c.low, c.high;
      if initial == 0 { initial := 10; }
      if low > high { low := 0; }
      if c.max != 0 && high > c.max { high := c.max; }
      config := Config(initial, c.max, low, high);
      freeList, freeCount, checkedOut, refs, count := [], 0, [], [], 0;
      empty, failed, raised := false, false, [];
    }

    method MakeBuffers(items: nat, mallocs: nat) returns (made: nat)
      modifies this`freeList, this`freeCount, this`refs, this`count
      ensures made == if fixed then items else Min(items, mallocs)
      ensures View() == Added(old(View()), made)
    {
      ghost var before := View();
      made := 0;
      assert View() == Added(before, 0);
      while made < items && (fixed || made < mallocs)
        invariant made <= items && (!fixed ==> made <= mallocs)
        invariant View() == Added(before, made)
      {
        AddedOneMore(before, made);
        freeList, freeCount := freeList + [count], freeCount + 1;
        refs, count := refs + [0], count + 1;
        made := made + 1;
      }
    }

    /** Makes more buffers; succeeds when any are free afterwards (for a fixed pool: when the block was made). */
    method Grow(mallocs: nat) returns (ok: bool)
      requires config.max != 0 ==> count <= config.max
      modifies this`freeList, this`freeCount, this`refs, this`count, this`failed
      ensures View() == DoGrow(old(View()), mallocs)
      ensures ok == if fixed then count > old(count) else freeCount > 0
    {
      ghost var before := View();
      var items := config.initial;
      if config.max != 0 {
        items := Min(config.max - count, items);
      }
      assert items == Items(before);
      if fixed && (items == 0 || mallocs == 0) {
        failed := failed || items > 0;
        assert View() == Added(before, 0).(failed := failed);
        return false;
      }
      var made := MakeBuffers(items, mallocs);
      failed := failed || made < items;
      return fixed || freeCount > 0;
    }

    method TakeHead(mallocs: nat) returns (first: nat)
      requires ListInv(View()) && freeList != []
      modifies this`freeList, this`freeCount, this`refs, this`count, this`failed
      ensures first == old(freeList)[0] < |refs|
      ensures View() == Take(old(View()), mallocs)
    {
      TakeSizes(View(), mallocs);
      first := freeList[0];
      freeList, freeCount := freeList[1..], freeCount - 1;
      if freeCount == 0 {
        var _ := Grow(mallocs);
      }
    }

    /** The head of the free list becomes the caller's; `signal` says whether the low callback is made. */
    method Alloc(mallocs: nat) returns (id: Option<nat>, signal: bool)
      requires PoolInv(View())
      modifies this
      ensures PoolInv(View())
      ensures forall x :: x in old(freeList) ==> x < |old(refs)|
      ensures View() == DoAlloc(old(View()), mallocs)
      ensures id == if old(freeList) == [] then None else Some(old(freeList)[0])
      ensures raised == old(raised) + if signal then [Low] else []
    {
      ghost var before := View();
      AllListed(before);
      AllocKeeps(before, mallocs);
      if freeList == [] {
        return None, false;
      }
      var first := TakeHead(mallocs);
      signal := freeCount <= config.low && !empty;
      if signal {
        empty, raised := true, raised + [Low];
      }
      refs := refs[first := refs[first] + 1];
      checkedOut := checkedOut + [first];
      assert View() == DoAlloc(before, mallocs);
      id := Some(first);
    }

    /** Gives up one reference; the last one sends the buffer to the tail of the free list. */
    method Free(id: nat) returns (signal: bool)
      requires PoolInv(View()) && id < count && refs[id] > 0
      modifies this
      ensures PoolInv(View())
      ensures View() == (var t := DoDrop(old(View()), id); if old(refs)[id] == 1 then DoReturn(t, id) else t)
      ensures raised == old(raised) + if signal then [High] else []
    {
      ghost var before := View();
      FreeKeeps(before, id);
      refs := refs[id := refs[id] - 1];
      signal := false;
      if refs[id] == 0 {
        assert Remove([] + [id], id) == [];
        signal := PutBack(id);
        assert View() == DoReturn(DoDrop(before, id), id);
      }
    }

    /** Moves a buffer from the checked out list to the tail of the free list. */
    method PutBack(id: nat) returns (signal: bool)
      modifies this`checkedOut, this`freeList, this`freeCount, this`empty, this`raised
      ensures View() == CheckHigh(old(View()).(checkedOut := Remove(old(checkedOut), id),
                                               freeList := old(freeList) + [id], freeCount := old(freeCount) + 1))
      ensures raised == old(raised) + if signal then [High] else []
    {
      checkedOut := Remove(checkedOut, id);
      freeList := freeList + [id];
      freeCount := freeCount + 1;
      signal := freeCount > config.high && empty;
      if signal {
        empty, raised := false, raised + [High];
      }
    }
  }

  ghost predicate PoolInv(s: State)
  {
    ListInv(s) && RefInv(s) && DryInv(s) && SignalInv(s)
  }

  lemma AllocKeeps(s: State, mallocs: nat)
    requires PoolInv(s) && forall id :: id in s.freeList ==> id < |s.refs|
    ensures PoolInv(DoAlloc(s, mallocs))
  {
    ListAlloc(s, mallocs);
    RefAlloc(s, mallocs);
    DryAlloc(s, mallocs);
  }

  lemma ReturnKeeps(s: State, id: nat)
    requires PoolInv(s) && id in s.returning
    ensures PoolInv(DoReturn(s, id))
  {
    ListReturn(s, id);
    RefReturn(s, id);
  }

  lemma DropKeeps(s: State, id: nat)
    requires PoolInv(s) && id < s.count && s.refs[id] > 0
    ensures PoolInv(DoDrop(s, id))
  {
    RefDrop(s, id);
    assert ListInv(DoDrop(s, id)) by {
      assert forall x: nat :: Places(DoDrop(s, id), x) == Places(s, x);
    }
  }

  lemma FreeKeeps(s: State, id: nat)
    requires PoolInv(s) && id < s.count && s.refs[id] > 0
    ensures PoolInv(DoDrop(s, id))
    ensures s.refs[id] == 1 ==> PoolInv(DoReturn(DoDrop(s, id), id))
  {
    DropKeeps(s, id);
    if s.refs[id] == 1 {
      ReturnKeeps(DoDrop(s, id), id);
    }
  }

  lemma AllListed(s: State)
    requires ListInv(s)
    ensures forall id :: id in s.freeList ==> id < |s.refs|
  {
    forall id | id in s.freeList
      ensures id < |s.refs|
    {
      Listed(s, id);
    }
  }
}
