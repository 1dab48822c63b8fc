/** Receiving over a WebSocket connection: frames are collected until one ends a message, and the
    message is offered to the receiver as a stream. */
module WsInbound {
  import opened Prelude
  import opened IoQueue
  import opened WsFrames

  lemma BytesTake(bs: seq<Buffer>, k: nat)
    requires k < |bs|
    ensures bs[..k + 1] == bs[..k] + [bs[k]]
    ensures |Bytes(bs[..k + 1])| == |Bytes(bs[..k])| + |bs[k].data|
  {
    assert bs[..k + 1] == bs[..k] + [bs[k]];
    BytesConcat(bs[..k], [bs[k]]);
    assert Bytes([bs[k]]) == bs[k].data;
  }

  lemma UnreadSplits(b: Buffer, n: nat)
    requires b.readOffset + n <= |b.data|
    ensures b.Unread() == b.data[b.readOffset..b.readOffset + n] + b.data[b.readOffset + n..]
  {
  }

  predicate Whole(b: Buffer)
  {
    b.readOffset == 0 && b.length == |b.data|
  }

  predicate AllWhole(bs: seq<Buffer>)
  {
    forall b :: b in bs ==> Whole(b)
  }

  predicate GoodReading(current: Option<Buffer>)
  {
    current.Some? ==> current.value.readOffset <= current.value.length == |current.value.data|
  }

  /** What the stream still holds. */
  function Remaining(current: Option<Buffer>, inprogress: seq<Buffer>): seq<byte>
  {
    (if current.Some? then current.value.Unread() else []) + Bytes(inprogress)
  }

  /** The same frame, read at least as far. */
  predicate Further(a: Buffer, b: Buffer)
  {
    b == a.(readOffset := b.readOffset) && a.readOffset <= b.readOffset
  }

  /** From one moment of reading to a later one: the last frames are untouched, and the one before them may be
      being read; the others are used up. */
  predicate Later(c: Option<Buffer>, r: seq<Buffer>, current: Option<Buffer>, rest: seq<Buffer>)
  {
    && |rest| <= |r| && rest == r[|r| - |rest|..]
    && (current.Some? ==> if |rest| < |r| then Further(r[|r| - |rest| - 1], current.value)
                          else c.Some? && Further(c.value, current.value))
  }

  lemma LaterStill(c0: Option<Buffer>, r0: seq<Buffer>, c1: Option<Buffer>, r1: seq<Buffer>,
                   c2: Option<Buffer>, r2: seq<Buffer>)
    requires Later(c0, r0, c1, r1) && Later(c1, r1, c2, r2)
    ensures Later(c0, r0, c2, r2)
  {
    SuffixOfSuffix(r0, r1, r2);
    if |r2| < |r1| {
      assert r1[|r1| - |r2| - 1] == r0[|r0| - |r2| - 1];
    }
  }

  lemma SuffixOfSuffix(a: seq<Buffer>, b: seq<Buffer>, c: seq<Buffer>)
    requires |c| <= |b| <= |a| && b == a[|a| - |b|..] && c == b[|b| - |c|..]
    ensures c == a[|a| - |c|..]
  {
  }

  /** Reading stopped within frame `k - 1` or behind it. */
  predicate StoppedAt(frames: seq<Buffer>, output: seq<byte>, left: seq<Buffer>, k: nat)
  {
    && k <= |frames| && left == frames[k..]
    && output <= Bytes(frames[..k]) && (k > 0 ==> |Bytes(frames[..k - 1])| <= |output|)
  }

  lemma WhereItStopped(frames: seq<Buffer>, current: Option<Buffer>, rest: seq<Buffer>, output: seq<byte>)
    requires Later(None, frames, current, rest) && output + Remaining(current, rest) == Bytes(frames) && AllWhole(frames)
    ensures exists k :: StoppedAt(frames, output, rest, k)
  {
    var k := |frames| - |rest|;
    var unread := if current.Some? then current.value.Unread() else [];
    ReadSoFar(frames[..k], rest, frames, output, unread);
    if k > 0 {
      BytesTake(frames, k - 1);
      assert current.Some? ==> |unread| <= |frames[k - 1].data|;
      ReadInto(output, unread, Bytes(frames[..k]), |Bytes(frames[..k - 1])|);
    }
    assert StoppedAt(frames, output, rest, k);
  }

  lemma ReadInto(output: seq<byte>, unread: seq<byte>, all: seq<byte>, before: nat)
    requires output + unread == all && |unread| <= |all| - before
    ensures output <= all && before <= |output|
  {
  }

  lemma ReadSoFar(used: seq<Buffer>, rest: seq<Buffer>, frames: seq<Buffer>, output: seq<byte>, unread: seq<byte>)
    requires used + rest == frames && output + (unread + Bytes(rest)) == Bytes(frames)
    ensures output + unread == Bytes(used) && output <= Bytes(used)
  {
    BytesConcat(used, rest);
    Assoc(output, unread, Bytes(rest));
    SameTail(output + unread, Bytes(used), Bytes(rest));
  }

  lemma SameTail(a: seq<byte>, b: seq<byte>, c: seq<byte>)
    requires a + c == b + c
    ensures a == b
  {
    assert |a| == |b|;
    assert a == (a + c)[..|a|] && b == (b + c)[..|b|];
  }

  /** Position just after the first frame that ends a message. */
  function FirstMessage(bs: seq<Buffer>): (n: nat)
    requires LastCount(bs) > 0
    ensures 1 <= n <= |bs| && bs[n - 1].kind == BinaryMsg
    ensures forall i :: 0 <= i < n - 1 ==> bs[i].kind != BinaryMsg
    ensures LastCount(bs[n..]) == LastCount(bs) - 1
  {
    if bs[0].kind == BinaryMsg then 1 else
    var n := FirstMessage(bs[1..]);
    assert bs[1..][n..] == bs[n + 1..];
    assert forall i :: 0 < i < n ==> bs[i] == bs[1..][i - 1];
    n + 1
  }

  function Total(sizes: seq<nat>): nat
  {
    if sizes == [] then 0 else Total(sizes[..|sizes| - 1]) + sizes[|sizes| - 1]
  }

  lemma TotalTake(sizes: seq<nat>, i: nat)
    requires i < |sizes|
    ensures Total(sizes[..i + 1]) == Total(sizes[..i]) + sizes[i]
  {
    assert sizes[..i + 1][..i] == sizes[..i];
  }

  /** The receiving half of a connection. */
  class Stream {
    const queue: Queue
    var current: Option<Buffer>
    var readable: int
    var deliverTasks: nat
    var disconnectTasks: nat

    ghost predicate Valid()
      reads this, queue
    {
      && GoodReading(current)
      && AllWhole(queue.inprogress)
      && AllWhole(queue.ready)
    }

    ghost function Stream(): seq<byte>
      reads this, queue
    {
      Remaining(current, queue.inprogress)
    }

    constructor ()
      ensures Valid() && fresh(queue) && current == None && deliverTasks == 0
      ensures queue.ready == queue.inprogress == []
    {
      queue := new Queue();
      current, readable, deliverTasks, disconnectTasks := None, 0, 0, 0;
    }

    /** The socket filled a buffer, or failed to. */
    method OnEndReceive(b: Buffer, data: seq<byte>, kind: Kind, code: Code)
      requires Valid() && b.readOffset == 0 && b.cb == None
      modifies this`deliverTasks, this`disconnectTasks, queue`ready, queue`calls
      ensures Valid()
      ensures queue.ready == old(queue.ready) +
        if code == Ok then [b.(data := data, length := |data|, kind := kind)] else []
      ensures deliverTasks == old(deliverTasks) + if code == Ok && kind == BinaryMsg then 1 else 0
      ensures disconnectTasks == old(disconnectTasks) + if code in {Ok, Aborted} then 0 else 1
    {
      if code != Ok {
        queue.ReleaseBuffer(b);
        if code != Aborted {
          disconnectTasks := disconnectTasks + 1;
        }
      } else {
        queue.SetReady(b.(data := data, length := |data|, kind := kind));
        if kind == BinaryMsg {
          deliverTasks := deliverTasks + 1;
        }
      }
    }

    /** Makes the next frame in progress current, unless one is. */
    method LoadFrame() returns (loaded: bool)
      requires Valid()
      modifies this`current, queue`inprogress
      ensures Valid() && Stream() == old(Stream())
      ensures loaded == current.Some? && (!loaded ==> Stream() == [])
      ensures |queue.inprogress| + |Opt(current)| == old(|queue.inprogress| + |Opt(current)|)
      ensures Later(old(current), old(queue.inprogress), current, queue.inprogress)
    {
      if current == None {
        ghost var before := queue.inprogress;
        current := queue.PopInprogress();
        if current.Some? {
          assert before == [current.value] + queue.inprogress;
          assert current.value in before && before[1..] == queue.inprogress;
        }
      }
      loaded := current.Some?;
    }

    /** Reads from the current frame, and releases it when it is used up. */
    method ReadFrame(count: nat) returns (chunk: seq<byte>)
      requires Valid() && count > 0 && current.Some?
      modifies this`current, this`readable, queue`calls
      ensures Valid()
      ensures chunk + Stream() == old(Stream()) && |chunk| <= count
      ensures readable == old(readable) - |chunk|
      ensures chunk == [] ==> current.None?
      ensures current.Some? ==> Further(old(current).value, current.value)
    {
      var b := current.value;
      var n := Min(b.length - b.readOffset, count);
      chunk := b.data[b.readOffset..b.readOffset + n];
      ghost var rest := Bytes(queue.inprogress);
      UnreadSplits(b, n);
      Assoc(chunk, b.data[b.readOffset + n..], rest);
      current := Some(b.(readOffset := b.readOffset + n));
      if b.readOffset + n == b.length {
        queue.ReleaseBuffer(current.value);
        current := None;
      }
      readable := readable - n;
    }

    /** One round of the reader, on one frame. */
    method ReadRound(count: nat) returns (atEnd: bool, chunk: seq<byte>)
      requires Valid() && count > 0
      modifies this`current, this`readable, queue`inprogress, queue`calls
      ensures Valid()
      ensures chunk + Stream() == old(Stream()) && |chunk| <= count
      ensures readable == old(readable) - |chunk|
      ensures atEnd ==> old(Stream()) == []
      ensures !atEnd && chunk == [] ==>
        |queue.inprogress| + |Opt(current)| < old(|queue.inprogress| + |Opt(current)|)
      ensures |queue.inprogress| + |Opt(current)| <= old(|queue.inprogress| + |Opt(current)|)
      ensures Later(old(current), old(queue.inprogress), current, queue.inprogress)
    {
      var loaded := LoadFrame();
      if !loaded {
        return true, [];
      }
      ghost var c := current;
      chunk := ReadFrame(count);
      LaterStill(old(current), old(queue.inprogress), c, queue.inprogress, current, queue.inprogress);
      atEnd := false;
    }

    /** Reads across frame boundaries, releasing each frame once it is read. */
    method StreamRead(count: nat) returns (r: Code, bytes: seq<byte>)
      requires Valid()
      modifies this`current, this`readable, queue`inprogress, queue`calls
      ensures Valid()
      ensures var n := Min(count, |old(Stream())|);
        && bytes == old(Stream())[..n]
        && Stream() == old(Stream())[n..]
        && readable == old(readable) - n
      ensures bytes + Stream() == old(Stream()) && (|bytes| == count || Stream() == [])
      ensures r == if count <= |old(Stream())| then Ok else Reading
      ensures Later(old(current), old(queue.inprogress), current, queue.inprogress)
    {
      r, bytes := Ok, [];
      ghost var whole := Stream();
      while |bytes| < count
        invariant Valid() && |bytes| <= count
        invariant bytes + Stream() == whole
        invariant readable == old(readable) - |bytes|
        invariant Later(old(current), old(queue.inprogress), current, queue.inprogress)
        decreases count - |bytes|, |queue.inprogress| + |Opt(current)|
      {
        ghost var c, r0 := current, queue.inprogress;
        var atEnd, chunk := ReadRound(count - |bytes|);
        LaterStill(old(current), old(queue.inprogress), c, r0, current, queue.inprogress);
        if atEnd {
          Split(bytes, Stream(), whole);
          return Reading, bytes;
        }
        Assoc(bytes, chunk, Stream());
        bytes := bytes + chunk;
      }
      Split(bytes, Stream(), whole);
    }

    /** Takes the frames of the next message, up to the first that ends one, from ready. */
    method TakeMessage()
      requires Valid() && LastCount(queue.ready) > 0
      modifies this`readable, queue`ready, queue`inprogress
      ensures Valid()
      ensures var n := FirstMessage(old(queue.ready));
        && queue.inprogress == old(queue.inprogress) + old(queue.ready)[..n]
        && queue.ready == old(queue.ready)[n..]
        && readable == |Bytes(old(queue.ready)[..n])|
    {
      readable := 0;
      ghost var all := queue.ready;
      ghost var k := 0;
      while true
        invariant 0 <= k < FirstMessage(all)
        invariant Valid()
        invariant queue.inprogress == old(queue.inprogress) + all[..k] && queue.ready == all[k..]
        invariant readable == |Bytes(all[..k])|
        decreases |queue.ready|
      {
        BytesTake(all, k);
        Assoc(old(queue.inprogress), all[..k], [all[k]]);
        var kind := TakeFrame();
        k := k + 1;
        if kind != BinaryMsg { continue; }
        break;
      }
    }

    /** Moves one frame and counts its bytes. */
    method TakeFrame() returns (kind: Kind)
      requires Valid() && queue.ready != []
      modifies this`readable, queue`ready, queue`inprogress
      ensures Valid()
      ensures kind == old(queue.ready)[0].kind
      ensures queue.ready == old(queue.ready)[1..] && queue.inprogress == old(queue.inprogress) + [old(queue.ready)[0]]
      ensures readable == old(readable) + |old(queue.ready)[0].data|
    {
      assert queue.ready[0] in queue.ready;
      var next := queue.PopReady();
      readable := readable + next.value.length;
      queue.SetInprogress(next.value);
      kind := next.value.kind;
    }

    /** The inbound half of a stream reset: everything ready is dropped, what is being read stays. */
    method Drain()
      requires Valid()
      modifies queue`ready, queue`calls
      ensures Valid() && queue.ready == []
      ensures queue.calls == old(queue.calls) + Aborts(old(queue.ready))
    {
      while queue.ready != []
        invariant Valid() && unchanged(this) && queue.inprogress == old(queue.inprogress)
        invariant queue.calls + Aborts(queue.ready) == old(queue.calls) + Aborts(old(queue.ready))
        decreases |queue.ready|
      {
        ghost var before, calls := queue.ready, queue.calls;
        var b := queue.PopReady();
        assert before == [b.value] + queue.ready;
        AbortsConcat([b.value], queue.ready);
        Assoc(calls, Aborts([b.value]), Aborts(queue.ready));
        queue.ReleaseBuffer(b.value);
      }
    }

    /** A receiver that reads in pieces of the given sizes. */
    method Receive(sizes: seq<nat>) returns (output: seq<byte>)
      requires Valid()
      modifies this`current, this`readable, queue`inprogress, queue`calls
      ensures Valid()
      ensures output + Stream() == old(Stream())
      ensures Total(sizes) >= |old(Stream())| ==> Stream() == []
      ensures Later(old(current), old(queue.inprogress), current, queue.inprogress)
    {
      output := [];
      ghost var offered := Stream();
      for i := 0 to |sizes|
        invariant Valid() && output + Stream() == offered
        invariant Total(sizes[..i]) <= |output| || Stream() == []
        invariant Later(old(current), old(queue.inprogress), current, queue.inprogress)
      {
        ghost var c, r0 := current, queue.inprogress;
        var r, bytes := StreamRead(sizes[i]);
        LaterStill(old(current), old(queue.inprogress), c, r0, current, queue.inprogress);
        TotalTake(sizes, i);
        Assoc(output, bytes, Stream());
        output := output + bytes;
      }
      assert sizes[..|sizes|] == sizes;
    }

    /** What is left of the frame the receiver stopped in is dropped. */
    method ReceiveAndStop(sizes: seq<nat>) returns (output: seq<byte>)
      requires Valid() && current == None
      modifies this`current, this`readable, queue`inprogress, queue`calls
      ensures Valid() && current == None && readable == 0
      ensures output <= old(Stream()) && (Total(sizes) >= |old(Stream())| ==> output == old(Stream()))
      ensures exists k :: StoppedAt(old(queue.inprogress), output, queue.inprogress, k)
    {
      assert Stream() == Bytes(queue.inprogress);
      output := Receive(sizes);
      WhereItStopped(old(queue.inprogress), current, queue.inprogress, output);
      if current.Some? {
        queue.ReleaseBuffer(current.value);
      }
      current, readable := None, 0;
    }

    /** Offers the next message to the receiver. */
    method DeliverStream(sizes: seq<nat>, verdict: Code) returns (output: seq<byte>, ghost offered: seq<byte>)
      requires Valid() && current == None && LastCount(queue.ready) > 0
      modifies this, queue`ready, queue`inprogress, queue`calls
      ensures Valid() && current == None && readable == 0
      ensures var n := FirstMessage(old(queue.ready));
        && offered == old(Bytes(queue.inprogress)) + Bytes(old(queue.ready)[..n])
        && queue.ready == old(queue.ready)[n..]
      ensures output <= offered
      ensures Total(sizes) >= |offered| ==> output == offered
      // The frames behind the one reading stopped in are left for the next receiver
      ensures var frames := old(queue.inprogress) + old(queue.ready)[..FirstMessage(old(queue.ready))];
        exists k :: StoppedAt(frames, output, queue.inprogress, k)
      ensures deliverTasks == old(deliverTasks)
      ensures disconnectTasks == old(disconnectTasks) + if verdict == Ok then 0 else 1
    {
      TakeMessage();
      BytesConcat(old(queue.inprogress), old(queue.ready)[..FirstMessage(old(queue.ready))]);
      offered := Stream();
      output := ReceiveAndStop(sizes);
      if verdict != Ok {
        disconnectTasks := disconnectTasks + 1;
      }
    }
  }
}
