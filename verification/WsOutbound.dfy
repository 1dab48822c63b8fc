/** Sending over a WebSocket connection: a byte stream is cut into frames, frames move from ready
    through the socket to in progress and done, and go back to ready on a disconnect. */
module WsOutbound {
  import opened Prelude
  import opened Completion
  import opened IoQueue
  import opened WsFrames

  /** What has been written to the buffer being filled. */
  function Written(current: Option<Buffer>): seq<byte>
  {
    if current.Some? then current.value.data else []
  }

  predicate GoodCurrent(current: Option<Buffer>)
  {
    current.Some? ==>
      && 1 <= |current.value.data| <= FRAME_SIZE
      && current.value.length == FRAME_SIZE
      && current.value.cb.None?
  }

  predicate FullFragments(fs: seq<Buffer>)
  {
    forall f :: f in fs ==> f.kind == BinaryFragment && |f.data| == FRAME_SIZE && f.cb.None?
  }

  /** The buffers carry consecutive ids. */
  predicate Numbered(fs: seq<Buffer>, first: nat)
  {
    forall i :: 0 <= i < |fs| ==> fs[i].id == first + i
  }

  /** `fs` and `after` cut what was in `before`, followed by `bytes`, into full fragments and a buffer that
      may be filled but is not queued yet. */
  predicate Framing(before: Option<Buffer>, bytes: seq<byte>, fs: seq<Buffer>, after: Option<Buffer>)
  {
    && FullFragments(fs)
    && GoodCurrent(after)
    && Bytes(fs) + Written(after) == Written(before) + bytes
  }

  /** Buffers are numbered in creation order; `id` and `id'` are the next number before and after. */
  predicate Numbering(before: Option<Buffer>, fs: seq<Buffer>, after: Option<Buffer>, id: nat, id': nat)
  {
    var first := if before.Some? then before.value.id else id;
    && (before.Some? ==> before.value.id + 1 == id && fs + Opt(after) != [])
    && Numbered(fs, first)
    && (after.Some? ==> after.value.id == first + |fs|)
    && id' == first + |fs| + |Opt(after)|
  }

  /** An empty outbound buffer. */
  function NewBuffer(id: nat): Buffer
  {
    Buffer(id, [], FRAME_SIZE, 0, Unknown, Ok, None)
  }

  /** Writes compose: cutting one run of bytes after another is cutting both together. */
  lemma FramingCompose(c0: Option<Buffer>, x: seq<byte>, f: seq<Buffer>, c1: Option<Buffer>,
                       y: seq<byte>, g: seq<Buffer>, c2: Option<Buffer>)
    requires Framing(c0, x, f, c1) && Framing(c1, y, g, c2)
    ensures Framing(c0, x + y, f + g, c2)
  {
    calc {
      Bytes(f + g) + Written(c2);
    ==  { BytesConcat(f, g); Assoc(Bytes(f), Bytes(g), Written(c2)); }
      Bytes(f) + (Bytes(g) + Written(c2));
    ==
      Bytes(f) + (Written(c1) + y);
    ==  { Assoc(Bytes(f), Written(c1), y); }
      (Bytes(f) + Written(c1)) + y;
    ==
      (Written(c0) + x) + y;
    ==  { Assoc(Written(c0), x, y); }
      Written(c0) + (x + y);
    }
  }

  lemma NumberingCompose(c0: Option<Buffer>, f: seq<Buffer>, c1: Option<Buffer>, g: seq<Buffer>, c2: Option<Buffer>,
                         id: nat, id1: nat, id2: nat)
    requires Numbering(c0, f, c1, id, id1) && Numbering(c1, g, c2, id1, id2)
    ensures Numbering(c0, f + g, c2, id, id2)
  {
  }

  lemma TakeMore(bytes: seq<byte>, a: nat, n: nat)
    requires a + n <= |bytes|
    ensures bytes[..a] + bytes[a..][..n] == bytes[..a + n]
  {
  }

  function Flatten(writes: seq<seq<byte>>): seq<byte>
  {
    if writes == [] then [] else Flatten(writes[..|writes| - 1]) + writes[|writes| - 1]
  }

  lemma FlattenTake(writes: seq<seq<byte>>, i: nat)
    requires i < |writes|
    ensures Flatten(writes[..i + 1]) == Flatten(writes[..i]) + writes[i]
  {
    assert writes[..i + 1][..i] == writes[..i];
  }

  lemma {:induction false} FlattenPrefix(writes: seq<seq<byte>>, i: nat)
    requires i <= |writes|
    ensures Flatten(writes[..i]) <= Flatten(writes)
    decreases |writes| - i
  {
    if i < |writes| {
      FlattenPrefix(writes, i + 1);
      FlattenTake(writes, i);
    } else {
      assert writes[..i] == writes;
    }
  }

  lemma PrefixOfAppend(a: seq<byte>, b: seq<byte>, n: nat, whole: seq<byte>)
    requires n <= |b| && a + b <= whole
    ensures a + b[..n] <= whole
  {
  }

  /** The frames of exactly one message: full fragments, then a last frame of 1 to 4096 bytes that
      carries the sender's callback. */
  predicate OneMessage(fs: seq<Buffer>, message: seq<byte>, cb: Option<nat>)
  {
    && fs != []
    && FullFragments(fs[..|fs| - 1])
    && var last := fs[|fs| - 1];
    && last.kind == BinaryMsg
    && last.cb == cb
    && 1 <= |last.data| <= FRAME_SIZE
    && Bytes(fs) == message
    && Parse(SentAll(fs)) == Parsed([message], [])
  }

  lemma LastFrameParses(fs: seq<Buffer>, last: Buffer)
    requires FullFragments(fs) && last.kind == BinaryMsg
    ensures Parse(SentAll(fs + [last])) == Parsed([Bytes(fs) + last.data], [])
  {
    calc {
      Parse(SentAll(fs + [last]));
    ==  { SentAllConcat(fs, [last]); assert SentAll([last]) == [Sent(last)]; }
      Parse(SentAll(fs) + [Sent(last)]);
    ==  { ParseSnoc(SentAll(fs), Sent(last)); }
      Parsed(Parse(SentAll(fs)).messages + [Parse(SentAll(fs)).tail + last.data], []);
    ==  { FragmentsParse(fs); }
      Parsed([Bytes(fs) + last.data], []);
    }
  }

  lemma MessageComplete(before: Option<Buffer>, bytes: seq<byte>, fs: seq<Buffer>, current: Buffer, cb: Option<nat>)
    requires Framing(before, bytes, fs, Some(current))
    ensures OneMessage(fs + [current.(kind := BinaryMsg, cb := cb)], Written(before) + bytes, cb)
  {
    var last := current.(kind := BinaryMsg, cb := cb);
    BytesConcat(fs, [last]);
    assert Bytes([last]) == last.data;
    LastFrameParses(fs, last);
    assert (fs + [last])[..|fs|] == fs;
  }

  /** The callback runs that report the send results of done buffers. */
  function Completions(bs: seq<Buffer>): seq<Call>
  {
    if bs == [] then [] else
    (if bs[0].cb.Some? then [Call(bs[0].cb.value, bs[0].code)] else []) + Completions(bs[1..])
  }

  /** The sending half of a connection. */
  class Stream {
    const queue: Queue
    var current: Option<Buffer>
    var nextId: nat
    var calls: seq<Call>
    var deliverTasks: nat
    var disconnectTasks: nat

    predicate Valid()
      reads this
    {
      && GoodCurrent(current)
      && (current.Some? ==> current.value.id + 1 == nextId)
    }

    constructor ()
      ensures Valid() && fresh(queue) && current == None && calls == []
      ensures queue.ready == queue.inprogress == queue.done == []
    {
      queue := new Queue();
      current, nextId, calls, deliverTasks, disconnectTasks := None, 0, [], 0, 0;
    }

    /** One round of the writer: queues the current buffer as a fragment if it is full, then puts as
        much as fits into the current buffer, or into a new one. */
    method Put(bytes: seq<byte>, left: nat) returns (n: nat, left': nat, ghost fs: seq<Buffer>)
      requires Valid() && bytes != []
      modifies this`current, this`nextId, queue`ready
      ensures Valid()
      ensures n <= |bytes| && left' <= left && (if n == 0 then left' == 0 && current == None else current.Some?)
      ensures Framing(old(current), bytes[..n], fs, current)
      ensures Numbering(old(current), fs, current, old(nextId), nextId)
      ensures queue.ready == old(queue.ready) + fs
    {
      fs, left' := [], left;
      if current.Some? && |current.value.data| == current.value.length {
        queue.SetReady(current.value.(kind := BinaryFragment));
        fs := [current.value.(kind := BinaryFragment)];
        current := None;
      }
      if current == None {
        if left == 0 {
          return 0, left', fs;
        }
        left' := left - 1;
        current := Some(NewBuffer(nextId));
        nextId := nextId + 1;
      }
      var avail := current.value.length - |current.value.data|;
      n := if |bytes| > avail then avail else |bytes|;
      current := Some(current.value.(data := current.value.data + bytes[..n]));
    }

    /** Writes `bytes` to the stream. `budget` is how many buffers the pool can still supply. */
    method StreamWrite(bytes: seq<byte>, budget: nat)
      returns (r: Code, accepted: nat, left: nat, ghost fs: seq<Buffer>)
      requires Valid()
      modifies this`current, this`nextId, queue`ready
      ensures Valid()
      ensures accepted <= |bytes| && left <= budget
      ensures r == Ok ==> accepted == |bytes| && (current == None ==> bytes == [] && old(current) == None)
      ensures r != Ok ==> r == OutOfMemory && accepted < |bytes| && left == 0 && current == None
      ensures Framing(old(current), bytes[..accepted], fs, current)
      ensures Numbering(old(current), fs, current, old(nextId), nextId)
      ensures queue.ready == old(queue.ready) + fs
    {
      fs, accepted, left := [], 0, budget;
      while accepted < |bytes|
        invariant Valid() && accepted <= |bytes| && left <= budget
        invariant Framing(old(current), bytes[..accepted], fs, current)
        invariant Numbering(old(current), fs, current, old(nextId), nextId)
        invariant queue.ready == old(queue.ready) + fs
        invariant current == None ==> accepted == 0 && old(current) == None
        decreases |bytes| - accepted
      {
        ghost var mid, mid' := current, nextId;
        var n, left', f := Put(bytes[accepted..], left);
        assert Framing(old(current), bytes[..accepted + n], fs + f, current) by {
          FramingCompose(old(current), bytes[..accepted], fs, mid, bytes[accepted..][..n], f, current);
          TakeMore(bytes, accepted, n);
        }
        NumberingCompose(old(current), fs, mid, f, current, old(nextId), mid', nextId);
        Assoc(old(queue.ready), fs, f);
        accepted, left, fs := accepted + n, left', fs + f;
        if n == 0 {
          return OutOfMemory, accepted, left, fs;
        }
      }
      r := Ok;
    }

    /** One more write after those that made `fs` out of `sent`. */
    method WriteNext(bytes: seq<byte>, budget: nat, ghost start: Option<Buffer>, ghost sent: seq<byte>,
        ghost ready: seq<Buffer>, ghost before: seq<Buffer>)
      returns (r: Code, n: nat, left: nat, ghost fs: seq<Buffer>)
      requires Valid() && Framing(start, sent, before, current) && queue.ready == ready + before
      modifies this`current, this`nextId, queue`ready
      ensures Valid() && n <= |bytes|
      ensures r == Ok ==> n == |bytes| && (current == None ==> bytes == [] && old(current) == None)
      ensures Framing(start, sent + bytes[..n], fs, current) && queue.ready == ready + fs
    {
      ghost var f;
      ghost var mid := current;
      r, n, left, f := StreamWrite(bytes, budget);
      FramingCompose(start, sent, before, mid, bytes[..n], f, current);
      Assoc(ready, before, f);
      fs := before + f;
    }

    /** Makes the sender's writes, stopping at the first that fails. `sent` is what was accepted. */
    method WriteAll(writes: seq<seq<byte>>, budget: nat)
      returns (r: Code, ghost sent: seq<byte>, ghost fs: seq<Buffer>)
      requires Valid()
      modifies this`current, this`nextId, queue`ready
      ensures Valid()
      ensures queue.ready == old(queue.ready) + fs
      ensures sent <= Flatten(writes) && (r == Ok ==> sent == Flatten(writes))
      ensures r == Ok && current == None ==> Written(old(current)) + sent == []
      ensures Framing(old(current), sent, fs, current)
    {
      r, sent, fs := Ok, [], [];
      var left := budget;
      for i := 0 to |writes|
        invariant Valid() && r == Ok
        invariant queue.ready == old(queue.ready) + fs
        invariant Framing(old(current), sent, fs, current)
        invariant sent == Flatten(writes[..i])
        invariant current == None ==> sent == [] && old(current) == None
      {
        var n;
        r, n, left, fs := WriteNext(writes[i], left, old(current), sent, old(queue.ready), fs);
        FlattenTake(writes, i);
        if r != Ok {
          FlattenPrefix(writes, i + 1);
          PrefixOfAppend(sent, writes[i], n, Flatten(writes));
          sent := sent + writes[i][..n];
          return;
        }
        assert writes[i][..n] == writes[i];
        sent := sent + writes[i];
      }
      assert writes[..|writes|] == writes;
    }

    /** Lets a sender write one message and queues its last frame. The sender returns `verdict` unless
        a write fails. */
    method Send(writes: seq<seq<byte>>, verdict: Code, budget: nat, complete: Option<nat>)
      returns (r: Code, ghost sent: seq<byte>, ghost fs: seq<Buffer>)
      requires Valid()
      modifies this, queue`ready
      ensures Valid()
      ensures queue.ready == old(queue.ready) + fs
      ensures sent <= Flatten(writes) && (r == Ok ==> sent == Flatten(writes))
      // Everything was written: the frames hold exactly one message
      ensures r == Ok && Written(old(current)) + sent != [] ==>
        && OneMessage(fs, Written(old(current)) + sent, complete)
        && current == None && calls == old(calls)
      // Otherwise the callback has run and no message was completed
      ensures !(r == Ok && Written(old(current)) + sent != []) ==>
        && Framing(old(current), sent, fs, current)
        && calls == old(calls) + Calls(Opt(complete), r)
    {
      r, sent, fs := WriteAll(writes, budget);
      if r == Ok {
        r := verdict;
      }
      if r != Ok || current == None {
        // Nothing to flush
        calls := calls + Calls(Opt(complete), r);
        return;
      }
      var last := current.value.(kind := BinaryMsg, cb := complete);
      MessageComplete(old(current), sent, fs, current.value, complete);
      Assoc(old(queue.ready), fs, [last]);
      current := None;
      queue.SetReady(last);
      fs := fs + [last];
    }

    /** Hands the oldest ready buffer to the socket. */
    method OnBeginSend() returns (b: Option<Buffer>)
      modifies queue`ready
      ensures Opt(b) + queue.ready == old(queue.ready)
      ensures b.None? ==> old(queue.ready) == []
    {
      b := queue.PopReady();
    }

    /** Takes a buffer back from the socket. The last frame of a message, once sent, makes everything in
        progress done. */
    method OnEndSend(b: Buffer, code: Code)
      modifies this`deliverTasks, this`disconnectTasks, queue`inprogress, queue`done
      ensures queue.done + queue.inprogress == old(queue.done) + old(queue.inprogress) + [b.(code := code)]
      ensures if code == Ok && b.kind == BinaryMsg then queue.inprogress == [] else queue.done == old(queue.done)
      ensures deliverTasks == old(deliverTasks) + if code == Ok && b.kind == BinaryMsg then 1 else 0
      ensures disconnectTasks == old(disconnectTasks) + if code in {Ok, Aborted} then 0 else 1
    {
      queue.SetInprogress(b.(code := code));
      if code == Ok && b.kind == BinaryMsg {
        while true
          invariant queue.done + queue.inprogress == old(queue.done) + old(queue.inprogress) + [b.(code := code)]
          invariant unchanged(this)
          decreases |queue.inprogress|
        {
          var next := queue.PopInprogress();
          if next.None? { break; }
          queue.SetDone(next.value);
        }
        deliverTasks := deliverTasks + 1;
      } else if code != Ok && code != Aborted {
        disconnectTasks := disconnectTasks + 1;
      }
    }

    /** Reports the result of every done buffer to its sender, oldest first. */
    method DeliverSendResults()
      modifies this`calls, queue`done, queue`calls
      ensures queue.done == [] && queue.calls == old(queue.calls)
      ensures calls == old(calls) + Completions(old(queue.done))
    {
      while true
        invariant calls + Completions(queue.done) == old(calls) + Completions(old(queue.done))
        invariant queue.calls == old(queue.calls)
        decreases |queue.done|
      {
        var next := queue.PopDone();
        if next.None? { break; }
        assert [next.value] + queue.done != [] && ([next.value] + queue.done)[1..] == queue.done;
        var b := next.value.(cb := None, code := Ok);
        assert Callbacks([b]) == [];
        queue.ReleaseBuffer(b);
        if next.value.cb.Some? {
          calls := calls + [Call(next.value.cb.value, next.value.code)];
        }
      }
    }

    /** Moves what was not delivered back to ready, so that it is sent again. */
    method Disconnect()
      modifies queue`ready, queue`inprogress
      ensures queue.ready == old(queue.inprogress) + old(queue.ready) && queue.inprogress == []
    {
      queue.Rollback();
    }

    /** Frees the stream and its queue once the socket has returned every buffer. */
    method Free()
      requires Valid()
      modifies this`current, queue
      ensures current == None && queue.ready == queue.inprogress == queue.done == []
      ensures queue.calls == old(queue.calls)
        + Aborts(old(queue.done)) + Aborts(old(queue.inprogress)) + Aborts(old(queue.ready))
    {
      if current.Some? {
        assert Callbacks([current.value]) == [];
        queue.ReleaseBuffer(current.value);
        current := None;
      }
      queue.ReleaseAll();
    }
  }
}
