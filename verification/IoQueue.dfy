/** The three-state buffer queue: buffers are ready, in progress or done.
    A buffer is a value that one holder has at a time; `id` stands for its address. */
module IoQueue {
  import opened Prelude
  import opened Completion

  /** Frame size of the WebSocket streams. */
  const FRAME_SIZE: nat := 0x1000

  datatype Kind = Unknown | BinaryMsg | BinaryFragment | Utf8Msg | Utf8Fragment

  /** `data` holds the bytes put into the buffer so far, so its length is the write offset.
      `cb` is the completion callback still attached to the buffer. */
  datatype Buffer = Buffer(
    id: nat, data: seq<byte>, length: nat, readOffset: nat, kind: Kind, code: Code, cb: Option<nat>)
  {
    /** Bytes not read yet. */
    function Unread(): seq<byte>
    {
      if readOffset <= |data| then data[readOffset..] else []
    }
  }

  /** The callbacks attached to the buffers, in list order. */
  function Callbacks(bs: seq<Buffer>): seq<nat>
  {
    if bs == [] then [] else Opt(bs[0].cb) + Callbacks(bs[1..])
  }

  lemma {:induction false} CallbacksConcat(a: seq<Buffer>, b: seq<Buffer>)
    ensures Callbacks(a + b) == Callbacks(a) + Callbacks(b)
  {
    if a == [] {
      assert a + b == b;
    } else {
      calc {
        Callbacks(a + b);
      ==  { assert (a + b)[1..] == a[1..] + b; }
        Opt(a[0].cb) + Callbacks(a[1..] + b);
      ==  { CallbacksConcat(a[1..], b); }
        Opt(a[0].cb) + (Callbacks(a[1..]) + Callbacks(b));
      ==  { Assoc(Opt(a[0].cb), Callbacks(a[1..]), Callbacks(b)); }
        Callbacks(a) + Callbacks(b);
      }
    }
  }

  /** The buffers with their callbacks detached. */
  function Detached(bs: seq<Buffer>): (r: seq<Buffer>)
    ensures |r| == |bs|
    ensures forall i :: 0 <= i < |bs| ==> r[i] == bs[i].(cb := None)
    ensures Callbacks(r) == []
  {
    if bs == [] then [] else [bs[0].(cb := None)] + Detached(bs[1..])
  }

  /** The runs that abort every callback of the list. */
  function Aborts(bs: seq<Buffer>): seq<Call>
  {
    Calls(Callbacks(bs), Aborted)
  }

  lemma AbortsConcat(a: seq<Buffer>, b: seq<Buffer>)
    ensures Aborts(a + b) == Aborts(a) + Aborts(b)
  {
    CallbacksConcat(a, b);
  }

  lemma AbortsTake(bs: seq<Buffer>, i: nat)
    requires i < |bs|
    ensures Aborts(bs[..i + 1]) == Aborts(bs[..i]) + Aborts([bs[i]])
  {
    assert bs[..i + 1] == bs[..i] + [bs[i]];
    AbortsConcat(bs[..i], [bs[i]]);
  }

  class Queue {
    var ready: seq<Buffer>
    var inprogress: seq<Buffer>
    var done: seq<Buffer>
    /** Completion callbacks the queue has run, oldest first. */
    var calls: seq<Call>

    constructor ()
      ensures ready == inprogress == done == [] && calls == []
    {
      ready, inprogress, done, calls := [], [], [], [];
    }

    method SetReady(b: Buffer)
      modifies this`ready
      ensures ready == old(ready) + [b]
    {
      ready := ready + [b];
    }

    method SetInprogress(b: Buffer)
      modifies this`inprogress
      ensures inprogress == old(inprogress) + [b]
    {
      inprogress := inprogress + [b];
    }

    method SetDone(b: Buffer)
      modifies this`done
      ensures done == old(done) + [b]
    {
      done := done + [b];
    }

    method PopReady() returns (b: Option<Buffer>)
      modifies this`ready
      ensures Opt(b) + ready == old(ready)
      ensures b.None? ==> old(ready) == []
    {
      if ready == [] { return None; }
      b := Some(ready[0]);
      ready := ready[1..];
    }

    method PopInprogress() returns (b: Option<Buffer>)
      modifies this`inprogress
      ensures Opt(b) + inprogress == old(inprogress)
      ensures b.None? ==> old(inprogress) == []
    {
      if inprogress == [] { return None; }
      b := Some(inprogress[0]);
      inprogress := inprogress[1..];
    }

    method PopDone() returns (b: Option<Buffer>)
      modifies this`done
      ensures Opt(b) + done == old(done)
      ensures b.None? ==> old(done) == []
    {
      if done == [] { return None; }
      b := Some(done[0]);
      done := done[1..];
    }

    /** Everything in progress goes back in front of what is ready. */
    method Rollback()
      modifies this`ready, this`inprogress
      ensures ready == old(inprogress) + old(ready)
      ensures inprogress == []
    {
      ready := inprogress + ready;
      inprogress := [];
    }

    /** Releasing a buffer runs its callback, if one is still attached. */
    method ReleaseBuffer(b: Buffer)
      modifies this`calls
      ensures calls == old(calls) + Aborts([b])
    {
      assert Callbacks([b]) == Opt(b.cb);
      if b.cb.Some? {
        calls := calls + [Call(b.cb.value, Aborted)];
      }
    }

    /** Walks one list, detaching and running each callback. */
    method AbortList(bs: seq<Buffer>) returns (r: seq<Buffer>)
      modifies this`calls
      ensures r == Detached(bs)
      ensures calls == old(calls) + Aborts(bs)
    {
      r := [];
      for i := 0 to |bs|
        invariant r == Detached(bs)[..i]
        invariant calls == old(calls) + Aborts(bs[..i])
      {
        AbortsTake(bs, i);
        Assoc(old(calls), Aborts(bs[..i]), Aborts([bs[i]]));
        ReleaseBuffer(bs[i]);
        r := r + [bs[i].(cb := None)];
      }
      assert bs[..|bs|] == bs;
    }

    method Abort()
      modifies this
      ensures ready == Detached(old(ready))
      ensures inprogress == Detached(old(inprogress))
      ensures done == Detached(old(done))
      ensures calls == old(calls) + Aborts(old(done)) + Aborts(old(inprogress)) + Aborts(old(ready))
    {
      done := AbortList(done);
      inprogress := AbortList(inprogress);
      ready := AbortList(ready);
    }

    /** Frees the buffers of one list, head first. */
    method ReleaseList(bs: seq<Buffer>)
      modifies this`calls
      ensures calls == old(calls) + Aborts(bs)
    {
      var rest := bs;
      while rest != []
        invariant calls + Aborts(rest) == old(calls) + Aborts(bs)
        decreases |rest|
      {
        assert rest == [rest[0]] + rest[1..];
        AbortsConcat([rest[0]], rest[1..]);
        Assoc(calls, Aborts([rest[0]]), Aborts(rest[1..]));
        ReleaseBuffer(rest[0]);
        rest := rest[1..];
      }
    }

    method ReleaseAll()
      modifies this
      ensures ready == inprogress == done == []
      ensures calls == old(calls) + Aborts(old(done)) + Aborts(old(inprogress)) + Aborts(old(ready))
    {
      ReleaseList(done);
      done := [];
      ReleaseList(inprogress);
      inprogress := [];
      ReleaseList(ready);
      ready := [];
    }
  }
}
