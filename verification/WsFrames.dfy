/** Frames as they travel, and how a sequence of them parses into messages. */
module WsFrames {
  import opened Prelude
  import opened IoQueue

  /** What the peer sees of a buffer; `id` tells retransmissions of one buffer apart from others. */
  datatype Wire = Wire(id: nat, data: seq<byte>, last: bool)

  function Sent(b: Buffer): Wire
  {
    Wire(b.id, b.data, b.kind == BinaryMsg)
  }

  function SentAll(bs: seq<Buffer>): (r: seq<Wire>)
    ensures |r| == |bs|
    ensures forall i :: 0 <= i < |bs| ==> r[i] == Sent(bs[i])
  {
    seq(|bs|, i requires 0 <= i < |bs| => Sent(bs[i]))
  }

  lemma SentAllConcat(a: seq<Buffer>, b: seq<Buffer>)
    ensures SentAll(a + b) == SentAll(a) + SentAll(b)
  {
  }

  /** Concatenated content of the buffers. */
  function Bytes(bs: seq<Buffer>): seq<byte>
  {
    if bs == [] then [] else bs[0].data + Bytes(bs[1..])
  }

  lemma {:induction false} BytesConcat(a: seq<Buffer>, b: seq<Buffer>)
    ensures Bytes(a + b) == Bytes(a) + Bytes(b)
  {
    if a == [] {
      assert a + b == b;
    } else {
      calc {
        Bytes(a + b);
      ==  { assert (a + b)[1..] == a[1..] + b; }
        a[0].data + Bytes(a[1..] + b);
      ==  { BytesConcat(a[1..], b); }
        a[0].data + (Bytes(a[1..]) + Bytes(b));
      ==  { Assoc(a[0].data, Bytes(a[1..]), Bytes(b)); }
        Bytes(a) + Bytes(b);
      }
    }
  }

  /** The complete messages in a frame sequence, and the bytes of the message still open at its end. */
  datatype Parsed = Parsed(messages: seq<seq<byte>>, tail: seq<byte>)

  function Parse(ws: seq<Wire>): Parsed
  {
    if ws == [] then Parsed([], []) else
    var p := Parse(ws[..|ws| - 1]);
    var w := ws[|ws| - 1];
    if w.last then Parsed(p.messages + [p.tail + w.data], []) else Parsed(p.messages, p.tail + w.data)
  }

  lemma ParseSnoc(ws: seq<Wire>, w: Wire)
    ensures Parse(ws + [w]) ==
      if w.last then Parsed(Parse(ws).messages + [Parse(ws).tail + w.data], [])
      else Parsed(Parse(ws).messages, Parse(ws).tail + w.data)
  {
    assert (ws + [w])[..|ws|] == ws;
  }

  /** A message is complete at the end of the sequence. */
  predicate OnBoundary(ws: seq<Wire>)
  {
    ws != [] ==> ws[|ws| - 1].last
  }

  lemma BoundaryHasNoTail(ws: seq<Wire>)
    requires OnBoundary(ws)
    ensures Parse(ws).tail == []
  {
  }

  /** With no bytes of an open message pending, parsing starts afresh. */
  lemma {:induction false} ParseConcat(a: seq<Wire>, b: seq<Wire>)
    requires Parse(a).tail == []
    ensures Parse(a + b) == Parsed(Parse(a).messages + Parse(b).messages, Parse(b).tail)
  {
    if b == [] {
      assert a + b == a;
    } else {
      var b' := b[..|b| - 1];
      var w := b[|b| - 1];
      assert b == b' + [w];
      ParseConcat(a, b');
      ParseSnoc(b', w);
      ParseSnoc(a + b', w);
      assert a + b == (a + b') + [w];
    }
  }

  /** Bytes pending at the start go to the first message that is completed. */
  lemma {:induction false} ParseOpen(a: seq<Wire>, b: seq<Wire>)
    ensures var x, p := Parse(a).tail, Parse(b);
      Parse(a + b) ==
        if p.messages == [] then Parsed(Parse(a).messages, x + p.tail)
        else Parsed(Parse(a).messages + ([x + p.messages[0]] + p.messages[1..]), p.tail)
  {
    if b == [] {
      assert a + b == a;
      assert Parse(a).tail + [] == Parse(a).tail;
    } else {
      var b', w := b[..|b| - 1], b[|b| - 1];
      assert a + b == (a + b') + [w];
      ParseOpen(a, b');
      ParseSnoc(a + b', w);
      OpenSnoc(Parse(a).messages, Parse(a).tail, Parse(b').messages, Parse(b').tail, w.data);
    }
  }

  lemma OpenSnoc(ms: seq<seq<byte>>, x: seq<byte>, m: seq<seq<byte>>, tail: seq<byte>, data: seq<byte>)
    ensures (x + tail) + data == x + (tail + data)
    ensures var n := m + [tail + data];
      && (m == [] ==> ms + [x + (tail + data)] == ms + ([x + n[0]] + n[1..]))
      && (m != [] ==> (ms + ([x + m[0]] + m[1..])) + [tail + data] == ms + ([x + n[0]] + n[1..]))
  {
    var n := m + [tail + data];
    assert m == [] ==> n[1..] == [] && n[0] == tail + data;
    assert m != [] ==> n[0] == m[0] && n[1..] == m[1..] + [tail + data];
  }

  /** A longer frame sequence parses into at least the same messages. */
  lemma {:induction false} ParsePrefix(ws: seq<Wire>, n: nat)
    requires n <= |ws|
    ensures Parse(ws[..n]).messages <= Parse(ws).messages
    decreases |ws| - n
  {
    if n < |ws| {
      ParsePrefix(ws, n + 1);
      assert ws[..n + 1] == ws[..n] + [ws[n]];
      ParseSnoc(ws[..n], ws[n]);
    } else {
      assert ws[..n] == ws;
    }
  }

  /** A frame sequence that only continues a message leaves it open. */
  lemma {:induction false} ParseFragments(ws: seq<Wire>, bs: seq<Buffer>)
    requires forall b :: b in bs ==> b.kind != BinaryMsg
    ensures Parse(ws + SentAll(bs)) == Parsed(Parse(ws).messages, Parse(ws).tail + Bytes(bs))
  {
    if bs == [] {
      assert ws + SentAll(bs) == ws;
    } else {
      var bs' := bs[..|bs| - 1];
      var b := bs[|bs| - 1];
      assert bs == bs' + [b];
      ParseFragments(ws, bs');
      BytesConcat(bs', [b]);
      assert Bytes([b]) == b.data;
      FragmentSnoc(ws, bs', b);
      ParseSnoc(ws + SentAll(bs'), Sent(b));
      Assoc(Parse(ws).tail, Bytes(bs'), b.data);
    }
  }

  lemma FragmentSnoc(ws: seq<Wire>, bs: seq<Buffer>, b: Buffer)
    ensures ws + SentAll(bs + [b]) == (ws + SentAll(bs)) + [Sent(b)]
  {
  }

  lemma FragmentsParse(bs: seq<Buffer>)
    requires forall b :: b in bs ==> b.kind != BinaryMsg
    ensures Parse(SentAll(bs)) == Parsed([], Bytes(bs))
  {
    ParseFragments([], bs);
    assert [] + SentAll(bs) == SentAll(bs) && [] + Bytes(bs) == Bytes(bs);
  }

  /** Number of complete messages. */
  function LastCount(bs: seq<Buffer>): nat
  {
    if bs == [] then 0 else (if bs[0].kind == BinaryMsg then 1 else 0) + LastCount(bs[1..])
  }

  lemma {:induction false} LastCountConcat(a: seq<Buffer>, b: seq<Buffer>)
    ensures LastCount(a + b) == LastCount(a) + LastCount(b)
  {
    if a == [] {
      assert a + b == b;
    } else {
      LastCountConcat(a[1..], b);
      assert (a + b)[1..] == a[1..] + b;
    }
  }

  // ---- What fragmentation does not change --------------------------------------------------------

  /** A frame sequence as bytes and ends of messages, however it is cut into frames. */
  datatype Unit = Octet(b: byte) | EndOfMessage

  function Octets(data: seq<byte>): (r: seq<Unit>)
    ensures |r| == |data| && forall i :: 0 <= i < |data| ==> r[i] == Octet(data[i])
  {
    seq(|data|, i requires 0 <= i < |data| => Octet(data[i]))
  }

  function Flow(ws: seq<Wire>): seq<Unit>
  {
    if ws == [] then [] else
    var w := ws[|ws| - 1];
    Flow(ws[..|ws| - 1]) + (Octets(w.data) + if w.last then [EndOfMessage] else [])
  }

  function ParseFlow(us: seq<Unit>): Parsed
  {
    if us == [] then Parsed([], []) else
    var p := ParseFlow(us[..|us| - 1]);
    match us[|us| - 1]
    case Octet(b) => Parsed(p.messages, p.tail + [b])
    case EndOfMessage => Parsed(p.messages + [p.tail], [])
  }

  lemma FlowSnoc(us: seq<Unit>, u: Unit)
    ensures ParseFlow(us + [u]) == match u
      case Octet(b) => Parsed(ParseFlow(us).messages, ParseFlow(us).tail + [b])
      case EndOfMessage => Parsed(ParseFlow(us).messages + [ParseFlow(us).tail], [])
  {
    assert (us + [u])[..|us|] == us;
  }

  lemma {:induction false} FlowOctets(us: seq<Unit>, data: seq<byte>)
    ensures ParseFlow(us + Octets(data)) == Parsed(ParseFlow(us).messages, ParseFlow(us).tail + data)
    decreases |data|
  {
    if data == [] {
      assert us + Octets(data) == us;
    } else {
      var n := |data| - 1;
      FlowOctets(us, data[..n]);
      assert us + Octets(data) == (us + Octets(data[..n])) + [Octet(data[n])];
      FlowSnoc(us + Octets(data[..n]), Octet(data[n]));
      assert data == data[..n] + [data[n]];
      Assoc(ParseFlow(us).tail, data[..n], [data[n]]);
    }
  }

  /** The messages in a frame sequence depend on its bytes and message ends only. */
  lemma {:induction false} ParseIsOfFlow(ws: seq<Wire>)
    ensures Parse(ws) == ParseFlow(Flow(ws))
  {
    if ws != [] {
      var w, rest := ws[|ws| - 1], Flow(ws[..|ws| - 1]);
      ParseIsOfFlow(ws[..|ws| - 1]);
      FlowOctets(rest, w.data);
      if w.last {
        Assoc(rest, Octets(w.data), [EndOfMessage]);
        FlowSnoc(rest + Octets(w.data), EndOfMessage);
      } else {
        assert Octets(w.data) + [] == Octets(w.data);
      }
    }
  }

  lemma {:induction false} FlowPrefix(us: seq<Unit>, n: nat)
    requires n <= |us|
    ensures ParseFlow(us[..n]).messages <= ParseFlow(us).messages
    decreases |us| - n
  {
    if n < |us| {
      FlowPrefix(us, n + 1);
      assert us[..n + 1] == us[..n] + [us[n]];
      FlowSnoc(us[..n], us[n]);
    } else {
      assert us[..n] == us;
    }
  }

  /** Frames that carry a prefix of the bytes and message ends of others carry a prefix of their messages. */
  lemma FlowCarriesMessages(a: seq<Wire>, b: seq<Wire>)
    requires Flow(a) <= Flow(b)
    ensures Parse(a).messages <= Parse(b).messages
  {
    ParseIsOfFlow(a);
    ParseIsOfFlow(b);
    FlowPrefix(Flow(b), |Flow(a)|);
    assert Flow(b)[..|Flow(a)|] == Flow(a);
  }
}
