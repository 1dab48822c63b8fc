/** What every run of an MQTT connection keeps. */
module MqttRuns {
  import opened Prelude
  import opened Completion
  import opened Mqtt

  // ---- Send queue and packet ids ---------------------------------------------------------------

  /** Messages carry increasing serials and the ids issued for them; published ones come first; what
      was sent since the last reset was sent in queue order. */
  predicate Queue(queue: seq<Message>, sent: seq<nat>, issued: nat, counter: nat)
  {
    && counter == IdAt(issued)
    && (forall i :: 0 <= i < |queue| ==> 1 <= queue[i].serial <= issued && queue[i].pktId == IdAt(queue[i].serial))
    && (forall i, j :: 0 <= i < j < |queue| ==> queue[i].serial < queue[j].serial)
    && (forall i, j :: 0 <= i < j < |queue| && queue[j].published ==> queue[i].published)
    && (forall i, j :: 0 <= i < j < |sent| ==> sent[i] < sent[j])
    && (forall k :: 0 <= k < |sent| ==> sent[k] <= issued)
    && (forall k, i :: 0 <= k < |sent| && 0 <= i < |queue| && !queue[i].published ==> sent[k] < queue[i].serial)
    && (forall i :: 0 <= i < |queue| && queue[i].published ==> queue[i].serial in sent)
  }

  predicate QueueInv(s: State)
  {
    Queue(s.queue, s.sent, s.issued, s.counter)
  }

  lemma QueueIssue(s: State)
    requires QueueInv(s)
    ensures QueueInv(Issue(s)) && 1 <= Issue(s).counter
  {
    NextIdIsIdAt(s.issued);
  }

  lemma QueuePublish(s: State, hasCb: bool, ok: bool)
    requires QueueInv(s)
    ensures QueueInv(DoPublish(s, hasCb, ok))
  {
    QueueIssue(s);
    PublishEffect(s, hasCb, ok);
    if ok {
      var cb := if hasCb then Some(s.registered) else None;
      QueueAdd(s.queue, s.sent, s.issued, Message(Issue(s).issued, Issue(s).counter, false, cb));
    }
  }

  lemma QueueAdd(queue: seq<Message>, sent: seq<nat>, issued: nat, m: Message)
    requires Queue(queue, sent, issued, IdAt(issued))
    requires m.serial == issued + 1 && m.pktId == IdAt(issued + 1) && !m.published
    ensures Queue(queue + [m], sent, issued + 1, IdAt(issued + 1))
  {
  }

  lemma QueuePublishTask(s: State, ok: bool)
    requires QueueInv(s)
    ensures QueueInv(RunPublish(s, ok))
  {
  }

  lemma QueueRemove(queue: seq<Message>, sent: seq<nat>, issued: nat, counter: nat, i: nat)
    requires Queue(queue, sent, issued, counter) && i < |queue|
    ensures Queue(queue[..i] + queue[i + 1..], sent, issued, counter)
  {
    var r := queue[..i] + queue[i + 1..];
    assert forall k :: 0 <= k < |r| ==> r[k] == queue[if k < i then k else k + 1];
  }

  lemma QueuePubAck(s: State, p: nat)
    requires QueueInv(s)
    ensures QueueInv(OnPubAck(s, p))
  {
    var i := FindId(s.queue, p);
    if i < |s.queue| {
      PubAckEffect(s, p);
      QueueAcked(s, OnPubAck(s, p), i);
    }
  }

  lemma QueueAcked(s: State, t: State, i: nat)
    requires QueueInv(s) && i < |s.queue| && t.queue == s.queue[..i] + s.queue[i + 1..]
    requires t.sent == s.sent && t.issued == s.issued && t.counter == s.counter
    ensures QueueInv(t)
  {
    QueueRemove(s.queue, s.sent, s.issued, s.counter, i);
  }

  lemma QueueReset(s: State)
    requires QueueInv(s)
    ensures QueueInv(CompleteDisconnect(s))
  {
  }

  /** Events that change the send queue. */
  predicate Sends(e: Event)
  {
    e.Publish? || e.PublishTask? || e.PubAck? || e.HardResetTask? || e.FreeTask? || e.Close?
  }

  /** The others leave the queue alone; they may issue one packet id. */
  lemma OthersLeaveQueue(s: State, e: Event)
    requires Enabled(s, e) && !Sends(e)
    ensures QueueUntouched(s, Apply(s, e))
  {
  }

  lemma QueueOthers(s: State, t: State)
    requires QueueInv(s) && QueueUntouched(s, t)
    ensures QueueInv(t)
  {
    QueueIssue(s);
  }

  lemma QueueHardReset(s: State, mayReconnect: bool)
    requires QueueInv(s)
    ensures QueueInv(RunHardReset(s, mayReconnect))
  {
    QueueReset(Done(s, HardReset).(status := Reset));
  }

  lemma QueueFree(s: State)
    requires QueueInv(s)
    ensures QueueInv(RunFree(s))
  {
    QueueReset(Done(s, FreeConnection));
  }

  lemma QueueClose(s: State)
    requires QueueInv(s)
    ensures QueueInv(DoClose(s))
  {
  }

  lemma QueueKept(s: State, e: Event)
    requires Enabled(s, e) && QueueInv(s)
    ensures QueueInv(Apply(s, e))
  {
    match e
    case Publish(hasCb, ok) => QueuePublish(s, hasCb, ok);
    case PublishTask(ok) => QueuePublishTask(s, ok);
    case PubAck(p) => QueuePubAck(s, p);
    case HardResetTask(mayReconnect) => QueueHardReset(s, mayReconnect);
    case FreeTask => QueueFree(s);
    case Close => QueueClose(s);
    case _ =>
      OthersLeaveQueue(s, e);
      QueueOthers(s, Apply(s, e));
  }

  // ---- The send pump ---------------------------------------------------------------------------

  /** While connected, an unpublished message is never stuck, unless a message came before the CONNACK:
      a publish task is pending, or an acknowledgement that will schedule one is awaited, or a reset is
      pending. */
  predicate PumpInv(s: State)
  {
    s.status == Connected && !s.course.early && FirstUnpublished(s.queue) < |s.queue| ==>
      || PublishMessage in s.tasks
      || s.queue[0].published
      || HardReset in s.tasks
      || SoftReset in s.tasks
  }

  /** Closing empties the queue for good, and only a closed connection is freed. */
  predicate CloseInv(s: State)
  {
    && (s.status == Closing ==> s.closed)
    && (FreeConnection in s.tasks ==> s.closed)
    && (s.closed ==> s.queue == [])
  }

  lemma PumpOthers(s: State, t: State)
    requires PumpInv(s) && OnlyAdds(s, t)
    ensures PumpInv(t)
  {
  }

  lemma PumpPublishTask(s: State, ok: bool)
    requires PumpInv(s) && QueueInv(s)
    ensures PumpInv(RunPublish(s, ok))
  {
    var i := FirstUnpublished(s.queue);
    if s.status == Connected && i < |s.queue| && ok {
      assert i > 0 ==> s.queue[0].published;
    }
  }

  /** Events after which status and queue are as before and tasks were only added. */
  predicate Adds(e: Event)
  {
    || e.Subscribe? || e.Release? || e.Connect? || e.SubscribeTask? || e.UnsubscribeTask? || e.MonitorTask?
    || e.BeginDisconnectTask? || e.SubAck? || e.UnsubAck? || e.Disconnected?
  }

  lemma AddsOnlyAdds(s: State, e: Event)
    requires Enabled(s, e) && Adds(e)
    ensures OnlyAdds(s, Apply(s, e))
  {
  }

  lemma PumpKept(s: State, e: Event)
    requires Enabled(s, e) && PumpInv(s) && QueueInv(s) && CloseInv(s)
    ensures PumpInv(Apply(s, e))
  {
    if Adds(e) {
      AddsOnlyAdds(s, e);
      PumpOthers(s, Apply(s, e));
    } else if e.PublishTask? {
      PumpPublishTask(s, e.ok);
    } else {
      PumpActs(s, e);
    }
  }

  /** The events that publish, acknowledge, reset or change the status. */
  lemma PumpActs(s: State, e: Event)
    requires Enabled(s, e) && PumpInv(s) && CloseInv(s) && !Adds(e) && !e.PublishTask?
    ensures PumpInv(Apply(s, e))
  {
    match e
    case Publish(hasCb, ok) => PumpPublish(s, hasCb, ok);
    case PubAck(p) => PumpPubAck(s, p);
    case HardResetTask(mayReconnect) => PumpHardReset(s, mayReconnect);
    case SoftResetTask => PumpStatus(s);
    case ReconnectTask(ok) => PumpReconnect(s, ok);
    case FreeTask => PumpFree(s);
    case Close => PumpClose(s);
    case ConnAck(accepted) => PumpConnAck(s, accepted);
    case Failed => PumpFailed(s);
    case Incoming => PumpIncoming(s);
  }

  lemma PumpPublish(s: State, hasCb: bool, ok: bool)
    requires PumpInv(s)
    ensures PumpInv(DoPublish(s, hasCb, ok))
  {
    PublishEffect(s, hasCb, ok);
  }

  lemma PumpPubAck(s: State, p: nat)
    requires PumpInv(s)
    ensures PumpInv(OnPubAck(s, p))
  {
  }

  lemma PumpHardReset(s: State, mayReconnect: bool)
    ensures PumpInv(RunHardReset(s, mayReconnect))
  {
  }

  lemma PumpStatus(s: State)
    ensures PumpInv(RunSoftReset(s))
  {
  }

  lemma PumpReconnect(s: State, ok: bool)
    requires PumpInv(s)
    ensures PumpInv(RunReconnect(s, ok))
  {
  }

  lemma PumpFree(s: State)
    requires CloseInv(s) && FreeConnection in s.tasks
    ensures PumpInv(RunFree(s))
  {
  }

  lemma PumpClose(s: State)
    ensures PumpInv(DoClose(s))
  {
  }

  lemma PumpConnAck(s: State, accepted: bool)
    requires PumpInv(s)
    ensures PumpInv(OnConnAck(s, accepted))
  {
  }

  lemma PumpFailed(s: State)
    requires PumpInv(s)
    ensures PumpInv(Add(s, HardReset))
  {
  }

  lemma PumpIncoming(s: State)
    requires PumpInv(s)
    ensures PumpInv(OnIncoming(s))
  {
  }

  lemma CloseOthers(s: State, t: State)
    requires CloseInv(s) && OnlyAdds(s, t)
    ensures CloseInv(t)
  {
  }

  lemma ClosePublishTask(s: State, ok: bool)
    requires CloseInv(s)
    ensures CloseInv(RunPublish(s, ok))
  {
  }

  lemma ClosePubAck(s: State, p: nat)
    requires CloseInv(s)
    ensures CloseInv(OnPubAck(s, p))
  {
  }

  lemma CloseHardReset(s: State, mayReconnect: bool)
    requires CloseInv(s)
    ensures CloseInv(RunHardReset(s, mayReconnect))
  {
  }

  lemma CloseFree(s: State)
    requires CloseInv(s)
    ensures CloseInv(RunFree(s))
  {
  }

  lemma CloseStatus(s: State, e: Event)
    requires Enabled(s, e) && CloseInv(s)
    requires e.SoftResetTask? || e.ReconnectTask? || e.ConnAck? || e.Failed? || e.Incoming?
    ensures CloseInv(Apply(s, e))
  {
  }

  lemma CloseCalls(s: State, e: Event)
    requires Enabled(s, e) && CloseInv(s) && (e.Publish? || e.Close?)
    ensures CloseInv(Apply(s, e))
  {
    if e.Publish? { PublishEffect(s, e.hasCb, e.ok); }
  }

  lemma CloseKept(s: State, e: Event)
    requires Enabled(s, e) && CloseInv(s)
    ensures CloseInv(Apply(s, e))
  {
    if Adds(e) {
      AddsOnlyAdds(s, e);
      CloseOthers(s, Apply(s, e));
    } else {
      match e
      case PublishTask(ok) => ClosePublishTask(s, ok);
      case PubAck(p) => ClosePubAck(s, p);
      case HardResetTask(mayReconnect) => CloseHardReset(s, mayReconnect);
      case FreeTask => CloseFree(s);
      case Publish(_, _) => CloseCalls(s, e);
      case Close => CloseCalls(s, e);
      case _ => CloseStatus(s, e);
    }
  }

  // ---- Completion callbacks --------------------------------------------------------------------

  function Cbs(queue: seq<Message>): multiset<nat>
  {
    multiset(Callbacks(queue))
  }

  /** Each registered callback has either run, once, or belongs to one queued message. */
  predicate Balanced(calls: seq<Call>, queue: seq<Message>, registered: nat)
  {
    Ran(calls) + Cbs(queue) == Numbers(registered)
  }

  predicate CallbackInv(s: State)
  {
    Balanced(s.calls, s.queue, s.registered)
  }

  lemma {:induction false} CallbacksConcat(a: seq<Message>, b: seq<Message>)
    ensures Callbacks(a + b) == Callbacks(a) + Callbacks(b)
  {
    if a == [] {
      assert a + b == b;
    } else {
      calc {
        Callbacks(a + b);
      ==  { assert (a + b)[1..] == a[1..] + b; }
        Opt(a[0].cb) + Callbacks(a[1..] + b);
      ==  { CallbacksConcat(a[1..], b); }
        Opt(a[0].cb) + (Callbacks(a[1..]) + Callbacks(b));
      ==  { Assoc(Opt(a[0].cb), Callbacks(a[1..]), Callbacks(b)); }
        Callbacks(a) + Callbacks(b);
      }
    }
  }

  lemma {:induction false} SameCallbacks(a: seq<Message>, b: seq<Message>)
    requires |a| == |b| && forall i :: 0 <= i < |a| ==> a[i].cb == b[i].cb
    ensures Callbacks(a) == Callbacks(b)
  {
    if a != [] {
      SameCallbacks(a[1..], b[1..]);
    }
  }

  lemma CallbacksRemove(queue: seq<Message>, i: nat)
    requires i < |queue|
    ensures Cbs(queue) == Cbs(queue[..i] + queue[i + 1..]) + multiset(Opt(queue[i].cb))
  {
    assert queue == queue[..i] + ([queue[i]] + queue[i + 1..]);
    CallbacksConcat(queue[..i], [queue[i]] + queue[i + 1..]);
    CallbacksConcat([queue[i]], queue[i + 1..]);
    CallbacksConcat(queue[..i], queue[i + 1..]);
    assert Callbacks([queue[i]]) == Opt(queue[i].cb);
  }

  lemma BalancedPublish(calls: seq<Call>, queue: seq<Message>, registered: nat, m: Message)
    requires Balanced(calls, queue, registered) && (m.cb.None? || m.cb == Some(registered))
    ensures Balanced(calls, queue + [m], registered + |Opt(m.cb)|)
  {
    calc {
      Ran(calls) + Cbs(queue + [m]);
    ==  { CallbacksConcat(queue, [m]); assert Callbacks([m]) == Opt(m.cb); }
      Ran(calls) + (Cbs(queue) + multiset(Opt(m.cb)));
    ==  { AddRight(Ran(calls), Cbs(queue), Numbers(registered), multiset(Opt(m.cb))); }
      Numbers(registered) + multiset(Opt(m.cb));
    ==  { MoreNumbers(registered, m.cb); }
      Numbers(registered + |Opt(m.cb)|);
    }
  }

  lemma BalancedReject(calls: seq<Call>, queue: seq<Message>, registered: nat, cb: Option<nat>, code: Code)
    requires Balanced(calls, queue, registered) && (cb.None? || cb == Some(registered))
    ensures Balanced(calls + Calls(Opt(cb), code), queue, registered + |Opt(cb)|)
  {
    calc {
      Ran(calls + Calls(Opt(cb), code)) + Cbs(queue);
    ==  { RanConcat(calls, Calls(Opt(cb), code)); RanCalls(Opt(cb), code); }
      (Ran(calls) + multiset(Opt(cb))) + Cbs(queue);
    ==  { AddLeft(Ran(calls), Cbs(queue), Numbers(registered), multiset(Opt(cb))); }
      Numbers(registered) + multiset(Opt(cb));
    ==  { MoreNumbers(registered, cb); }
      Numbers(registered + |Opt(cb)|);
    }
  }

  /** An acknowledged message's callback moves from the queue to the calls. */
  lemma BalancedAck(calls: seq<Call>, queue: seq<Message>, registered: nat, i: nat, code: Code)
    requires Balanced(calls, queue, registered) && i < |queue|
    ensures Balanced(calls + Calls(Opt(queue[i].cb), code), queue[..i] + queue[i + 1..], registered)
  {
    RanConcat(calls, Calls(Opt(queue[i].cb), code));
    RanCalls(Opt(queue[i].cb), code);
    CallbacksRemove(queue, i);
    Moved(Ran(calls), Cbs(queue[..i] + queue[i + 1..]), multiset(Opt(queue[i].cb)));
  }

  lemma CallbackPublish(s: State, hasCb: bool, ok: bool)
    requires CallbackInv(s)
    ensures CallbackInv(DoPublish(s, hasCb, ok))
  {
    var cb := if hasCb then Some(s.registered) else None;
    PublishEffect(s, hasCb, ok);
    if ok {
      CallbackQueued(s, DoPublish(s, hasCb, ok), Message(Issue(s).issued, Issue(s).counter, false, cb));
    } else {
      CallbackRejected(s, DoPublish(s, hasCb, ok), cb);
    }
  }

  lemma CallbackQueued(s: State, t: State, m: Message)
    requires CallbackInv(s) && (m.cb.None? || m.cb == Some(s.registered))
    requires t.calls == s.calls && t.queue == s.queue + [m] && t.registered == s.registered + |Opt(m.cb)|
    ensures CallbackInv(t)
  {
    BalancedPublish(s.calls, s.queue, s.registered, m);
  }

  lemma CallbackRejected(s: State, t: State, cb: Option<nat>)
    requires CallbackInv(s) && (cb.None? || cb == Some(s.registered))
    requires t.calls == s.calls + Calls(Opt(cb), OutOfMemory) && t.queue == s.queue
    requires t.registered == s.registered + |Opt(cb)|
    ensures CallbackInv(t)
  {
    BalancedReject(s.calls, s.queue, s.registered, cb, OutOfMemory);
  }

  lemma PublishEffect(s: State, hasCb: bool, ok: bool)
    ensures var t, cb := DoPublish(s, hasCb, ok), if hasCb then Some(s.registered) else None;
      && t.registered == s.registered + |Opt(cb)| && t.sent == s.sent
      && t.issued == s.issued + 1 && t.counter == Issue(s).counter
      && (ok ==> t.calls == s.calls && t.queue == s.queue + [Message(Issue(s).issued, Issue(s).counter, false, cb)])
      && (!ok ==> t.calls == s.calls + Calls(Opt(cb), OutOfMemory) && t.queue == s.queue)
  {
  }

  lemma CallbackPublishTask(s: State, ok: bool)
    requires CallbackInv(s)
    ensures CallbackInv(RunPublish(s, ok))
  {
    SameCallbacks(s.queue, RunPublish(s, ok).queue);
  }

  lemma CallbackPubAck(s: State, p: nat)
    requires CallbackInv(s)
    ensures CallbackInv(OnPubAck(s, p))
  {
    var i := FindId(s.queue, p);
    if i < |s.queue| {
      PubAckEffect(s, p);
      CallbackAcked(s, OnPubAck(s, p), i);
    }
  }

  lemma CallbackAcked(s: State, t: State, i: nat)
    requires CallbackInv(s) && i < |s.queue| && t.queue == s.queue[..i] + s.queue[i + 1..]
    requires t.calls == s.calls + Calls(Opt(s.queue[i].cb), Ok) && t.registered == s.registered
    ensures CallbackInv(t)
  {
    BalancedAck(s.calls, s.queue, s.registered, i, Ok);
  }

  lemma PubAckEffect(s: State, p: nat)
    requires FindId(s.queue, p) < |s.queue|
    ensures var t, i := OnPubAck(s, p), FindId(s.queue, p);
      && t.queue == s.queue[..i] + s.queue[i + 1..] && t.calls == s.calls + Calls(Opt(s.queue[i].cb), Ok)
      && t.registered == s.registered && t.sent == s.sent && t.issued == s.issued && t.counter == s.counter
  {
  }

  lemma CallbackReset(s: State)
    requires CallbackInv(s)
    ensures CallbackInv(CompleteDisconnect(s))
  {
    SameCallbacks(s.queue, Unsent(s.queue));
  }

  lemma CallbackHardReset(s: State, mayReconnect: bool)
    requires CallbackInv(s)
    ensures CallbackInv(RunHardReset(s, mayReconnect))
  {
    CallbackReset(Done(s, HardReset).(status := Reset));
  }

  lemma CallbackFree(s: State)
    requires CallbackInv(s)
    ensures CallbackInv(RunFree(s))
  {
    CallbackReset(Done(s, FreeConnection));
  }

  lemma CallbackClose(s: State)
    requires CallbackInv(s)
    ensures CallbackInv(DoClose(s))
  {
    RanConcat(s.calls, Calls(Callbacks(s.queue), Aborted));
    RanCalls(Callbacks(s.queue), Aborted);
  }

  lemma CallbackKept(s: State, e: Event)
    requires Enabled(s, e) && CallbackInv(s)
    ensures CallbackInv(Apply(s, e))
  {
    match e
    case Publish(hasCb, ok) => CallbackPublish(s, hasCb, ok);
    case PublishTask(ok) => CallbackPublishTask(s, ok);
    case PubAck(p) => CallbackPubAck(s, p);
    case HardResetTask(mayReconnect) => CallbackHardReset(s, mayReconnect);
    case FreeTask => CallbackFree(s);
    case Close => CallbackClose(s);
    case _ => OthersLeaveQueue(s, e);
  }

  // ---- Subscriptions ---------------------------------------------------------------------------

  /** A waiting subscription is in the payload of the packet it waits for, and its flag is the
      direction of that packet. */
  predicate Recorded(sub: Subscription, packets: map<nat, Packet>, issued: nat)
  {
    sub.pktId != 0 ==>
      && 1 <= sub.serial <= issued
      && sub.pktId == IdAt(sub.serial)
      && sub.serial in packets
      && sub.id in packets[sub.serial].payload
      && sub.subscribed == packets[sub.serial].subscribe
  }

  predicate Subs(subs: seq<Subscription>, packets: map<nat, Packet>, known: nat, issued: nat)
  {
    && (forall i :: 0 <= i < |subs| ==> subs[i].id < known && Recorded(subs[i], packets, issued))
    && (forall i, j :: 0 <= i < j < |subs| ==> subs[i].id != subs[j].id)
    && (forall n :: n in packets ==> n <= issued)
  }

  predicate SubInv(s: State)
  {
    Subs(s.subs, s.packets, s.known, s.issued) && s.counter == IdAt(s.issued)
  }

  lemma SubSendIdle(s: State, active: bool, allocOk: bool, sendOk: bool)
    requires SubInv(s)
    ensures SubInv(SendIdle(s, active, allocOk, sendOk))
  {
    NextIdIsIdAt(s.issued);
  }

  lemma SubSubscribeTask(s: State, allocOk: bool, ok: bool)
    requires SubInv(s)
    ensures SubInv(RunSubscribeAll(s, allocOk, ok))
  {
    var s' := Done(s, SubscribeAll);
    assert SubInv(s');
    SubSendIdle(s', false, allocOk, ok);
  }

  lemma SubUnsubscribeTask(s: State, allocOk: bool, ok: bool)
    requires SubInv(s)
    ensures SubInv(RunUnsubscribeAll(s, allocOk, ok))
  {
    var s' := Done(s, UnsubscribeAll);
    assert SubInv(s');
    SubSendIdle(s', true, allocOk, ok);
  }

  lemma SubRelease(s: State, i: nat)
    requires SubInv(s) && i < |s.subs|
    ensures SubInv(DoRelease(s, i))
  {
    NextIdIsIdAt(s.issued);
    SubsRemove(s.subs, s.packets, s.known, s.issued, i);
    var r := s.subs[..i] + s.subs[i + 1..];
    SubsMorePackets(r, s.packets, s.known, s.issued, Packet(false, {s.subs[i].id}));
  }

  lemma SubsRemove(subs: seq<Subscription>, packets: map<nat, Packet>, known: nat, issued: nat, i: nat)
    requires Subs(subs, packets, known, issued) && i < |subs|
    ensures Subs(subs[..i] + subs[i + 1..], packets, known, issued)
  {
    var r := subs[..i] + subs[i + 1..];
    assert forall k :: 0 <= k < |r| ==> r[k] == subs[if k < i then k else k + 1];
  }

  lemma SubsMorePackets(subs: seq<Subscription>, packets: map<nat, Packet>, known: nat, issued: nat, p: Packet)
    requires Subs(subs, packets, known, issued)
    ensures Subs(subs, packets[issued + 1 := p], known, issued + 1)
  {
  }

  /** Subscriptions that are as before or no longer waiting. */
  lemma SubsSettled(subs: seq<Subscription>, r: seq<Subscription>, packets: map<nat, Packet>, known: nat, issued: nat)
    requires Subs(subs, packets, known, issued) && |r| == |subs|
    requires forall i :: 0 <= i < |subs| ==> r[i].id == subs[i].id && (r[i] == subs[i] || r[i].pktId == 0)
    ensures Subs(r, packets, known, issued)
  {
  }

  lemma SubOthers(s: State, t: State)
    requires SubInv(s) && SubsUntouched(s, t) && t.counter == IdAt(t.issued)
    ensures SubInv(t)
  {
  }

  lemma SubAcks(s: State, p: nat, failure: bool)
    requires SubInv(s)
    ensures SubInv(OnSubAck(s, p, failure)) && SubInv(OnUnsubAck(s, p))
  {
    SubsSettled(s.subs, OnSubAck(s, p, failure).subs, s.packets, s.known, s.issued);
    SubsSettled(s.subs, OnUnsubAck(s, p).subs, s.packets, s.known, s.issued);
  }

  lemma SubResets(s: State, mayReconnect: bool)
    requires SubInv(s)
    ensures SubInv(RunHardReset(s, mayReconnect)) && SubInv(RunFree(s))
  {
  }

  lemma SubSubscribe(s: State)
    requires SubInv(s)
    ensures SubInv(DoSubscribe(s))
  {
  }

  lemma SubKept(s: State, e: Event)
    requires Enabled(s, e) && SubInv(s) && QueueInv(s)
    ensures SubInv(Apply(s, e))
  {
    match e
    case SubscribeTask(allocOk, ok) => SubSubscribeTask(s, allocOk, ok);
    case UnsubscribeTask(allocOk, ok) => SubUnsubscribeTask(s, allocOk, ok);
    case Release(i) => SubRelease(s, i);
    case Subscribe => SubSubscribe(s);
    case SubAck(p, failure) => SubAcks(s, p, failure);
    case UnsubAck(p) => SubAcks(s, p, false);
    case HardResetTask(mayReconnect) => SubResets(s, mayReconnect);
    case FreeTask => SubResets(s, true);
    case _ =>
      QueueKept(s, e);
      SubOthers(s, Apply(s, e));
  }

  // ---- Reset connections -----------------------------------------------------------------------

  predicate Fresh(client: bool, sent: seq<nat>, subs: seq<Subscription>, queue: seq<Message>)
  {
    !client && sent == [] && subs == Cleared(subs) && queue == Unsent(queue)
  }

  predicate Idle(tasks: multiset<Task>)
  {
    forall task :: task in tasks ==> task in {PublishMessage, HardReset, Reconnect}
  }

  predicate ResetInv(s: State)
  {
    s.status == Reset && !s.freed ==> Fresh(s.client, s.sent, s.subs, s.queue) && Idle(s.tasks)
  }

  lemma ResetHard(s: State, mayReconnect: bool)
    ensures ResetInv(RunHardReset(s, mayReconnect))
  {
  }

  lemma ResetPublish(s: State, hasCb: bool, ok: bool)
    requires ResetInv(s)
    ensures ResetInv(DoPublish(s, hasCb, ok))
  {
    PublishEffect(s, hasCb, ok);
  }

  lemma ResetSubscribe(s: State)
    requires ResetInv(s)
    ensures ResetInv(DoSubscribe(s))
  {
  }

  lemma ResetRelease(s: State, i: nat)
    requires ResetInv(s) && i < |s.subs|
    ensures ResetInv(DoRelease(s, i))
  {
  }

  lemma ResetReconnect(s: State, ok: bool)
    requires ResetInv(s)
    ensures ResetInv(RunReconnect(s, ok))
  {
  }

  lemma ResetPublishTask(s: State, ok: bool)
    requires ResetInv(s)
    ensures ResetInv(RunPublish(s, ok))
  {
  }

  /** Only a hard reset leads to a reset connection. */
  lemma OnlyResetResets(s: State, e: Event)
    requires Enabled(s, e) && s.status != Reset && !e.HardResetTask?
    ensures Apply(s, e).status != Reset
  {
  }

  /** What can happen to a reset connection; other events need a client or a task that it does not have. */
  lemma ResetAllows(s: State, e: Event)
    requires Enabled(s, e) && s.status == Reset && !s.client && Idle(s.tasks)
    ensures e.Publish? || e.Subscribe? || e.Release? || e.Connect? || e.Close? || e.PublishTask?
         || e.HardResetTask? || e.ReconnectTask?
  {
  }

  lemma ResetKept(s: State, e: Event)
    requires Enabled(s, e) && ResetInv(s)
    ensures ResetInv(Apply(s, e))
  {
    if e.HardResetTask? {
      ResetHard(s, e.mayReconnect);
    } else if s.status != Reset {
      OnlyResetResets(s, e);
    } else {
      ResetAllows(s, e);
      ResetStep(s, e);
    }
  }

  lemma ResetStep(s: State, e: Event)
    requires Enabled(s, e) && ResetInv(s)
    requires e.Publish? || e.Subscribe? || e.Release? || e.Connect? || e.Close? || e.PublishTask? || e.ReconnectTask?
    ensures ResetInv(Apply(s, e))
  {
    match e
    case Publish(hasCb, ok) => ResetPublish(s, hasCb, ok);
    case PublishTask(ok) => ResetPublishTask(s, ok);
    case Subscribe => ResetSubscribe(s);
    case Release(i) => ResetRelease(s, i);
    case ReconnectTask(ok) => ResetReconnect(s, ok);
    case Connect =>
    case Close =>
  }

  // ---- Theorems over all runs ------------------------------------------------------------------

  predicate Inv(s: State)
  {
    QueueInv(s) && PumpInv(s) && CloseInv(s) && CallbackInv(s) && SubInv(s) && ResetInv(s)
  }

  lemma InvKept(s: State, e: Event)
    requires Enabled(s, e) && Inv(s)
    ensures Inv(Apply(s, e))
  {
    QueueKept(s, e);
    PumpKept(s, e);
    CloseKept(s, e);
    CallbackKept(s, e);
    SubKept(s, e);
    ResetKept(s, e);
  }

  lemma {:induction false} RunKeepsInv(s: State, es: seq<Event>, t: State)
    requires Run(s, es, t) && Inv(s)
    ensures Inv(t)
    decreases |es|
  {
    if es != [] {
      InvKept(s, es[0]);
      RunKeepsInv(Apply(s, es[0]), es[1..], t);
    }
  }

  lemma ReachedInv(t: State)
    requires Reached(t)
    ensures Inv(t)
  {
    var es :| Run(Init(), es, t);
    assert Inv(Init());
    RunKeepsInv(Init(), es, t);
  }

  /** The send pump never stalls, unless a message came before the CONNACK of this connection. */
  lemma PumpNeverStalls(t: State)
    requires Reached(t) && t.status == Connected
    requires exists m :: m in t.queue && !m.published
    ensures PublishMessage in t.tasks || HardReset in t.tasks || SoftReset in t.tasks
         || (exists m :: m in t.queue && m.published) || t.course.early
  {
    ReachedInv(t);
    var m :| m in t.queue && !m.published;
    assert FirstUnpublished(t.queue) < |t.queue|;
    if t.queue[0].published {
      assert t.queue[0] in t.queue;
    }
  }

  /** Published messages are a prefix of the queue, and messages went out in the order of the queue. */
  lemma MessagesGoOutInOrder(t: State, i: nat, j: nat)
    requires Reached(t)
    ensures i < j < |t.queue| && t.queue[j].published ==> t.queue[i].published
    ensures i < j < |t.queue| ==> t.queue[i].serial < t.queue[j].serial
    ensures i < j < |t.sent| ==> t.sent[i] < t.sent[j]
  {
    ReachedInv(t);
  }

  /** A queued message counts as published exactly when it was sent since the last reset. */
  lemma PublishedMeansSent(t: State, m: Message)
    requires Reached(t) && m in t.queue
    ensures m.published <==> m.serial in t.sent
  {
    ReachedInv(t);
    if m.serial in t.sent {
      var k :| 0 <= k < |t.sent| && t.sent[k] == m.serial;
      var i :| 0 <= i < |t.queue| && t.queue[i] == m;
    }
  }

  /** A publish task sends a message exactly when the connection is up, a message waits and the send succeeds.
      It is then the oldest one waiting, it alone is sent, and only its flag changes. */
  lemma PublishSendsTheOldest(t: State, ok: bool)
    requires Reached(t) && Enabled(t, PublishTask(ok))
    ensures var u := Apply(t, PublishTask(ok));
      && |u.queue| == |t.queue|
      && if t.status == Connected && ok && exists m :: m in t.queue && !m.published then
           exists i :: 0 <= i < |t.queue| && !t.queue[i].published && (forall j :: 0 <= j < i ==> t.queue[j].published)
             && u.sent == t.sent + [t.queue[i].serial] && u.queue[i] == t.queue[i].(published := true)
             && forall j :: 0 <= j < |t.queue| && j != i ==> u.queue[j] == t.queue[j]
         else u.sent == t.sent && u.queue == t.queue
  {
    var i := FirstUnpublished(t.queue);
    if i < |t.queue| {
      assert t.queue[i] in t.queue;
    } else {
      assert forall m :: m in t.queue ==> m.published;
    }
  }

  /** Callbacks run with the result of what completes them: success for an acknowledged message, aborted for
      one queued at a close, out of memory for one refused. Nothing else runs any. */
  lemma CallbacksTellTheResult(s: State, e: Event, c: Call)
    requires Reached(s) && Enabled(s, e)
    ensures var t := Apply(s, e);
      && s.calls <= t.calls
      && (c in t.calls[|s.calls|..] ==>
           || (e.PubAck? && c.code == Ok && exists m :: m in s.queue && m.pktId == e.p && m.cb == Some(c.cb))
           || (e.Close? && c.code == Aborted && exists m :: m in s.queue && m.cb == Some(c.cb))
           || (e.Publish? && !e.ok && c.code == OutOfMemory && c.cb == s.registered))
  {
    if !Sends(e) {
      OthersLeaveQueue(s, e);
    } else if e.Publish? {
      PublishEffect(s, e.hasCb, e.ok);
    } else if e.PubAck? {
      AckTells(s, e.p, c);
    } else if e.Close? {
      CloseTells(s, c);
    }
  }

  lemma AckTells(s: State, p: nat, c: Call)
    ensures var t := OnPubAck(s, p);
      && s.calls <= t.calls
      && (c in t.calls[|s.calls|..] ==> c.code == Ok && exists m :: m in s.queue && m.pktId == p && m.cb == Some(c.cb))
  {
    var i := FindId(s.queue, p);
    if i < |s.queue| {
      PubAckEffect(s, p);
      assert s.queue[i] in s.queue;
    }
  }

  lemma CloseTells(s: State, c: Call)
    ensures var t := DoClose(s);
      && s.calls <= t.calls
      && (c in t.calls[|s.calls|..] ==> c.code == Aborted && exists m :: m in s.queue && m.cb == Some(c.cb))
  {
    var more := Calls(Callbacks(s.queue), Aborted);
    assert DoClose(s).calls == s.calls + more;
    if c in more {
      var k :| 0 <= k < |more| && more[k] == c;
      assert Callbacks(s.queue)[k] == c.cb;
      HasCallback(s.queue, c.cb);
    }
  }

  lemma {:induction false} HasCallback(queue: seq<Message>, cb: nat)
    requires cb in Callbacks(queue)
    ensures exists m :: m in queue && m.cb == Some(cb)
  {
    if cb in Opt(queue[0].cb) {
      assert queue[0] in queue;
    } else {
      HasCallback(queue[1..], cb);
    }
  }

  /** A connection that is reset, whatever happened since, has no client, has published nothing of its queue,
      has no subscription active or waiting, and nothing is scheduled but a publish, a reset or a reconnect. */
  lemma ResetStartsOver(t: State)
    requires Reached(t) && t.status == Reset && !t.freed
    ensures !t.client && t.sent == [] && t.subs == Cleared(t.subs) && t.queue == Unsent(t.queue)
    ensures forall task :: task in t.tasks ==> task in {PublishMessage, HardReset, Reconnect}
  {
    ReachedInv(t);
  }

  /** Resets, reconnects and whatever else lose no message: without acknowledgements and a close, the queue keeps
      its messages in order and only grows at its end. */
  lemma {:induction false} MessagesAreKept(s: State, es: seq<Event>, t: State)
    requires Run(s, es, t) && forall e :: e in es ==> !e.PubAck? && !e.Close?
    ensures Unsent(s.queue) <= Unsent(t.queue)
    decreases |es|
  {
    if es != [] {
      assert es[0] in es;
      StepKeepsMessages(s, es[0]);
      MessagesAreKept(Apply(s, es[0]), es[1..], t);
    }
  }

  lemma StepKeepsMessages(s: State, e: Event)
    requires Enabled(s, e) && !e.PubAck? && !e.Close?
    ensures Unsent(s.queue) <= Unsent(Apply(s, e).queue)
  {
    if !Sends(e) {
      OthersLeaveQueue(s, e);
    } else if e.Publish? {
      PublishEffect(s, e.hasCb, e.ok);
    }
  }

  /** The same subscriptions in the same order, and perhaps more. */
  predicate Keeps(a: seq<Subscription>, b: seq<Subscription>)
  {
    |a| <= |b| && forall i :: 0 <= i < |a| ==> b[i].id == a[i].id
  }

  /** In the same way subscriptions are lost only by being released, so each is subscribed again. */
  lemma {:induction false} SubscriptionsAreKept(s: State, es: seq<Event>, t: State)
    requires Run(s, es, t) && forall e :: e in es ==> !e.Release?
    ensures Keeps(s.subs, t.subs)
    decreases |es|
  {
    if es != [] {
      assert es[0] in es;
      StepKeepsSubscriptions(s, es[0]);
      SubscriptionsAreKept(Apply(s, es[0]), es[1..], t);
    }
  }

  lemma StepKeepsSubscriptions(s: State, e: Event)
    requires Enabled(s, e) && !e.Release?
    ensures Keeps(s.subs, Apply(s, e).subs)
  {
    match e
    case SubscribeTask(allocOk, ok) => SubscribeTaskKeeps(s, allocOk, ok);
    case UnsubscribeTask(allocOk, ok) => UnsubscribeTaskKeeps(s, allocOk, ok);
    case SubAck(p, failure) => AcksKeep(s, p, failure);
    case UnsubAck(p) => AcksKeep(s, p, false);
    case HardResetTask(mayReconnect) => ResetKeeps(s, mayReconnect);
    case FreeTask => ResetKeeps(s, true);
    case Subscribe => SubscribeKeeps(s);
    case _ => OthersLeaveSubscriptions(s, e);
  }

  lemma SendKeeps(s: State, active: bool, allocOk: bool, sendOk: bool)
    ensures Keeps(s.subs, SendIdle(s, active, allocOk, sendOk).subs)
  {
  }

  lemma SubscribeTaskKeeps(s: State, allocOk: bool, ok: bool)
    ensures Keeps(s.subs, RunSubscribeAll(s, allocOk, ok).subs)
  {
    SendKeeps(Done(s, SubscribeAll), false, allocOk, ok);
  }

  lemma UnsubscribeTaskKeeps(s: State, allocOk: bool, ok: bool)
    ensures Keeps(s.subs, RunUnsubscribeAll(s, allocOk, ok).subs)
  {
    SendKeeps(Done(s, UnsubscribeAll), true, allocOk, ok);
  }

  lemma AcksKeep(s: State, p: nat, failure: bool)
    ensures Keeps(s.subs, OnSubAck(s, p, failure).subs)
    ensures Keeps(s.subs, OnUnsubAck(s, p).subs)
  {
  }

  lemma ResetKeeps(s: State, mayReconnect: bool)
    ensures Keeps(s.subs, RunHardReset(s, mayReconnect).subs)
    ensures Keeps(s.subs, RunFree(s).subs)
  {
  }

  lemma SubscribeKeeps(s: State)
    ensures Keeps(s.subs, DoSubscribe(s).subs)
  {
  }

  lemma OthersLeaveSubscriptions(s: State, e: Event)
    requires Enabled(s, e) && !e.Release? && !e.Subscribe? && !e.SubscribeTask? && !e.UnsubscribeTask?
    requires !e.SubAck? && !e.UnsubAck? && !e.HardResetTask? && !e.FreeTask?
    ensures SubsUntouched(s, Apply(s, e))
  {
  }

  /** Every completion callback runs at most once, and exactly once by the time the connection is
      closed; a connection is freed with an empty queue. */
  lemma CallbacksRunOnce(t: State, cb: nat)
    requires Reached(t)
    ensures Ran(t.calls)[cb] <= 1
    ensures cb >= t.registered ==> Ran(t.calls)[cb] == 0
    ensures t.closed ==> Ran(t.calls)[cb] == if cb < t.registered then 1 else 0
    ensures FreeConnection in t.tasks ==> t.queue == []
  {
    ReachedInv(t);
    assert (Ran(t.calls) + Cbs(t.queue))[cb] == Numbers(t.registered)[cb];
  }

  /** Packet ids are never zero. An acknowledgement of a queued message's id removes that message, and
      not an earlier one, exactly when no earlier message is a multiple of 65535 ids older. */
  lemma AckRemovesNamedMessage(t: State, i: nat)
    requires Reached(t) && i < |t.queue|
    ensures 1 <= t.queue[i].pktId <= IDS
    ensures FindId(t.queue, t.queue[i].pktId) == i <==>
            forall j :: 0 <= j < i ==> (t.queue[i].serial - t.queue[j].serial) % IDS != 0
    ensures FindId(t.queue, t.queue[i].pktId) == i ==>
            OnPubAck(t, t.queue[i].pktId).queue == t.queue[..i] + t.queue[i + 1..]
  {
    ReachedInv(t);
    assert IdAt(t.queue[i].serial) == t.queue[i].pktId;
    FindsFirst(t.queue, i);
    SameIds(t, i);
    if FindId(t.queue, t.queue[i].pktId) == i { PubAckEffect(t, t.queue[i].pktId); }
  }

  lemma SameIds(t: State, i: nat)
    requires QueueInv(t) && i < |t.queue|
    ensures forall j :: 0 <= j < i ==>
      (t.queue[j].pktId == t.queue[i].pktId <==> (t.queue[i].serial - t.queue[j].serial) % IDS == 0)
  {
    forall j | 0 <= j < i
      ensures t.queue[j].pktId == t.queue[i].pktId <==> (t.queue[i].serial - t.queue[j].serial) % IDS == 0
    {
      IdsRepeat(t.queue[j].serial, t.queue[i].serial);
    }
  }

  lemma FindsFirst(queue: seq<Message>, i: nat)
    requires i < |queue|
    ensures FindId(queue, queue[i].pktId) == i <==> forall j :: 0 <= j < i ==> queue[j].pktId != queue[i].pktId
  {
  }

  /** While fewer than 65535 ids were issued since the oldest queued message, every acknowledgement
      removes exactly the message it names. */
  lemma AcksAreUnambiguous(t: State, i: nat)
    requires Reached(t) && i < |t.queue| && t.issued - t.queue[0].serial < IDS
    ensures OnPubAck(t, t.queue[i].pktId).queue == t.queue[..i] + t.queue[i + 1..]
  {
    ReachedInv(t);
    AckRemovesNamedMessage(t, i);
    forall j | 0 <= j < i
      ensures (t.queue[i].serial - t.queue[j].serial) % IDS != 0
    {
      SmallGap(t, j, i);
    }
  }

  lemma SmallGap(t: State, j: nat, i: nat)
    requires QueueInv(t) && j < i < |t.queue| && t.issued - t.queue[0].serial < IDS
    ensures (t.queue[i].serial - t.queue[j].serial) % IDS != 0
  {
    assert t.queue[0].serial <= t.queue[j].serial;
    IdsRepeat(t.queue[j].serial, t.queue[i].serial);
  }

  /** All waiting subscriptions wait for one of the last 65535 packets. */
  predicate InWindow(t: State)
  {
    forall sub :: sub in t.subs && sub.pktId != 0 ==> t.issued - sub.serial < IDS
  }

  /** The subscription waits for the n-th packet. */
  predicate WaitsFor(sub: Subscription, n: nat)
  {
    sub.pktId != 0 && sub.serial == n
  }

  /** Within the id window, what waits on the id of packet n are the subscriptions that wait for packet
      n; all of them are in its payload. */
  lemma WaitingIsForOnePacket(t: State, n: nat, i: nat)
    requires Reached(t) && InWindow(t) && n in t.packets && t.issued - n < IDS && n > 0 && i < |t.subs|
    ensures t.subs[i].pktId == IdAt(n) <==> WaitsFor(t.subs[i], n)
    ensures WaitsFor(t.subs[i], n) ==>
            t.subs[i].id in t.packets[n].payload && t.subs[i].subscribed == t.packets[n].subscribe
  {
    ReachedInv(t);
    var sub := t.subs[i];
    assert sub in t.subs && Recorded(sub, t.packets, t.issued);
    NextIdIsIdAt(n - 1);
    if sub.pktId != 0 && sub.serial < n {
      IdsRepeat(sub.serial, n);
    } else if sub.pktId != 0 && n < sub.serial {
      IdsRepeat(n, sub.serial);
    }
  }

  /** A successful acknowledgement of packet n settles exactly the subscriptions waiting for it, in the
      direction of the packet, and leaves the others as they are. */
  lemma AckSettlesItsPacket(t: State, n: nat, i: nat)
    requires Reached(t) && InWindow(t) && n in t.packets && t.issued - n < IDS && n > 0 && i < |t.subs|
    ensures var after := (if t.packets[n].subscribe then OnSubAck(t, IdAt(n), false) else OnUnsubAck(t, IdAt(n))).subs;
      && |after| == |t.subs|
      && (if WaitsFor(t.subs[i], n)
          then if t.packets[n].subscribe then after[i].Subscribed() else after[i].Unsubscribed()
          else after[i] == t.subs[i])
  {
    WaitingIsForOnePacket(t, n, i);
  }

  // ---- Where the guarantees end ----------------------------------------------------------------

  /** The events that schedule a publish task. */
  predicate Schedules(e: Event)
  {
    (e.ConnAck? && e.accepted) || (e.Publish? && e.ok) || e.PubAck?
  }

  predicate NoneSchedules(es: seq<Event>)
  {
    forall i :: 0 <= i < |es| ==> !Schedules(es[i])
  }

  /** A publish task is pending that sends a message. */
  predicate Publishes(s: State)
  {
    && Enabled(s, PublishTask(true))
    && |RunPublish(s, true).sent| > |s.sent|
  }

  /** Some run from here sends a message before anything schedules a publish task. */
  ghost predicate CanPublish(s: State)
  {
    exists es, t :: Run(s, es, t) && NoneSchedules(es) && Publishes(t)
  }

  /** The broker's first packet is a message and not the CONNACK. The connection then counts as
      connected, and a message goes out before a CONNACK, another publish or a PUBACK exactly when a
      publish task was already pending and a message waiting. */
  lemma MessageBeforeConnAck(t: State)
    requires Reached(t) && t.status == Connecting && Enabled(t, Incoming)
    ensures CanPublish(OnIncoming(t)) <==> PublishMessage in t.tasks && FirstUnpublished(t.queue) < |t.queue|
  {
    EarlyPublish(t);
    StalledOrPublishes(OnIncoming(t));
  }

  lemma StalledOrPublishes(s: State)
    ensures Publishes(s) ==> CanPublish(s)
    ensures Stalled(s) ==> !CanPublish(s)
  {
    if Publishes(s) {
      assert Run(s, [], s) && NoneSchedules([]);
    }
    if Stalled(s) && CanPublish(s) {
      var es, t :| Run(s, es, t) && NoneSchedules(es) && Publishes(t);
      StalledRun(s, es, t);
    }
  }

  lemma EarlyPublish(t: State)
    requires t.status == Connecting && Enabled(t, Incoming)
    ensures var s := OnIncoming(t);
      && (Publishes(s) <==> PublishMessage in t.tasks && FirstUnpublished(t.queue) < |t.queue|)
      && (Stalled(s) <==> !Publishes(s))
  {
  }

  /** No publish task is pending, or it has nothing to send. */
  predicate Stalled(s: State)
  {
    PublishMessage in s.tasks ==> FirstUnpublished(s.queue) == |s.queue|
  }

  lemma StalledKept(s: State, e: Event)
    requires Enabled(s, e) && Stalled(s) && !Schedules(e)
    ensures Stalled(Apply(s, e))
  {
    if Adds(e) {
      AddsOnlyAdds(s, e);
    } else if e.Publish? {
      PublishEffect(s, e.hasCb, e.ok);
    }
  }

  lemma {:induction false} StalledRun(s: State, es: seq<Event>, t: State)
    requires Run(s, es, t) && NoneSchedules(es) && Stalled(s)
    ensures !Publishes(t)
    decreases |es|
  {
    if es != [] {
      assert !Schedules(es[0]);
      StalledKept(s, es[0]);
      StalledRun(Apply(s, es[0]), es[1..], t);
    }
  }

  /** Such a stall can happen: the publish task ran while connecting, then a message arrives. */
  lemma MessageBeforeConnAckCanStall()
    ensures exists t :: Reached(t) && t.status == Connected && t.course.early && t.tasks == multiset{Monitor}
                        && FirstUnpublished(t.queue) < |t.queue| && t.sent == []
  {
    var s := ConnectingWithMessage();
    assert FirstUnpublished(s.queue) == 0;
    var r := ReachedStep(s, PublishTask(true));
    assert r == s.(tasks := multiset{Monitor});
    var t := ReachedStep(r, Incoming);
  }

  lemma ConnectingWithMessage() returns (s: State)
    ensures Reached(s) && s.status == Connecting && s.client && !s.freed && s.sent == []
    ensures s.tasks == multiset{PublishMessage, Monitor} && |s.queue| == 1 && !s.queue[0].published
  {
    ReachedInit();
    var q := ReachedStep(Init(), Connect);
    var r := ReachedStep(q, Publish(false, true));
    s := ReachedStep(r, ReconnectTask(true));
  }

  lemma ReachedInit()
    ensures Reached(Init())
  {
    assert Run(Init(), [], Init());
  }

  lemma ReachedStep(s: State, e: Event) returns (t: State)
    requires Reached(s) && Enabled(s, e)
    ensures t == Apply(s, e) && Reached(t)
  {
    t := Apply(s, e);
    var es :| Run(Init(), es, s);
    RunSnoc(Init(), es, s, e);
  }

  lemma {:induction false} RunSnoc(r: State, es: seq<Event>, s: State, e: Event)
    requires Run(r, es, s) && Enabled(s, e)
    ensures Run(r, es + [e], Apply(s, e))
    decreases |es|
  {
    var more := es + [e];
    if es == [] {
      assert more[0] == e && more[1..] == [];
    } else {
      assert more[0] == es[0] && more[1..] == es[1..] + [e];
      RunSnoc(Apply(r, es[0]), es[1..], s, e);
    }
  }

  /** Whatever happens after the application closed, the queue stays empty and no callback runs. */
  lemma {:induction false} ClosedStaysSilent(t: State, es: seq<Event>, u: State)
    requires Reached(t) && t.closed && Run(t, es, u)
    ensures u.closed && u.queue == [] && u.calls == t.calls && u.registered == t.registered
    decreases |es|
  {
    ReachedInv(t);
    if es != [] {
      var s := ReachedStep(t, es[0]);
      ReachedInv(s);
      ClosedStep(t, es[0]);
      ClosedStaysSilent(s, es[1..], u);
    }
  }

  lemma ClosedStep(t: State, e: Event)
    requires t.closed && t.queue == [] && Enabled(t, e)
    ensures Apply(t, e).closed && Apply(t, e).calls == t.calls && Apply(t, e).registered == t.registered
  {
    if !Sends(e) { OthersLeaveQueue(t, e); }
  }
}
