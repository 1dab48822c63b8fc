/** The MQTT connection object: its handlers and tasks update it in place, walking its lists. */
module MqttConnection {
  import opened Prelude
  import opened Completion
  import opened Mqtt

  class Connection {
    var status: Status
    var counter: nat
    var queue: seq<Message>
    var subs: seq<Subscription>
    var tasks: multiset<Task>
    var client: bool
    // What went out
    var calls: seq<Call>
    var sent: seq<nat>
    var packets: map<nat, Packet>
    // Counters that number packet ids, callbacks and subscriptions
    var issued: nat
    var registered: nat
    var known: nat
    ghost var closed: bool
    ghost var freed: bool
    ghost var course: Course

    ghost function State(): State
      reads this
    {
      Mqtt.State(status, counter, queue, subs, tasks, client, closed, freed, calls, sent, packets, course,
                 issued, registered, known)
    }

    constructor ()
      ensures State() == Init()
    {
      status, counter, queue, subs, tasks, client := Reset, 0, [], [], multiset{}, false;
      calls, sent, packets, issued, registered, known := [], [], map[], 0, 0, 0;
      closed, freed, course := false, false, Course(false, false);
    }

    method NextPktId() returns (id: nat)
      modifies this`counter, this`issued
      ensures id == counter
      ensures counter == NextId(old(counter)) && issued == old(issued) + 1
      ensures State() == Issue(old(State()))
    {
      issued := issued + 1;
      counter := (counter + 1) % 0x10000;
      if counter == 0 {
        counter := (counter + 1) % 0x10000;
      }
      id := counter;
    }

    method DoNext(t: Task)
      modifies this`tasks
      ensures tasks == old(tasks) + multiset{t}
      ensures State() == Add(old(State()), t)
    {
      tasks := tasks + multiset{t};
    }

    /** Queues a message for publishing; `allocOk` is whether memory could be had for its record and
        `ok` whether for the rest. Without the record no id is issued and no callback runs. */
    method Publish(hasCb: bool, allocOk: bool, ok: bool) returns (r: Code)
      modifies this`counter, this`issued, this`registered, this`calls, this`tasks, this`queue
      ensures State() == if allocOk then DoPublish(old(State()), hasCb, ok) else old(State())
      ensures r == if allocOk && ok then Ok else OutOfMemory
    {
      if !allocOk { return OutOfMemory; }
      r := Enqueue(hasCb, ok);
    }

    method Enqueue(hasCb: bool, ok: bool) returns (r: Code)
      modifies this`counter, this`issued, this`registered, this`calls, this`tasks, this`queue
      ensures State() == DoPublish(old(State()), hasCb, ok)
      ensures r == if ok then Ok else OutOfMemory
    {
      var id := NextPktId();
      var cb := Register(hasCb);
      if !ok {
        calls := calls + Calls(Opt(cb), OutOfMemory);
        return OutOfMemory;
      }
      DoNext(PublishMessage);
      queue := queue + [Message(issued, id, false, cb)];
      r := Ok;
    }

    method Register(hasCb: bool) returns (cb: Option<nat>)
      modifies this`registered
      ensures cb == if hasCb then Some(old(registered)) else None
      ensures registered == if hasCb then old(registered) + 1 else old(registered)
      ensures State() == old(State()).(registered := registered)
    {
      cb := None;
      if hasCb {
        cb := Some(registered);
        registered := registered + 1;
      }
    }

    method FindUnpublished() returns (i: nat)
      ensures i == FirstUnpublished(queue)
    {
      i := 0;
      while i < |queue| && queue[i].published
        invariant i <= FirstUnpublished(queue)
      {
        i := i + 1;
      }
    }

    /** Publishes the first message of the queue not published yet. */
    method PublishMessageTask(sendOk: bool)
      modifies this`tasks, this`queue, this`sent
      ensures State() == RunPublish(old(State()), sendOk)
    {
      tasks := tasks - multiset{PublishMessage};
      if status != Connected { return; }
      var i := FindUnpublished();
      if i == |queue| { return; }
      PublishAt(i, sendOk);
    }

    /** A message that could not be sent is unpublished again, and the connection reset. */
    method PublishAt(i: nat, sendOk: bool)
      requires i < |queue| && !queue[i].published
      modifies this`tasks, this`queue, this`sent
      ensures sendOk ==> queue == old(queue)[i := old(queue)[i].(published := true)]
      ensures sendOk ==> sent == old(sent) + [old(queue)[i].serial] && tasks == old(tasks)
      ensures !sendOk ==> queue == old(queue) && sent == old(sent) && tasks == old(tasks) + multiset{SoftReset}
    {
      queue := queue[i := queue[i].(published := true)];
      if sendOk {
        sent := sent + [queue[i].serial];
      } else {
        queue := queue[i := queue[i].(published := false)];
        assert queue == old(queue);
        DoNext(SoftReset);
      }
    }

    method Find(p: nat) returns (i: nat)
      ensures i == FindId(queue, p)
    {
      i := 0;
      while i < |queue| && queue[i].pktId != p
        invariant i <= FindId(queue, p)
      {
        i := i + 1;
      }
    }

    method HandlePublishAck(p: nat)
      modifies this`tasks, this`queue, this`calls
      ensures State() == OnPubAck(old(State()), p)
    {
      var i := Find(p);
      if i == |queue| {
        DoNext(HardReset);
        return;
      }
      var message := queue[i];
      queue := queue[..i] + queue[i + 1..];
      calls := calls + Calls(Opt(message.cb), Ok);
      if status == Connected {
        DoNext(PublishMessage);
      }
    }

    /** The subscriptions that neither wait for an answer nor differ from `active`. */
    method Collect(active: bool) returns (payload: set<nat>)
      ensures payload == IdleIds(subs, active)
    {
      payload := {};
      for i := 0 to |subs|
        invariant payload == IdleIds(subs[..i], active)
      {
        if subs[i].pktId == 0 && subs[i].subscribed == active {
          payload := payload + {subs[i].id};
        }
        assert subs[..i + 1] == subs[..i] + [subs[i]];
      }
      assert subs[..|subs|] == subs;
    }

    /** Flips those subscriptions and marks them as waiting for the answer to packet `id`. */
    method MarkWaiting(active: bool, id: nat)
      modifies this`subs
      ensures subs == Flipped(old(subs), active, id, issued)
    {
      for i := 0 to |subs|
        invariant |subs| == |old(subs)|
        invariant forall k :: 0 <= k < i ==> subs[k] == Flip(old(subs)[k], active, id, issued)
        invariant forall k :: i <= k < |subs| ==> subs[k] == old(subs)[k]
      {
        if subs[i].pktId == 0 && subs[i].subscribed == active {
          subs := subs[i := subs[i].(subscribed := !active, pktId := id, serial := issued)];
        }
      }
    }

    /** Sends the packet for the idle subscriptions in `payload`. */
    method SendPacket(active: bool, payload: set<nat>, allocOk: bool, sendOk: bool)
      requires payload == IdleIds(subs, active)
      modifies this`counter, this`issued, this`packets, this`subs, this`tasks, this`course
      ensures State() == SendIdle(old(State()), active, allocOk, sendOk)
    {
      if !allocOk {
        DoNext(HardReset);
        return;
      }
      var id := NextPktId();
      if !sendOk {
        DoNext(HardReset);
      } else {
        SendNow(active, payload, id);
      }
    }

    method SendNow(active: bool, payload: set<nat>, id: nat)
      modifies this`packets, this`subs, this`course
      ensures packets == old(packets)[issued := Packet(!active, payload)]
      ensures subs == Flipped(old(subs), active, id, issued)
      ensures course == old(course).(parting := old(course).parting || active)
    {
      course := course.(parting := course.parting || active);
      packets := packets[issued := Packet(!active, payload)];
      MarkWaiting(active, id);
    }

    /** Sends one SUBSCRIBE for everything not subscribed. */
    method SubscribeAllTask(allocOk: bool, sendOk: bool)
      modifies this
      ensures State() == RunSubscribeAll(old(State()), allocOk, sendOk)
    {
      tasks := tasks - multiset{SubscribeAll};
      var payload := Collect(false);
      if payload == {} { return; }
      SendPacket(false, payload, allocOk, sendOk);
    }

    /** Sends one UNSUBSCRIBE for everything subscribed; with nothing left a disconnect goes on. */
    method UnsubscribeAllTask(allocOk: bool, sendOk: bool)
      modifies this
      ensures State() == RunUnsubscribeAll(old(State()), allocOk, sendOk)
    {
      tasks := tasks - multiset{UnsubscribeAll};
      var payload := Collect(true);
      if payload == {} {
        if status == Disconnecting || status == Closing {
          DoNext(BeginDisconnect);
        }
        return;
      }
      SendPacket(true, payload, allocOk, sendOk);
    }

    method HandleSubscribeAck(p: nat, failure: bool)
      modifies this
      ensures State() == OnSubAck(old(State()), p, failure)
    {
      if failure {
        DoNext(HardReset);
        return;
      }
      SettleSubscribed(p);
      DoNext(SubscribeAll);
    }

    method SettleSubscribed(p: nat)
      modifies this`subs
      ensures subs == Map(old(subs), (sub: Subscription) =>
        if sub.pktId == p then sub.(subscribed := true, pktId := 0) else sub)
    {
      for i := 0 to |subs|
        invariant |subs| == |old(subs)|
        invariant forall k :: i <= k < |subs| ==> subs[k] == old(subs)[k]
        invariant forall k :: 0 <= k < i ==>
          subs[k] == if old(subs)[k].pktId == p then old(subs)[k].(subscribed := true, pktId := 0) else old(subs)[k]
      {
        if subs[i].pktId == p {
          subs := subs[i := subs[i].(subscribed := true, pktId := 0)];
        }
      }
    }

    method SettleUnsubscribed(p: nat)
      modifies this`subs
      ensures subs == Map(old(subs), (sub: Subscription) => if sub.pktId == p then sub.(pktId := 0) else sub)
    {
      for i := 0 to |subs|
        invariant |subs| == |old(subs)|
        invariant forall k :: i <= k < |subs| ==> subs[k] == old(subs)[k]
        invariant forall k :: 0 <= k < i ==>
          subs[k] == if old(subs)[k].pktId == p then old(subs)[k].(pktId := 0) else old(subs)[k]
      {
        if subs[i].pktId == p {
          subs := subs[i := subs[i].(pktId := 0)];
        }
      }
    }

    method HandleUnsubscribeAck(p: nat)
      modifies this
      ensures State() == OnUnsubAck(old(State()), p)
    {
      SettleUnsubscribed(p);
      if status == Disconnecting {
        DoNext(UnsubscribeAll);
      }
    }

    method HandleConnectAck(accepted: bool)
      modifies this
      ensures State() == OnConnAck(old(State()), accepted)
    {
      if !accepted {
        DoNext(HardReset);
        return;
      }
      status, course := Connected, course.(early := false);
      ghost var s := State();
      DoNext(SubscribeAll);
      assert State() == Add(s, SubscribeAll);
      DoNext(PublishMessage);
      assert State() == Add(Add(s, SubscribeAll), PublishMessage);
      DoNext(Monitor);
    }

    /** A message from the broker counts as the answer to a connect still under way. */
    method HandleMessage()
      modifies this`status, this`course
      ensures State() == OnIncoming(old(State()))
    {
      if status == Connecting {
        status, course := Connected, course.(early := true);
      }
    }

    /** Hard disconnect: resets the send queue, the subscriptions and all tasks. */
    method Disconnect()
      modifies this
      ensures State() == CompleteDisconnect(old(State()))
    {
      client, tasks := false, multiset{};
      Forget();
    }

    method Forget()
      modifies this`queue, this`subs, this`sent, this`course
      ensures queue == Unsent(old(queue)) && subs == Cleared(old(subs)) && sent == [] && course == Course(false, false)
    {
      ResetQueue();
      ResetSubscriptions();
      sent, course := [], Course(false, false);
    }

    method ResetQueue()
      modifies this`queue
      ensures queue == Unsent(old(queue))
    {
      for i := 0 to |queue|
        invariant |queue| == |old(queue)|
        invariant forall k :: 0 <= k < |queue| ==>
          queue[k] == if k < i then old(queue)[k].(published := false) else old(queue)[k]
      {
        queue := queue[i := queue[i].(published := false)];
      }
    }

    method ResetSubscriptions()
      modifies this`subs
      ensures subs == Cleared(old(subs))
    {
      for i := 0 to |subs|
        invariant |subs| == |old(subs)|
        invariant forall k :: 0 <= k < |subs| ==>
          subs[k] == if k < i then old(subs)[k].(pktId := 0, subscribed := false) else old(subs)[k]
      {
        subs := subs[i := subs[i].(pktId := 0, subscribed := false)];
      }
    }

    /** Disconnects and schedules a reconnect, unless the application declines. */
    method HardResetTask(mayReconnect: bool)
      modifies this
      ensures State() == RunHardReset(old(State()), mayReconnect)
    {
      tasks := tasks - multiset{HardReset};
      assert State() == Done(old(State()), HardReset);
      if status == Closing {
        DoNext(FreeConnection);
        return;
      }
      ResetNow();
      if mayReconnect {
        tasks := tasks[Reconnect := 1];
      }
    }

    method ResetNow()
      modifies this
      ensures State() == CompleteDisconnect(old(State()).(status := Reset))
    {
      status := Reset;
      Disconnect();
    }

    /** Runs the callback of every queued message, oldest first, then starts the disconnect. */
    method Close()
      modifies this`status, this`closed, this`queue, this`calls, this`tasks
      ensures State() == DoClose(old(State()))
    {
      var was := status;
      AbortMessages();
      if was != Reset {
        DoNext(BeginDisconnect);
        tasks := tasks[FreeConnection := 1];
      } else {
        DoNext(FreeConnection);
      }
    }

    method AbortMessages()
      modifies this`status, this`closed, this`queue, this`calls
      ensures State() == AbortAll(old(State()))
    {
      status, closed := Closing, true;
      AbortQueue();
    }

    method AbortQueue()
      modifies this`queue, this`calls
      ensures queue == [] && calls == old(calls) + Calls(Callbacks(old(queue)), Aborted)
    {
      while queue != []
        invariant calls + Calls(Callbacks(queue), Aborted) == old(calls) + Calls(Callbacks(old(queue)), Aborted)
        decreases |queue|
      {
        var message := queue[0];
        AbortFirst(queue, calls);
        queue := queue[1..];
        calls := calls + Calls(Opt(message.cb), Aborted);
      }
    }
  }

  lemma AbortFirst(queue: seq<Message>, calls: seq<Call>)
    requires queue != []
    ensures calls + Calls(Callbacks(queue), Aborted)
         == (calls + Calls(Opt(queue[0].cb), Aborted)) + Calls(Callbacks(queue[1..]), Aborted)
  {
    var a, b := Opt(queue[0].cb), Callbacks(queue[1..]);
    CallsConcat(a, b, Aborted);
    Assoc(calls, Calls(a, Aborted), Calls(b, Aborted));
  }
}
