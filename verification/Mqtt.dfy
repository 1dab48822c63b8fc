/** An MQTT connection as a protocol: its send queue, packet ids, subscriptions and the scheduler tasks
    it has pending. Tasks may run in any order, packets may arrive at any moment. */
module Mqtt {
  import opened Prelude
  import opened Completion

  datatype Status = Reset | Connecting | Connected | Disconnecting | Closing

  datatype Task = SubscribeAll | UnsubscribeAll | PublishMessage | Monitor | HardReset | SoftReset
                | BeginDisconnect | Reconnect | FreeConnection

  /** `serial` counts the packet ids issued up to and including the message's own. */
  datatype Message = Message(serial: nat, pktId: nat, published: bool, cb: Option<nat>)

  datatype Subscription = Subscription(id: nat, subscribed: bool, pktId: nat, serial: nat)
  {
    /** Neither active nor waiting for an acknowledgement. */
    predicate Unsubscribed() { pktId == 0 && !subscribed }

    predicate Subscribed() { pktId == 0 && subscribed }
  }

  /** A SUBSCRIBE or UNSUBSCRIBE packet and the subscriptions in its payload. */
  datatype Packet = Packet(subscribe: bool, payload: set<nat>)

  /** What was out of the ordinary: a message came before the CONNACK, and none since; all subscriptions were
      given up since the last reset. */
  datatype Course = Course(early: bool, parting: bool)

  datatype State = State(
    status: Status,
    counter: nat,
    queue: seq<Message>,
    subs: seq<Subscription>,
    tasks: multiset<Task>,
    client: bool,
    closed: bool,
    freed: bool,
    // What went out
    calls: seq<Call>,              // completion callbacks run
    sent: seq<nat>,                // serials published since the last reset
    packets: map<nat, Packet>,     // by serial
    course: Course,
    // Counters
    issued: nat,                   // packet ids issued
    registered: nat,               // completion callbacks registered, numbered from 0
    known: nat)                    // subscriptions made, numbered from 0

  function Init(): State
  {
    State(Reset, 0, [], [], multiset{}, false, false, false, [], [], map[], Course(false, false), 0, 0, 0)
  }

  // ---- Packet ids ------------------------------------------------------------------------------

  const IDS: nat := 65535

  /** The next value of the 16-bit counter, skipping zero. */
  function NextId(counter: nat): nat
  {
    var id := (counter + 1) % 0x10000;
    if id != 0 then id else (id + 1) % 0x10000
  }

  /** The n-th id issued; before the first the counter is zero. */
  function IdAt(n: nat): nat
  {
    if n == 0 then 0 else (n - 1) % IDS + 1
  }

  lemma NextIdIsIdAt(n: nat)
    ensures NextId(IdAt(n)) == IdAt(n + 1)
    ensures 1 <= IdAt(n + 1) <= IDS
  {
    if n > 0 {
      var q, r := (n - 1) / IDS, (n - 1) % IDS;
      assert n - 1 == IDS * q + r;
      if r + 1 < IDS {
        assert n == IDS * q + (r + 1);
        Remainder(q, r + 1);
      } else {
        assert n == IDS * (q + 1) + 0;
        Remainder(q + 1, 0);
      }
    }
  }

  lemma Remainder(q: nat, r: nat)
    requires r < IDS
    ensures (IDS * q + r) % IDS == r
  {
  }

  /** Ids repeat exactly every 65535 issues, so any 65535 consecutive ids are distinct. */
  lemma IdsRepeat(m: nat, n: nat)
    requires 1 <= m < n
    ensures IdAt(m) == IdAt(n) <==> (n - m) % IDS == 0
    ensures n - m < IDS ==> IdAt(m) != IdAt(n)
  {
    var a, b := (m - 1) / IDS, (m - 1) % IDS;
    var c, d := (n - 1) / IDS, (n - 1) % IDS;
    assert n - m == IDS * (c - a) + (d - b);
    if d >= b {
      Remainder(c - a, d - b);
    } else {
      assert n - m == IDS * (c - a - 1) + (IDS + d - b);
      Remainder(c - a - 1, IDS + d - b);
    }
  }

  // ---- Steps -----------------------------------------------------------------------------------

  /** Index of the first message not published, or the length of the queue. */
  function FirstUnpublished(queue: seq<Message>): (i: nat)
    ensures i <= |queue|
    ensures forall j :: 0 <= j < i ==> queue[j].published
    ensures i < |queue| ==> !queue[i].published
  {
    if queue == [] || !queue[0].published then 0 else 1 + FirstUnpublished(queue[1..])
  }

  /** Index of the first message with the packet id, or the length of the queue. */
  function FindId(queue: seq<Message>, p: nat): (i: nat)
    ensures i <= |queue|
    ensures forall j :: 0 <= j < i ==> queue[j].pktId != p
    ensures i < |queue| ==> queue[i].pktId == p
  {
    if queue == [] || queue[0].pktId == p then 0 else 1 + FindId(queue[1..], p)
  }

  /** The queue with nothing published. */
  function Unsent(queue: seq<Message>): (r: seq<Message>)
    ensures |r| == |queue|
    ensures forall i :: 0 <= i < |queue| ==> r[i] == queue[i].(published := false)
  {
    seq(|queue|, i requires 0 <= i < |queue| => queue[i].(published := false))
  }

  function Callbacks(queue: seq<Message>): seq<nat>
  {
    if queue == [] then [] else Opt(queue[0].cb) + Callbacks(queue[1..])
  }

  function Map(subs: seq<Subscription>, f: Subscription -> Subscription): (r: seq<Subscription>)
    ensures |r| == |subs|
    ensures forall i :: 0 <= i < |subs| ==> r[i] == f(subs[i])
  {
    seq(|subs|, i requires 0 <= i < |subs| => f(subs[i]))
  }

  /** The subscriptions with none active or waiting. */
  function Cleared(subs: seq<Subscription>): (r: seq<Subscription>)
    ensures |r| == |subs|
    ensures forall i :: 0 <= i < |subs| ==> r[i] == subs[i].(pktId := 0, subscribed := false)
  {
    Map(subs, (sub: Subscription) => sub.(pktId := 0, subscribed := false))
  }

  /** The ids of the subscriptions that wait for no answer and are active, or not. */
  function IdleIds(subs: seq<Subscription>, active: bool): set<nat>
  {
    set sub | sub in subs && sub.pktId == 0 && sub.subscribed == active :: sub.id
  }

  function Flip(sub: Subscription, active: bool, id: nat, serial: nat): Subscription
  {
    if sub.pktId == 0 && sub.subscribed == active then sub.(subscribed := !active, pktId := id, serial := serial)
    else sub
  }

  /** Those subscriptions flipped and waiting for the answer to the packet. */
  function Flipped(subs: seq<Subscription>, active: bool, id: nat, serial: nat): (r: seq<Subscription>)
    ensures |r| == |subs|
    ensures forall i :: 0 <= i < |subs| ==> r[i] == Flip(subs[i], active, id, serial)
  {
    Map(subs, (sub: Subscription) =>
      if sub.pktId == 0 && sub.subscribed == active
      then sub.(subscribed := !active, pktId := id, serial := serial) else sub)
  }

  function Add(s: State, t: Task): State
  {
    s.(tasks := s.tasks + multiset{t})
  }

  /** Schedules a task after removing any pending one of its kind. */
  function Later(s: State, t: Task): State
  {
    s.(tasks := s.tasks[t := 1])
  }

  function Done(s: State, t: Task): State
  {
    s.(tasks := s.tasks - multiset{t})
  }

  function Issue(s: State): State
  {
    s.(counter := NextId(s.counter), issued := s.issued + 1)
  }

  /** The send queue and its callbacks are as before; at most one packet id was issued. */
  predicate QueueUntouched(s: State, t: State)
  {
    && t.queue == s.queue && t.sent == s.sent && t.closed == s.closed
    && t.calls == s.calls && t.registered == s.registered
    && ((t.issued == s.issued && t.counter == s.counter) || (t.issued == s.issued + 1 && t.counter == NextId(s.counter)))
  }

  predicate SubsUntouched(s: State, t: State)
  {
    t.subs == s.subs && t.packets == s.packets && t.known == s.known && t.issued >= s.issued
  }

  /** Status, queue and publish task are as before, and no reset task was taken. */
  predicate OnlyAdds(s: State, t: State)
  {
    && t.status == s.status && t.queue == s.queue && t.closed == s.closed && t.course.early == s.course.early
    && (PublishMessage in t.tasks <==> PublishMessage in s.tasks)
    && (forall task :: task in {HardReset, SoftReset} && task in s.tasks ==> task in t.tasks)
    && (FreeConnection in t.tasks ==> FreeConnection in s.tasks || s.status == Closing)
  }

  /** Queues a message; `ok` says whether there was memory for all of it. */
  function DoPublish(s: State, hasCb: bool, ok: bool): (t: State)
    ensures SubsUntouched(s, t)
  {
    var cb := if hasCb then Some(s.registered) else None;
    var s := Issue(s).(registered := if hasCb then s.registered + 1 else s.registered);
    if ok then Add(s.(queue := s.queue + [Message(s.issued, s.counter, false, cb)]), PublishMessage)
    else s.(calls := s.calls + Calls(Opt(cb), OutOfMemory))
  }

  /** The publish task sends the first message not published. */
  function RunPublish(s: State, sendOk: bool): (t: State)
    ensures SubsUntouched(s, t)
  {
    var s := Done(s, PublishMessage);
    var i := FirstUnpublished(s.queue);
    if s.status != Connected || i == |s.queue| then s
    else if sendOk then s.(queue := s.queue[i := s.queue[i].(published := true)], sent := s.sent + [s.queue[i].serial])
    else Add(s, SoftReset)
  }

  function OnPubAck(s: State, p: nat): (t: State)
    ensures SubsUntouched(s, t)
  {
    var i := FindId(s.queue, p);
    if i == |s.queue| then Add(s, HardReset)
    else
      var s := s.(queue := s.queue[..i] + s.queue[i + 1..], calls := s.calls + Calls(Opt(s.queue[i].cb), Ok));
      if s.status == Connected then Add(s, PublishMessage) else s
  }

  /** Sends one packet for all idle subscriptions, active or not, and marks them as waiting. */
  function SendIdle(s: State, active: bool, allocOk: bool, sendOk: bool): (t: State)
    ensures QueueUntouched(s, t) && OnlyAdds(s, t)
  {
    if !allocOk then Add(s, HardReset)
    else
      var ids := IdleIds(s.subs, active);
      var s := Issue(s);
      if !sendOk then Add(s, HardReset)
      else s.(subs := Flipped(s.subs, active, s.counter, s.issued), course := s.course.(parting := s.course.parting || active),
              packets := s.packets[s.issued := Packet(!active, ids)])
  }

  function RunSubscribeAll(s: State, allocOk: bool, sendOk: bool): (t: State)
    ensures QueueUntouched(s, t) && OnlyAdds(s, t)
  {
    var s := Done(s, SubscribeAll);
    if IdleIds(s.subs, false) == {} then s else SendIdle(s, false, allocOk, sendOk)
  }

  function RunUnsubscribeAll(s: State, allocOk: bool, sendOk: bool): (t: State)
    ensures QueueUntouched(s, t) && OnlyAdds(s, t)
  {
    var s := Done(s, UnsubscribeAll);
    if IdleIds(s.subs, true) != {} then SendIdle(s, true, allocOk, sendOk)
    else if s.status in {Disconnecting, Closing} then Add(s, BeginDisconnect)
    else s
  }

  function OnSubAck(s: State, p: nat, failure: bool): (t: State)
    ensures QueueUntouched(s, t)
    ensures OnlyAdds(s, t)
  {
    if failure then Add(s, HardReset)
    else Add(s.(subs := Map(s.subs, (sub: Subscription) =>
      if sub.pktId == p then sub.(subscribed := true, pktId := 0) else sub)), SubscribeAll)
  }

  function OnUnsubAck(s: State, p: nat): (t: State)
    ensures QueueUntouched(s, t)
    ensures OnlyAdds(s, t)
  {
    var s := s.(subs := Map(s.subs, (sub: Subscription) => if sub.pktId == p then sub.(pktId := 0) else sub));
    if s.status == Disconnecting then Add(s, UnsubscribeAll) else s
  }

  function OnConnAck(s: State, accepted: bool): (t: State)
    ensures QueueUntouched(s, t)
    ensures SubsUntouched(s, t)
  {
    if accepted then Add(Add(Add(s.(status := Connected, course := s.course.(early := false)), SubscribeAll), PublishMessage), Monitor)
    else Add(s, HardReset)
  }

  function OnDisconnected(s: State): (t: State)
    ensures QueueUntouched(s, t)
    ensures SubsUntouched(s, t)
    ensures OnlyAdds(s, t)
  {
    Add(s, if s.status == Closing then FreeConnection else HardReset)
  }

  /** A message from the broker takes a connecting connection for connected. */
  function OnIncoming(s: State): (t: State)
    ensures QueueUntouched(s, t)
    ensures SubsUntouched(s, t)
  {
    if s.status == Connecting then s.(status := Connected, course := s.course.(early := true)) else s
  }

  /** Drops the socket; nothing is published or subscribed any more and all tasks are gone. */
  function CompleteDisconnect(s: State): State
  {
    s.(client := false, queue := Unsent(s.queue), sent := [], tasks := multiset{}, course := Course(false, false),
       subs := Cleared(s.subs))
  }

  function RunHardReset(s: State, mayReconnect: bool): State
  {
    var s := Done(s, HardReset);
    if s.status == Closing then Add(s, FreeConnection)
    else
      var s := CompleteDisconnect(s.(status := Reset));
      if mayReconnect then Later(s, Reconnect) else s
  }

  function RunSoftReset(s: State): (t: State)
    ensures QueueUntouched(s, t)
    ensures SubsUntouched(s, t)
  {
    Add(Done(s, SoftReset).(status := Disconnecting), BeginDisconnect)
  }

  function RunBeginDisconnect(s: State): (t: State)
    ensures QueueUntouched(s, t)
    ensures SubsUntouched(s, t)
    ensures OnlyAdds(s, t)
  {
    var s := Done(s, BeginDisconnect);
    if exists sub :: sub in s.subs && sub.Subscribed() then Add(s, UnsubscribeAll) else s
  }

  function RunReconnect(s: State, ok: bool): (t: State)
    ensures QueueUntouched(s, t)
    ensures SubsUntouched(s, t)
  {
    var s := Done(s, Reconnect);
    if ok then Later(s.(client := true, status := Connecting, course := s.course.(early := false)), Monitor) else Add(s, HardReset)
  }

  /** What the monitor finds out about the connection. */
  datatype Verdict = Alive | Expired | TimedOut

  /** The monitor soft resets on an expired token, hard resets on a timeout, or runs again later. */
  function RunMonitor(s: State, verdict: Verdict): (t: State)
    ensures QueueUntouched(s, t)
    ensures SubsUntouched(s, t)
    ensures OnlyAdds(s, t)
  {
    var s := Done(s, Monitor);
    match verdict
    case Expired => Add(s, SoftReset)
    case TimedOut => Add(s, HardReset)
    case Alive => Later(s, Monitor)
  }

  function DoSubscribe(s: State): (t: State)
    ensures QueueUntouched(s, t)
    ensures OnlyAdds(s, t)
  {
    var s := s.(subs := s.subs + [Subscription(s.known, false, 0, 0)], known := s.known + 1);
    if s.status == Connected then Add(s, SubscribeAll) else s
  }

  /** A released subscription is removed; if it is active an UNSUBSCRIBE goes out for it alone. */
  function DoRelease(s: State, i: nat): (t: State)
    requires i < |s.subs|
    ensures QueueUntouched(s, t)
    ensures OnlyAdds(s, t)
  {
    var sub := s.subs[i];
    var s := s.(subs := s.subs[..i] + s.subs[i + 1..]);
    if sub.Subscribed() then var s := Issue(s); s.(packets := s.packets[s.issued := Packet(false, {sub.id})]) else s
  }

  function DoConnect(s: State): (t: State)
    ensures QueueUntouched(s, t)
    ensures SubsUntouched(s, t)
    ensures OnlyAdds(s, t)
  {
    Add(s, Reconnect)
  }

  /** Closing aborts every queued message and schedules the disconnect, or the free if already reset. */
  function DoClose(s: State): (t: State)
    ensures SubsUntouched(s, t)
  {
    var c := AbortAll(s);
    if s.status != Reset then Later(Add(c, BeginDisconnect), FreeConnection) else Add(c, FreeConnection)
  }

  /** Closing runs the callbacks of all queued messages. */
  function AbortAll(s: State): State
  {
    s.(status := Closing, closed := true, calls := s.calls + Calls(Callbacks(s.queue), Aborted), queue := [])
  }

  function RunFree(s: State): State
  {
    CompleteDisconnect(Done(s, FreeConnection)).(freed := true)
  }

  // ---- Runs ------------------------------------------------------------------------------------

  datatype Event =
    // Calls of the application
    | Publish(hasCb: bool, ok: bool) | Subscribe | Release(i: nat) | Connect | Close
    // Scheduler tasks; the parameters say how calls into the client library and the memory pool end
    | PublishTask(ok: bool) | SubscribeTask(allocOk: bool, ok: bool) | UnsubscribeTask(allocOk: bool, ok: bool)
    | MonitorTask(verdict: Verdict) | HardResetTask(mayReconnect: bool) | SoftResetTask
    | BeginDisconnectTask | ReconnectTask(ok: bool) | FreeTask
    // Packets and notifications from the client library
    | ConnAck(accepted: bool) | PubAck(p: nat) | SubAck(p: nat, failure: bool) | UnsubAck(p: nat)
    | Disconnected | Failed | Incoming

  /** Packet ids are not zero, and the application does not publish on a connection it has closed. */
  predicate Enabled(s: State, e: Event)
  {
    && !s.freed
    && match e
       case Publish(_, _) => !s.closed
       case Subscribe => true
       case Release(i) => i < |s.subs|
       case Connect => true
       case Close => true
       case PublishTask(_) => PublishMessage in s.tasks
       case SubscribeTask(_, _) => SubscribeAll in s.tasks
       case UnsubscribeTask(_, _) => UnsubscribeAll in s.tasks
       case MonitorTask(_) => Monitor in s.tasks
       case HardResetTask(_) => HardReset in s.tasks
       case SoftResetTask => SoftReset in s.tasks
       case BeginDisconnectTask => BeginDisconnect in s.tasks
       case ReconnectTask(_) => Reconnect in s.tasks
       case FreeTask => FreeConnection in s.tasks
       case ConnAck(_) => s.client
       case PubAck(p) => s.client && p > 0
       case SubAck(p, _) => s.client && p > 0
       case UnsubAck(p) => s.client && p > 0
       case Disconnected => s.client
       case Failed => s.client
       case Incoming => s.client
  }

  function Apply(s: State, e: Event): State
    requires Enabled(s, e)
  {
    match e
    case Publish(hasCb, ok) => DoPublish(s, hasCb, ok)
    case Subscribe => DoSubscribe(s)
    case Release(i) => DoRelease(s, i)
    case Connect => DoConnect(s)
    case Close => DoClose(s)
    case PublishTask(ok) => RunPublish(s, ok)
    case SubscribeTask(allocOk, ok) => RunSubscribeAll(s, allocOk, ok)
    case UnsubscribeTask(allocOk, ok) => RunUnsubscribeAll(s, allocOk, ok)
    case MonitorTask(verdict) => RunMonitor(s, verdict)
    case HardResetTask(mayReconnect) => RunHardReset(s, mayReconnect)
    case SoftResetTask => RunSoftReset(s)
    case BeginDisconnectTask => RunBeginDisconnect(s)
    case ReconnectTask(ok) => RunReconnect(s, ok)
    case FreeTask => RunFree(s)
    case ConnAck(accepted) => OnConnAck(s, accepted)
    case PubAck(p) => OnPubAck(s, p)
    case SubAck(p, failure) => OnSubAck(s, p, failure)
    case UnsubAck(p) => OnUnsubAck(s, p)
    case Disconnected => OnDisconnected(s)
    case Failed => Add(s, HardReset)
    case Incoming => OnIncoming(s)
  }

  ghost predicate Run(s: State, es: seq<Event>, t: State)
    decreases |es|
  {
    if es == [] then s == t else Enabled(s, es[0]) && Run(Apply(s, es[0]), es[1..], t)
  }

  ghost predicate Reached(t: State)
  {
    exists es :: Run(Init(), es, t)
  }
}
