/** What keeps an MQTT connection alive in every run: its subscriptions are renewed, it is watched, and a
    breakdown is followed by a reset. */
module MqttUpkeep {
  import opened Prelude
  import opened Completion
  import opened Mqtt
  import opened MqttRuns

  // ---- Tasks -----------------------------------------------------------------------------------

  /** Everything but a hard reset and the release. */
  predicate Ordinary(e: Event)
  {
    !e.HardResetTask? && !e.FreeTask?
  }

  /** The task an event takes off the schedule. */
  function Takes(e: Event): Option<Task>
  {
    match e
    case PublishTask(_) => Some(PublishMessage)
    case SubscribeTask(_, _) => Some(SubscribeAll)
    case UnsubscribeTask(_, _) => Some(UnsubscribeAll)
    case MonitorTask(_) => Some(Monitor)
    case HardResetTask(_) => Some(HardReset)
    case SoftResetTask => Some(SoftReset)
    case BeginDisconnectTask => Some(BeginDisconnect)
    case ReconnectTask(_) => Some(Reconnect)
    case FreeTask => Some(FreeConnection)
    case _ => None
  }

  predicate IsCall(e: Event)
  {
    e.Publish? || e.Subscribe? || e.Release? || e.Connect? || e.Close?
  }

  predicate IsPacket(e: Event)
  {
    e.ConnAck? || e.PubAck? || e.SubAck? || e.UnsubAck? || e.Disconnected? || e.Failed? || e.Incoming?
  }

  /** A scheduled task stays scheduled until it runs, or the connection is reset or released. */
  lemma TaskStays(s: State, e: Event, task: Task)
    requires Enabled(s, e) && Ordinary(e) && task in s.tasks && Takes(e) != Some(task)
    ensures task in Apply(s, e).tasks
  {
    if IsCall(e) {
      StaysOnCall(s, e, task);
    } else if IsPacket(e) {
      StaysOnPacket(s, e, task);
    } else if e.PublishTask? || e.SubscribeTask? || e.UnsubscribeTask? {
      StaysOnSend(s, e, task);
    } else {
      StaysOnTask(s, e, task);
    }
  }

  lemma StaysOnCall(s: State, e: Event, task: Task)
    requires Enabled(s, e) && IsCall(e) && task in s.tasks
    ensures task in Apply(s, e).tasks
  {
    match e
    case Publish(hasCb, ok) => StaysPublish(s, hasCb, ok, task);
    case Close => StaysClose(s, task);
    case _ =>
  }

  lemma StaysClose(s: State, task: Task)
    requires task in s.tasks
    ensures task in DoClose(s).tasks
  {
  }

  lemma StaysOnPacket(s: State, e: Event, task: Task)
    requires Enabled(s, e) && IsPacket(e) && task in s.tasks
    ensures task in Apply(s, e).tasks
  {
    match e
    case PubAck(p) => StaysPubAck(s, p, task);
    case SubAck(p, failure) => StaysAcks(s, p, failure, task);
    case UnsubAck(p) => StaysAcks(s, p, false, task);
    case ConnAck(accepted) => StaysConnAck(s, accepted, task);
    case _ => StaysLost(s, task);
  }

  lemma StaysOnSend(s: State, e: Event, task: Task)
    requires Enabled(s, e) && task in s.tasks && Takes(e) != Some(task)
    requires e.PublishTask? || e.SubscribeTask? || e.UnsubscribeTask?
    ensures task in Apply(s, e).tasks
  {
    match e
    case PublishTask(ok) => StaysPublishTask(s, ok, task);
    case SubscribeTask(allocOk, ok) => StaysSubscribeTask(s, allocOk, ok, task);
    case UnsubscribeTask(allocOk, ok) => StaysUnsubscribeTask(s, allocOk, ok, task);
  }

  lemma StaysOnTask(s: State, e: Event, task: Task)
    requires Enabled(s, e) && task in s.tasks && Takes(e) != Some(task)
    requires e.MonitorTask? || e.SoftResetTask? || e.BeginDisconnectTask? || e.ReconnectTask?
    ensures task in Apply(s, e).tasks
  {
    match e
    case MonitorTask(verdict) => StaysMonitor(s, verdict, task);
    case SoftResetTask => StaysSoftReset(s, task);
    case BeginDisconnectTask => StaysBeginDisconnect(s, task);
    case ReconnectTask(ok) => StaysReconnect(s, ok, task);
  }

  lemma StaysSoftReset(s: State, task: Task)
    requires task in s.tasks && task != SoftReset
    ensures task in RunSoftReset(s).tasks
  {
  }

  lemma StaysBeginDisconnect(s: State, task: Task)
    requires task in s.tasks && task != BeginDisconnect
    ensures task in RunBeginDisconnect(s).tasks
  {
  }

  lemma StaysReconnect(s: State, ok: bool, task: Task)
    requires task in s.tasks && task != Reconnect
    ensures task in RunReconnect(s, ok).tasks
  {
  }

  lemma StaysConnAck(s: State, accepted: bool, task: Task)
    requires task in s.tasks
    ensures task in OnConnAck(s, accepted).tasks
  {
  }

  lemma StaysLost(s: State, task: Task)
    requires task in s.tasks
    ensures task in OnDisconnected(s).tasks && task in Add(s, HardReset).tasks && task in OnIncoming(s).tasks
  {
  }

  lemma StaysPublish(s: State, hasCb: bool, ok: bool, task: Task)
    requires task in s.tasks
    ensures task in DoPublish(s, hasCb, ok).tasks
  {
  }

  lemma StaysPublishTask(s: State, ok: bool, task: Task)
    requires task in s.tasks && task != PublishMessage
    ensures task in RunPublish(s, ok).tasks
  {
  }

  lemma StaysPubAck(s: State, p: nat, task: Task)
    requires task in s.tasks
    ensures task in OnPubAck(s, p).tasks
  {
  }

  lemma StaysSend(s: State, active: bool, allocOk: bool, ok: bool, task: Task)
    requires task in s.tasks
    ensures task in SendIdle(s, active, allocOk, ok).tasks
  {
  }

  lemma StaysSubscribeTask(s: State, allocOk: bool, ok: bool, task: Task)
    requires task in s.tasks && task != SubscribeAll
    ensures task in RunSubscribeAll(s, allocOk, ok).tasks
  {
    StaysSend(Done(s, SubscribeAll), false, allocOk, ok, task);
  }

  lemma StaysUnsubscribeTask(s: State, allocOk: bool, ok: bool, task: Task)
    requires task in s.tasks && task != UnsubscribeAll
    ensures task in RunUnsubscribeAll(s, allocOk, ok).tasks
  {
    StaysSend(Done(s, UnsubscribeAll), true, allocOk, ok, task);
  }

  lemma StaysAcks(s: State, p: nat, failure: bool, task: Task)
    requires task in s.tasks
    ensures task in OnSubAck(s, p, failure).tasks && task in OnUnsubAck(s, p).tasks
  {
  }

  lemma StaysMonitor(s: State, verdict: Verdict, task: Task)
    requires task in s.tasks && task != Monitor
    ensures task in RunMonitor(s, verdict).tasks
  {
  }

  // ---- Subscriptions ---------------------------------------------------------------------------

  /** Some subscription is neither active nor waiting for an answer. */
  predicate SomeIdle(subs: seq<Subscription>)
  {
    exists sub :: sub in subs && sub.Unsubscribed()
  }

  predicate ResetPending(s: State)
  {
    HardReset in s.tasks || SoftReset in s.tasks
  }

  /** As long as subscriptions were not given up, what waits for an answer waits to be subscribed. */
  predicate WaitInv(s: State)
  {
    !s.course.parting ==> forall i :: 0 <= i < |s.subs| && s.subs[i].pktId != 0 ==> s.subs[i].subscribed
  }

  predicate SubPumpInv(s: State)
  {
    s.status == Connected && !s.course.early && !s.course.parting && !s.freed && SomeIdle(s.subs) ==>
      SubscribeAll in s.tasks || ResetPending(s)
  }

  predicate RenewInv(s: State)
  {
    WaitInv(s) && SubPumpInv(s)
  }

  lemma RenewSubscribe(s: State)
    requires RenewInv(s)
    ensures RenewInv(DoSubscribe(s))
  {
    var t := DoSubscribe(s);
    if s.status != Connected { assert t.status != Connected; }
  }

  lemma RenewRelease(s: State, i: nat)
    requires RenewInv(s) && i < |s.subs|
    ensures RenewInv(DoRelease(s, i))
  {
    var r := s.subs[..i] + s.subs[i + 1..];
    assert forall k :: 0 <= k < |r| ==> r[k] == s.subs[if k < i then k else k + 1];
    assert forall sub :: sub in r ==> sub in s.subs;
  }

  lemma NoneIdle(subs: seq<Subscription>)
    requires IdleIds(subs, false) == {}
    ensures !SomeIdle(subs)
  {
    forall sub | sub in subs
      ensures !sub.Unsubscribed()
    {
      assert sub.Unsubscribed() ==> sub.id in IdleIds(subs, false);
    }
  }

  lemma FlippedWait(subs: seq<Subscription>, active: bool, id: nat, serial: nat)
    requires id != 0
    ensures !active ==> !SomeIdle(Flipped(subs, active, id, serial))
    ensures !active ==> forall i :: 0 <= i < |subs| && (subs[i].pktId != 0 ==> subs[i].subscribed) ==>
              (Flipped(subs, active, id, serial)[i].pktId != 0 ==> Flipped(subs, active, id, serial)[i].subscribed)
  {
  }

  lemma RenewSend(s: State, active: bool, allocOk: bool, sendOk: bool)
    requires WaitInv(s) && QueueInv(s)
    ensures WaitInv(SendIdle(s, active, allocOk, sendOk))
    ensures active && SubPumpInv(s) ==> SubPumpInv(SendIdle(s, active, allocOk, sendOk))
    ensures !active ==> SubPumpInv(SendIdle(s, active, allocOk, sendOk))
  {
    if allocOk && sendOk {
      QueueIssue(s);
      FlippedWait(s.subs, active, Issue(s).counter, Issue(s).issued);
    }
  }

  lemma RenewSubscribeTask(s: State, allocOk: bool, ok: bool)
    requires RenewInv(s) && QueueInv(s)
    ensures RenewInv(RunSubscribeAll(s, allocOk, ok))
  {
    var d := Done(s, SubscribeAll);
    if IdleIds(d.subs, false) == {} { NoneIdle(d.subs); } else { RenewSend(d, false, allocOk, ok); }
  }

  lemma RenewUnsubscribeTask(s: State, allocOk: bool, ok: bool)
    requires RenewInv(s) && QueueInv(s)
    ensures RenewInv(RunUnsubscribeAll(s, allocOk, ok))
  {
    RenewSend(Done(s, UnsubscribeAll), true, allocOk, ok);
  }

  lemma RenewSubAck(s: State, p: nat, failure: bool)
    requires RenewInv(s)
    ensures RenewInv(OnSubAck(s, p, failure))
  {
  }

  lemma RenewUnsubAck(s: State, p: nat)
    requires RenewInv(s)
    ensures RenewInv(OnUnsubAck(s, p))
  {
    var t := OnUnsubAck(s, p);
    if !s.course.parting && SomeIdle(t.subs) {
      var sub :| sub in t.subs && sub.Unsubscribed();
      var i :| 0 <= i < |t.subs| && t.subs[i] == sub;
      assert s.subs[i] == sub;
      assert SomeIdle(s.subs);
    }
  }

  /** Steps that leave the subscriptions and the pending subscribe and reset tasks. */
  lemma RenewOthers(s: State, t: State)
    requires RenewInv(s) && t.subs == s.subs && t.course == s.course && t.freed == s.freed && t.status == s.status
    requires SubscribeAll in s.tasks ==> SubscribeAll in t.tasks
    requires ResetPending(s) ==> ResetPending(t)
    ensures RenewInv(t)
  {
  }

  lemma RenewReset(s: State, mayReconnect: bool)
    requires RenewInv(s)
    ensures RenewInv(RunHardReset(s, mayReconnect)) && RenewInv(RunFree(s))
  {
  }

  lemma RenewStatus(s: State, e: Event)
    requires Enabled(s, e) && RenewInv(s)
    requires e.Close? || e.SoftResetTask? || e.ReconnectTask? || e.ConnAck? || e.Incoming?
    ensures RenewInv(Apply(s, e))
  {
  }

  /** The rest only publish, acknowledge, disconnect or watch. */
  predicate Aside(e: Event)
  {
    || e.Publish? || e.PublishTask? || e.PubAck? || e.Connect? || e.MonitorTask? || e.BeginDisconnectTask?
    || e.Disconnected? || e.Failed?
  }

  lemma AsideLeaves(s: State, e: Event)
    requires Enabled(s, e) && Aside(e)
    ensures var t := Apply(s, e); t.subs == s.subs && t.course == s.course && t.freed == s.freed && t.status == s.status
  {
  }

  lemma RenewAside(s: State, e: Event)
    requires Enabled(s, e) && Aside(e) && RenewInv(s)
    ensures RenewInv(Apply(s, e))
  {
    AsideLeaves(s, e);
    if SubscribeAll in s.tasks { TaskStays(s, e, SubscribeAll); }
    if HardReset in s.tasks { TaskStays(s, e, HardReset); }
    if SoftReset in s.tasks { TaskStays(s, e, SoftReset); }
    RenewOthers(s, Apply(s, e));
  }

  lemma RenewKept(s: State, e: Event)
    requires Enabled(s, e) && RenewInv(s) && QueueInv(s)
    ensures RenewInv(Apply(s, e))
  {
    match e
    case Subscribe => RenewSubscribe(s);
    case Release(i) => RenewRelease(s, i);
    case SubscribeTask(allocOk, ok) => RenewSubscribeTask(s, allocOk, ok);
    case UnsubscribeTask(allocOk, ok) => RenewUnsubscribeTask(s, allocOk, ok);
    case SubAck(p, failure) => RenewSubAck(s, p, failure);
    case UnsubAck(p) => RenewUnsubAck(s, p);
    case HardResetTask(mayReconnect) => RenewReset(s, mayReconnect);
    case FreeTask => RenewReset(s, true);
    case Close => RenewStatus(s, e);
    case SoftResetTask => RenewStatus(s, e);
    case ReconnectTask(_) => RenewStatus(s, e);
    case ConnAck(_) => RenewStatus(s, e);
    case Incoming => RenewStatus(s, e);
    case _ => RenewAside(s, e);
  }

  // ---- The monitor -----------------------------------------------------------------------------

  predicate WatchInv(s: State)
  {
    !s.freed && (s.status == Connecting || s.status == Connected) ==> Monitor in s.tasks || ResetPending(s)
  }

  /** The events that change neither the status nor whether the connection is freed. */
  predicate Steady(e: Event)
  {
    Ordinary(e) && !e.Close? && !e.SoftResetTask? && !e.ReconnectTask? && !e.ConnAck? && !e.Incoming?
  }

  lemma StatusKept(s: State, e: Event)
    requires Enabled(s, e) && Steady(e)
    ensures Apply(s, e).status == s.status && Apply(s, e).freed == s.freed
  {
    if Aside(e) { AsideLeaves(s, e); } else { SubscribingLeaves(s, e); }
  }

  lemma SubscribingLeaves(s: State, e: Event)
    requires Enabled(s, e)
    requires e.Subscribe? || e.Release? || e.SubscribeTask? || e.UnsubscribeTask? || e.SubAck? || e.UnsubAck?
    ensures Apply(s, e).status == s.status && Apply(s, e).freed == s.freed
  {
  }

  lemma WatchMonitor(s: State, verdict: Verdict)
    ensures Monitor in RunMonitor(s, verdict).tasks || ResetPending(RunMonitor(s, verdict))
  {
  }

  lemma WatchStatus(s: State, e: Event)
    requires Enabled(s, e) && WatchInv(s)
    requires e.Close? || e.HardResetTask? || e.SoftResetTask? || e.ReconnectTask? || e.FreeTask? || e.ConnAck? || e.Incoming?
    ensures WatchInv(Apply(s, e))
  {
  }

  lemma WatchKept(s: State, e: Event)
    requires Enabled(s, e) && WatchInv(s)
    ensures WatchInv(Apply(s, e))
  {
    if e.Close? || e.HardResetTask? || e.SoftResetTask? || e.ReconnectTask? || e.FreeTask? || e.ConnAck? || e.Incoming? {
      WatchStatus(s, e);
    } else if e.MonitorTask? {
      WatchMonitor(s, e.verdict);
    } else {
      StatusKept(s, e);
      if Monitor in s.tasks { TaskStays(s, e, Monitor); }
      if HardReset in s.tasks { TaskStays(s, e, HardReset); }
      if SoftReset in s.tasks { TaskStays(s, e, SoftReset); }
    }
  }

  // ---- Theorems over all runs ------------------------------------------------------------------

  lemma {:induction false} RunKeepsUpkeep(s: State, es: seq<Event>, t: State)
    requires Run(s, es, t) && QueueInv(s) && RenewInv(s) && WatchInv(s)
    ensures RenewInv(t) && WatchInv(t)
    decreases |es|
  {
    if es != [] {
      QueueKept(s, es[0]);
      RenewKept(s, es[0]);
      WatchKept(s, es[0]);
      RunKeepsUpkeep(Apply(s, es[0]), es[1..], t);
    }
  }

  lemma ReachedUpkeep(t: State)
    requires Reached(t)
    ensures RenewInv(t) && WatchInv(t)
  {
    var es :| Run(Init(), es, t);
    RunKeepsUpkeep(Init(), es, t);
  }

  /** Subscriptions are renewed: while connected, one that is neither active nor waiting has a subscribe task
      or a reset coming, unless a message came before the CONNACK or all were given up since the last reset. */
  lemma SubscriptionsAreRenewed(t: State, sub: Subscription)
    requires Reached(t) && !t.freed && t.status == Connected && !t.course.early && !t.course.parting
    requires sub in t.subs && sub.pktId == 0 && !sub.subscribed
    ensures SubscribeAll in t.tasks || HardReset in t.tasks || SoftReset in t.tasks
  {
    ReachedUpkeep(t);
    assert SomeIdle(t.subs);
  }

  /** A connecting or connected connection is watched, or its reset is coming. */
  lemma ConnectionIsWatched(t: State)
    requires Reached(t) && !t.freed && (t.status == Connecting || t.status == Connected)
    ensures Monitor in t.tasks || HardReset in t.tasks || SoftReset in t.tasks
  {
    ReachedUpkeep(t);
  }

  /** The connection is lost, refused, timed out or out of step. */
  predicate Breaks(s: State, e: Event)
  {
    || e.Disconnected? || e.Failed? || e == ConnAck(false) || e == MonitorTask(TimedOut)
    || (e.SubAck? && e.failure) || e == ReconnectTask(false)
    || (e.SubscribeTask? && !(e.allocOk && e.ok) && SomeIdle(s.subs))
    || (e.PubAck? && forall m :: m in s.queue ==> m.pktId != e.p)
  }

  /** A task that is scheduled runs, or the connection is reset or released, before it leaves the schedule. */
  lemma {:induction false} ScheduledStays(s: State, es: seq<Event>, t: State, task: Task)
    requires Run(s, es, t) && task in s.tasks
    requires forall e :: e in es ==> Ordinary(e) && Takes(e) != Some(task)
    ensures task in t.tasks
    decreases |es|
  {
    if es != [] {
      assert es[0] in es;
      TaskStays(s, es[0], task);
      ScheduledStays(Apply(s, es[0]), es[1..], t, task);
    }
  }

  lemma BreakdownSchedules(s: State, e: Event)
    requires Enabled(s, e) && Breaks(s, e)
    ensures HardReset in Apply(s, e).tasks || FreeConnection in Apply(s, e).tasks
  {
    if e.SubscribeTask? {
      FailedSubscribe(s, e.allocOk, e.ok);
    } else {
      assert forall i :: 0 <= i < |s.queue| ==> s.queue[i] in s.queue;
    }
  }

  lemma FailedSubscribe(s: State, allocOk: bool, ok: bool)
    requires !(allocOk && ok) && SomeIdle(s.subs)
    ensures HardReset in RunSubscribeAll(s, allocOk, ok).tasks
  {
    var sub :| sub in s.subs && sub.Unsubscribed();
    assert sub.id in IdleIds(s.subs, false);
  }

  /** After a breakdown a hard reset or the release is scheduled, and stays so until it happens. */
  lemma BreakdownIsReset(s: State, e: Event, es: seq<Event>, t: State)
    requires Enabled(s, e) && Breaks(s, e) && Run(Apply(s, e), es, t)
    requires forall x :: x in es ==> !x.HardResetTask? && !x.FreeTask?
    ensures HardReset in t.tasks || FreeConnection in t.tasks
  {
    BreakdownSchedules(s, e);
    EndStays(Apply(s, e), es, t);
  }

  lemma EndStays(r: State, es: seq<Event>, t: State)
    requires Run(r, es, t) && (HardReset in r.tasks || FreeConnection in r.tasks)
    requires forall x :: x in es ==> !x.HardResetTask? && !x.FreeTask?
    ensures HardReset in t.tasks || FreeConnection in t.tasks
  {
    if HardReset in r.tasks { ScheduledStays(r, es, t, HardReset); } else { ScheduledStays(r, es, t, FreeConnection); }
  }

  predicate SomeActive(subs: seq<Subscription>)
  {
    exists sub :: sub in subs && sub.Subscribed()
  }

  /** A hard reset that may reconnect schedules the reconnect, and one of a closing connection the release. An
      expired token or a failed publish schedules a soft reset; that schedules the disconnect, which first gives
      up what is subscribed, and goes on when the answer has come. A close schedules the release. */
  function Leads(s: State, e: Event): Option<Task>
  {
    match e
    case HardResetTask(mayReconnect) =>
      if s.status == Closing then Some(FreeConnection) else if mayReconnect then Some(Reconnect) else None
    case MonitorTask(verdict) => if verdict == Expired then Some(SoftReset) else None
    case PublishTask(ok) =>
      if !ok && s.status == Connected && exists m :: m in s.queue && !m.published then Some(SoftReset) else None
    case SoftResetTask => Some(BeginDisconnect)
    case BeginDisconnectTask => if SomeActive(s.subs) then Some(UnsubscribeAll) else None
    case UnsubscribeTask(_, _) =>
      if !SomeActive(s.subs) && s.status in {Disconnecting, Closing} then Some(BeginDisconnect) else None
    case UnsubAck(_) => if s.status == Disconnecting then Some(UnsubscribeAll) else None
    case Close => Some(FreeConnection)
    case Connect => Some(Reconnect)
    case _ => None
  }

  lemma LeadsNow(s: State, e: Event)
    requires Enabled(s, e) && Leads(s, e).Some?
    ensures Leads(s, e).value in Apply(s, e).tasks
  {
    if e.PublishTask? {
      var m :| m in s.queue && !m.published;
      assert FirstUnpublished(s.queue) < |s.queue|;
    } else if e.UnsubscribeTask? {
      NoneActive(s.subs);
    }
  }

  lemma NoneActive(subs: seq<Subscription>)
    requires !SomeActive(subs)
    ensures IdleIds(subs, true) == {}
  {
    assert forall sub :: sub in subs ==> !sub.Subscribed();
  }

  /** Each of these stays scheduled until it runs, or the connection is reset or released. */
  lemma OneLeadsToTheNext(s: State, e: Event, es: seq<Event>, t: State)
    requires Enabled(s, e) && Leads(s, e).Some? && Run(Apply(s, e), es, t)
    requires forall x :: x in es ==> !x.HardResetTask? && !x.FreeTask? && Takes(x) != Leads(s, e)
    ensures Leads(s, e).value in t.tasks
  {
    LeadsNow(s, e);
    ScheduledStays(Apply(s, e), es, t, Leads(s, e).value);
  }

  /** The packet of a subscribe task names exactly the subscriptions neither active nor waiting, and exactly
      those wait for it then; without any, no packet goes out. */
  lemma SubscribesWhatIsIdle(s: State, id: nat)
    requires Reached(s) && Enabled(s, SubscribeTask(true, true))
    ensures var t := Apply(s, SubscribeTask(true, true));
      && |t.subs| == |s.subs|
      && (forall i :: 0 <= i < |s.subs| ==>
           if s.subs[i].pktId == 0 && !s.subs[i].subscribed
           then t.subs[i].id == s.subs[i].id && t.subs[i].subscribed && t.subs[i].pktId == t.counter != 0
           else t.subs[i] == s.subs[i])
      && (if exists sub :: sub in s.subs && sub.pktId == 0 && !sub.subscribed
          then t.issued == s.issued + 1 && t.issued in t.packets && t.packets[t.issued].subscribe
               && (id in t.packets[t.issued].payload <==>
                   exists sub :: sub in s.subs && sub.pktId == 0 && !sub.subscribed && sub.id == id)
          else t.packets == s.packets && t.issued == s.issued)
  {
    ReachedInv(s);
    var d := Done(s, SubscribeAll);
    NextIdIsIdAt(s.issued);
    if IdleIds(d.subs, false) == {} {
      NoneIdle(d.subs);
      assert forall i :: 0 <= i < |s.subs| ==> s.subs[i] in s.subs;
    } else {
      var x :| x in IdleIds(d.subs, false);
      IdleMeans(d.subs, false, x);
      IdleMeans(d.subs, false, id);
      SentIdle(d, false);
    }
  }

  lemma IdleMeans(subs: seq<Subscription>, active: bool, id: nat)
    ensures id in IdleIds(subs, active) <==> exists sub :: sub in subs && sub.pktId == 0 && sub.subscribed == active && sub.id == id
  {
  }

  lemma SentIdle(s: State, active: bool)
    ensures var t := SendIdle(s, active, true, true);
      && t.issued == s.issued + 1 && t.counter == NextId(s.counter)
      && t.packets == s.packets[t.issued := Packet(!active, IdleIds(s.subs, active))]
      && |t.subs| == |s.subs|
      && forall i :: 0 <= i < |s.subs| ==> t.subs[i] == Flip(s.subs[i], active, t.counter, t.issued)
  {
  }

  // ---- Where the guarantees end ----------------------------------------------------------------

  /** A connection with one subscription and the given number of subscribe tasks, and no reset pending. */
  predicate OneSub(s: State, sub: Subscription, tasks: nat)
  {
    && s.client && !s.freed && !s.course.early && s.subs == [sub]
    && s.tasks[SubscribeAll] == tasks && !ResetPending(s)
  }

  predicate Counts(s: State, n: nat)
  {
    s.counter == n && s.issued == n
  }

  lemma SubscribeSends(s: State, sub: Subscription)
    requires OneSub(s, sub, 1) && sub == Subscription(0, false, 0, 0) && Counts(s, 0)
    ensures var t := RunSubscribeAll(s, true, true);
      OneSub(t, Subscription(0, true, 1, 1), 0) && Counts(t, 1) && t.status == s.status && t.tasks == s.tasks - multiset{SubscribeAll}
  {
    assert s.subs[0] in s.subs && 0 in IdleIds(s.subs, false);
    SentIdle(Done(s, SubscribeAll), false);
    var t := RunSubscribeAll(s, true, true);
    assert t.subs == [Flip(sub, false, 1, 1)];
  }

  lemma SubscribeIdles(s: State, sub: Subscription)
    requires OneSub(s, sub, 1) && (sub.pktId != 0 || sub.subscribed)
    ensures var t := RunSubscribeAll(s, true, true);
      OneSub(t, sub, 0) && t == s.(tasks := s.tasks - multiset{SubscribeAll})
  {
    assert IdleIds(s.subs, false) == {};
  }

  lemma SubscribeSettles(s: State, sub: Subscription)
    requires OneSub(s, sub, 0) && sub.pktId == 1
    ensures Counts(s, 1) ==> Counts(OnSubAck(s, 1, false), 1)
    ensures var t := OnSubAck(s, 1, false); OneSub(t, sub.(subscribed := true, pktId := 0), 1) && t.status == s.status
    ensures OnSubAck(s, 1, false).tasks == s.tasks + multiset{SubscribeAll}
  {
    assert OnSubAck(s, 1, false).subs == [sub.(subscribed := true, pktId := 0)];
  }

  lemma UnsubscribeSettles(s: State, sub: Subscription)
    requires OneSub(s, sub, 0) && sub.pktId == 2
    ensures var t := OnUnsubAck(s, 2); OneSub(t, sub.(pktId := 0), 0) && t.status == s.status
  {
    assert OnUnsubAck(s, 2).subs == [sub.(pktId := 0)];
  }

  lemma UnsubscribeSends(s: State, sub: Subscription)
    requires OneSub(s, sub, 0) && sub == Subscription(0, true, 0, 1) && Counts(s, 1)
    ensures OneSub(RunUnsubscribeAll(s, true, true), Subscription(0, false, 2, 2), 0)
  {
    assert s.subs[0] in s.subs && 0 in IdleIds(s.subs, true);
    SentIdle(Done(s, UnsubscribeAll), true);
    var t := RunUnsubscribeAll(s, true, true);
    assert t.subs == [Flip(sub, true, 2, 2)];
  }

  lemma Reconnects(s: State, sub: Subscription)
    requires OneSub(s, sub, 0)
    ensures var t := OnConnAck(s, true); OneSub(t, sub, 1) && t.status == Connected
  {
  }

  /** Subscriptions can stay given up: the answer to the UNSUBSCRIBE of a soft reset comes after the connection
      was connected again, and after the subscribe task ran. */
  lemma GivenUpCanStay()
    ensures exists t :: Reached(t) && !t.freed && t.status == Connected && !t.course.early && SomeIdle(t.subs)
              && SubscribeAll !in t.tasks && !ResetPending(t)
  {
    var s := Unsubscribing();
    var sub := Subscription(0, false, 2, 2);
    var a := ReachedStep(s, ConnAck(true));
    Reconnects(s, sub);
    var b := ReachedStep(a, SubscribeTask(true, true));
    SubscribeIdles(a, sub);
    var t := ReachedStep(b, UnsubAck(2));
    UnsubscribeSettles(b, sub);
    assert t.subs[0] in t.subs && t.subs[0].Unsubscribed();
  }

  lemma Subscribing() returns (s: State)
    ensures Reached(s) && s.status == Connected && Monitor in s.tasks && Counts(s, 0)
    ensures OneSub(s, Subscription(0, false, 0, 0), 1)
  {
    ReachedInit();
    var a := ReachedStep(Init(), Connect);
    var b := ReachedStep(a, ReconnectTask(true));
    var c := ReachedStep(b, Subscribe);
    assert c.subs == [Subscription(0, false, 0, 0)];
    s := ReachedStep(c, ConnAck(true));
  }

  lemma Subscribed() returns (s: State)
    ensures Reached(s) && s.status == Connected && Monitor in s.tasks && Counts(s, 1)
    ensures OneSub(s, Subscription(0, true, 0, 1), 0)
  {
    var a := Subscribing();
    var b := ReachedStep(a, SubscribeTask(true, true));
    SubscribeSends(a, Subscription(0, false, 0, 0));
    var c := ReachedStep(b, SubAck(1, false));
    SubscribeSettles(b, Subscription(0, true, 1, 1));
    s := ReachedStep(c, SubscribeTask(true, true));
    SubscribeIdles(c, Subscription(0, true, 0, 1));
  }

  lemma Expires(s: State, sub: Subscription)
    requires OneSub(s, sub, 0) && Counts(s, 1)
    ensures var t := RunSoftReset(RunMonitor(s, Expired));
      OneSub(t, sub, 0) && Counts(t, 1) && BeginDisconnect in t.tasks && SoftReset in RunMonitor(s, Expired).tasks
  {
  }

  lemma Departs(s: State, sub: Subscription)
    requires OneSub(s, sub, 0) && Counts(s, 1) && sub.Subscribed()
    ensures var t := RunBeginDisconnect(s); OneSub(t, sub, 0) && Counts(t, 1) && UnsubscribeAll in t.tasks
  {
    assert s.subs[0] in s.subs;
  }

  /** A soft reset has sent its UNSUBSCRIBE. */
  lemma Unsubscribing() returns (s: State)
    ensures Reached(s) && OneSub(s, Subscription(0, false, 2, 2), 0)
  {
    var sub := Subscription(0, true, 0, 1);
    var a := Subscribed();
    Expires(a, sub);
    var b := ReachedStep(a, MonitorTask(Expired));
    var c := ReachedStep(b, SoftResetTask);
    Departs(c, sub);
    var d := ReachedStep(c, BeginDisconnectTask);
    UnsubscribeSends(d, sub);
    s := ReachedStep(d, UnsubscribeTask(true, true));
  }
}
