# Verified model of the reverse proxy's transport, scheduler and wire codec

This project models the parts of the OPC reverse proxy that move bytes and schedule work, and proves what
they guarantee. `dafny verify dfyconfig.toml` checks all of it.

| Component | Files |
|---|---|
| Three-state buffer queue and WebSocket stream | `IoQueue`, `WsFrames`, `WsOutbound`, `WsOutboundRuns`, `WsResults`, `WsInbound`, `WsInboundRuns`, `WsEndToEnd` |
| MQTT connection, quality of service 1 | `Mqtt`, `MqttRuns`, `MqttUpkeep`, `MqttConnection` |
| Scheduler with its wake-up signal | `Scheduler`, `SchedulerRuns` |
| Reference counted buffer pools | `BufferPool`, `BufferPoolRuns` |
| Byte ring between two threads | `RingBuffer`, `RingBufferRuns` |
| Message codec | `WireTokens`, `WireTypes`, `WireOptions`, `WireMessages`, `WireDecoded`, `WireBrowse`, `WireArrival`, `WireEncoders` |
| CRC-32 | `Crc32Table`, `Crc32` |
| Shared | `Prelude`, `Completion` |

Each component has two layers. Classes hold the fields the C structures hold; their methods follow the C
functions branch by branch and are proved against specification functions on values. The `...Runs` modules
put those functions into step machines whose steps are the critical sections of the C code, interleaved in
any order, and prove invariants of every reachable state. `Reached(t)` says that some sequence of enabled
steps leads from the initial state to `t`. Fields such as `created`, `offered`, `accepted`, `ran` or `raised`
record history; nothing in the C code reads them.

Conventions:

- Time, memory, socket results and the decisions of callbacks are parameters of methods and steps
  (`ticks`, `budget`, `mallocs`, `available`, `ok`, `code`, `verdict`).
- Counters that are only compared with small numbers are unbounded; where width matters it is written out
  (16-bit packet ids, the 32-bit truncation of tick differences, 32-bit lengths on the wire).
- Encoded messages are lists of MessagePack tokens. The tokens of a value are given as a function of the
  tokens that follow it, so a round trip says what is decoded and what is left.

What does not hold is stated too. Where a promise fails, a lemma gives the exact condition under which it
holds, and another a run or an input for which it fails:

- A rollback while the socket holds a buffer, a rollback in the middle of moving finished frames, a connection
  dropped by the peer, and a stream reset in the middle of a message break the order or the framing of
  outbound frames.
- A receiver that stops early leaves whole frames in front of the next message; a connection reset clears the
  delivery tasks of messages that are already complete. A stream reset makes a pending delivery fail, and one
  in the middle of an incoming message cuts off its head.
- A broker message that arrives before the CONNACK can leave the MQTT send pump without anything to drive it.
  Subscriptions given up for a soft reset can stay so if the answer comes after the next CONNACK.
- A delay of 2^31 ms fires at once and an entry overdue by more than 2^31 ms is held back.
- The last release of the scheduler can make the worker exit with work queued, if it falls between a fetch
  that found nothing and the look at the stop flag.
- Pool signals are decided on alternately but delivered outside the lock, so they can arrive swapped. A high
  watermark at or above the maximum is never exceeded, so the high signal never comes. A growth that failed
  is not tried again until a buffer comes back.
- The ring's emptiness test misses an empty ring whose reader stopped at the end after the writer wrapped.
- The option table survives the wire exactly when each used slot holds the option of its own number. A null
  property in an option message decodes to a type that cannot be encoded. Browse requests of a newer version
  are refused by the encoder and accepted by the decoder. The codec header says that ending a type skips
  unread properties; the MessagePack implementation does not, and the model follows it: one property more at
  the end of a message stays in the stream, and one inside a reference makes the message undecodable.

## Model

| member | source | states |
|---|---|---|
| IoQueue.Queue.constructor | src/io_queue.c:441-474 | the three lists of a new queue are empty and no callback has run |
| IoQueue.Queue.SetReady | src/io_queue.c:159-173 | a buffer goes to the tail of ready, the other lists and the calls are unchanged |
| IoQueue.Queue.SetInprogress | src/io_queue.c:159-173 | a buffer goes to the tail of in progress only |
| IoQueue.Queue.SetDone | src/io_queue.c:159-173 | a buffer goes to the tail of done only |
| IoQueue.Queue.PopReady | src/io_queue.c:193-212 | the oldest ready buffer, or nothing when there is none |
| IoQueue.Queue.PopInprogress | src/io_queue.c:193-212 | the oldest buffer in progress, or nothing |
| IoQueue.Queue.PopDone | src/io_queue.c:193-212 | the oldest done buffer, or nothing |
| IoQueue.Queue.Rollback | src/io_queue.c:547-558 | everything in progress is put back, in order, in front of what is ready |
| IoQueue.Queue.ReleaseBuffer | src/io_queue.c:124-154 | a callback still attached runs once with the aborted code |
| IoQueue.Queue.AbortList | src/io_queue.c:251-260 | a list keeps its buffers and order; each attached callback runs once, aborted, and is detached |
| IoQueue.Queue.Abort | src/io_queue.c:563-574 | the same for done, then in progress, then ready |
| IoQueue.Queue.ReleaseList | src/io_queue.c:217-231 | releasing a list runs each attached callback once, in order |
| IoQueue.Queue.ReleaseAll | src/io_queue.c:236-246 | all three lists are emptied and every attached callback has run once |
| WsFrames.ParseConcat | src/io_ws.c:383-425 | frames after which no bytes of a message are pending parse on their own (fragmentation of section 5.4 of RFC 6455) |
| WsFrames.ParseFragments | src/io_ws.c:542-587 | fragments without a last frame only extend the open message |
| WsFrames.FlowCarriesMessages | src/io_ws.c:542-587 | the messages depend on bytes and message ends only: frames that carry a prefix of those of others carry a prefix of their messages |
| WsOutbound.FramingCompose | src/io_ws.c:192-254 | two writes after each other frame the bytes as one write of both would |
| WsOutbound.MessageComplete | src/io_ws.c:1015-1030 | full fragments followed by the flushed buffer are exactly one message and parse back into its bytes |
| WsOutbound.Stream.Put | src/io_ws.c:192-254 | one round of the writer takes bytes up to the end of a 4096-byte frame and queues a frame that is full |
| WsOutbound.Stream.StreamWrite | src/io_ws.c:192-254 | any write turns bytes into full fragments plus a current buffer with the rest, whose concatenation is what was written; out of buffers it stops with what was accepted |
| WsOutbound.Stream.WriteAll | src/io_ws.c:192-254 | any sequence of writes frames their concatenation, or a prefix of it up to the write that failed |
| WsOutbound.Stream.Send | src/io_ws.c:999-1040 | a send queues exactly one message carrying the callback, or runs the callback at once |
| WsOutbound.Stream.OnBeginSend | src/io_ws.c:592-620 | hands out the oldest ready buffer |
| WsOutbound.Stream.OnEndSend | src/io_ws.c:625-666 | the buffer goes in progress; if it was sent and ended a message, everything in progress becomes done, in order |
| WsOutbound.Stream.DeliverSendResults | src/io_ws.c:430-462 | every done buffer is reported once with its code, oldest first, and released |
| WsOutbound.Stream.Disconnect | src/io_ws.c:71-85 | unfinished frames return to ready in their original order |
| WsOutbound.Stream.Free | src/io_ws.c:270-323 | every callback still attached runs once, aborted |
| WsOutboundRuns.FramesStayInOrder | src/io_ws.c:592-666 | in every run, reported, done, in progress, handed out and ready frames are the frames created, in order; between moves what is finished ends with a whole message, unless a rollback cut a move |
| WsOutboundRuns.FramesCarryMessages | src/io_ws.c:192-254 | in every run the frames are 4096-byte fragments and last frames of 1 to 4096 bytes, and parse into exactly the messages flushed |
| WsOutboundRuns.RollbackResendsWholeMessages | src/io_queue.c:547-558 | a rollback at any moment, in the middle of a move too, makes exactly the messages not moved ready again exactly when the last frame moved ended a message; between moves, with no move cut before, that is always so |
| WsOutboundRuns.ConnectionCarriesWholeMessages | src/io_ws.c:71-85 | a connection that began on a message boundary, after a rollback or a drop by the peer, carries the messages from there on, whole and in order |
| WsOutboundRuns.CallbacksRunOnce | src/io_queue.c:124-154 | each completion callback runs at most once in every run, and exactly once by the time the queue is freed |
| WsResults.SendersAreToldTheResult | src/io_ws.c:430-462 | in every run a report hands a sender the result of the latest send of its frame, an abort or release hands it aborted, a send that queued nothing its own result; nothing else runs a callback |
| WsResults.SmoothRunsReportSuccess | src/io_ws.c:430-462 | in every run in which all sends succeed and nothing is aborted, refused or released, every callback is told success |
| WsOutboundRuns.SweepRuns | src/io_ws.c:645-657 | the rounds after the last frame of a message can always move everything in progress to done |
| WsOutboundRuns.RollbackWhileHandedOut | src/io_queue.c:547-558 | at any moment a rollback keeps the order exactly when the socket holds no buffer or nothing is in progress |
| WsOutboundRuns.RollbackCanReorder | src/io_queue.c:547-558 | there is a run in which a rollback changes the order |
| WsOutboundRuns.RollbackCanCutAMove | src/io_ws.c:645-657 | there is a run in which a rollback in the middle of a move resends the last frame of a message alone |
| WsOutboundRuns.RemoteDropStartsOnBoundary | src/io_ws.c:467-493 | after a drop by the peer the next connection starts on a message boundary exactly when the last frame in progress, or with none in progress the last one moved, ended a message |
| WsOutboundRuns.RemoteDropCanCutAMessage | src/io_ws.c:467-493 | there is a run in which it starts in the middle of a message |
| WsOutboundRuns.ResetDiscardsOpenMessage | src/io_ws.c:167-187 | a stream reset discards the open message exactly when no fragment of it was queued |
| WsOutboundRuns.ResetCanLeaveFragments | src/io_ws.c:167-187 | there is a run in which a stream reset leaves the first frames of a message queued |
| WsInbound.FirstMessage | src/io_ws.c:383-405 | the position after the first frame that ends a message; one message fewer remains behind it |
| WsInbound.Stream.OnEndReceive | src/io_ws.c:542-587 | a received frame becomes ready; a delivery is scheduled when it ends a message, a disconnect on errors other than abort |
| WsInbound.Stream.ReadRound | src/io_ws.c:90-151 | a round of the reader takes the next bytes of one frame and releases a frame that is used up |
| WsInbound.Stream.StreamRead | src/io_ws.c:90-151 | reads exactly the next bytes across frame boundaries, with the reading code when fewer are there |
| WsInbound.Stream.TakeMessage | src/io_ws.c:383-405 | moves the frames of one message from ready and counts its bytes |
| WsInbound.Stream.Receive | src/io_ws.c:405-417 | reads of any sizes give the stream's bytes in order, all of it if enough is asked for |
| WsInbound.Stream.DeliverStream | src/io_ws.c:383-425 | the receiver is offered left-over bytes and then one message; the frames behind the one it stops in are left, the unread rest of that frame is dropped |
| WsInbound.Stream.Drain | src/io_ws.c:167-187 | a stream reset empties the ready list, each callback attached to it runs once, and the frames being read are kept |
| WsInboundRuns.DeliveryFindsMessage | src/io_ws.c:383-405 | in every run in which no stream reset dropped a complete message, a delivery finds one in ready |
| WsInboundRuns.StreamsAreMessages | src/io_ws.c:383-425 | for any framing and read sizes, the streams offered since the last stream reset are the messages received, in order, exactly when nothing was left over before any of them |
| WsInboundRuns.LeftoverPrecedesNextMessage | src/io_ws.c:405-425 | in every run the k-th stream since the last stream reset is what was left over followed by the k-th message, and what was left over is the end of the stream before |
| WsInboundRuns.LeftoverCanPrecede | src/io_ws.c:405-425 | there is a run in which the second stream begins with the first message |
| WsInboundRuns.ReceiverReadsItsStream | src/io_ws.c:405-425 | the present receiver has read a prefix of its stream, and all of it exactly when nothing remains |
| WsInboundRuns.StoppingDropsOneFrame | src/io_ws.c:405-425 | in every run, what a receiver has read, the unread rest of the frame it stops in and what is left for the next one are its stream |
| WsInboundRuns.DeliveriesAreAccounted | src/io_ws.c:351-425 | over all runs, complete messages ready or dropped by stream resets are as many as deliveries pending or cleared by connection resets |
| WsInboundRuns.ResetForgetsDeliveries | src/io_ws.c:351-378 | there is a run in which a connection reset leaves a complete message without a delivery |
| WsInboundRuns.DrainIsSafe | src/io_ws.c:167-187 | after a stream reset some run makes a delivery fail for want of a message exactly when a delivery was pending |
| WsInboundRuns.DrainCanCrash | src/io_ws.c:167-187 | there is such a run |
| WsInboundRuns.DrainKeepsLaterMessages | src/io_ws.c:167-187 | after a stream reset every continuation offers the later messages whole exactly when no bytes of an incomplete message had arrived |
| WsInboundRuns.DrainCanBehead | src/io_ws.c:167-187 | there is a run, with no delivery pending, in which the next stream lacks the head of its message |
| WsEndToEnd.ReceiverGetsSentMessages | src/io_ws.c:383-425 | a receiver that saw any prefix of the bytes and message ends of such a connection, however cut into frames, and left nothing over is offered the sender's messages in order |
| Mqtt.NextIdIsIdAt | src/io_mqtt.c:201-208 | the counter issues 1, 2, ..., 65535, 1, ... and never zero (section 2.3.1 of MQTT 3.1.1) |
| Mqtt.IdsRepeat | src/io_mqtt.c:201-208 | two ids are equal exactly when a multiple of 65535 was issued between them |
| Mqtt.FindId | src/io_mqtt.c:588-599 | the first queued message with the id |
| Mqtt.FirstUnpublished | src/io_mqtt.c:398-410 | the first message not published |
| MqttConnection.Connection.constructor | src/io_mqtt.c:1404-1462 | a new connection is reset, with nothing queued, subscribed or scheduled |
| MqttConnection.Connection.NextPktId | src/io_mqtt.c:201-208 | the 16-bit counter advances and skips zero |
| MqttConnection.Connection.Publish | src/io_mqtt.c:1273-1349 | a message is queued with a fresh id and a publish is scheduled; without memory for its record nothing changes, without memory for the rest an id is used up and the callback runs at once |
| MqttConnection.Connection.PublishMessageTask | src/io_mqtt.c:389-421 | the first message not published goes out when connected; a failed send unpublishes it and resets |
| MqttConnection.Connection.HandlePublishAck | src/io_mqtt.c:578-619 | the first message with the id leaves the queue and its callback runs with success; an unknown id resets |
| MqttConnection.Connection.Collect | src/io_mqtt.c:258-288 | the payload is the set of subscriptions in the wanted state that wait for nothing |
| MqttConnection.Connection.MarkWaiting | src/io_mqtt.c:298-307 | exactly those subscriptions are flipped and wait for the packet |
| MqttConnection.Connection.SendPacket | src/io_mqtt.c:268-311 | one packet for all of them, or a reset without memory or when the send fails |
| MqttConnection.Connection.SubscribeAllTask | src/io_mqtt.c:248-311 | sends one SUBSCRIBE for everything not subscribed, or nothing |
| MqttConnection.Connection.UnsubscribeAllTask | src/io_mqtt.c:316-384 | sends one UNSUBSCRIBE for everything subscribed; with nothing left a disconnect goes on |
| MqttConnection.Connection.HandleSubscribeAck | src/io_mqtt.c:624-658 | what waits on the id becomes subscribed; a failure resets |
| MqttConnection.Connection.HandleUnsubscribeAck | src/io_mqtt.c:663-687 | what waits on the id no longer waits; a disconnect goes on |
| MqttConnection.Connection.HandleConnectAck | src/io_mqtt.c:692-733 | an accepted connection schedules subscribing, publishing and monitoring; a refused one resets |
| MqttConnection.Connection.HandleMessage | src/io_mqtt.c:519-528 | a message while connecting counts as connected and nothing is scheduled; otherwise the state is unchanged |
| MqttConnection.Connection.Disconnect | src/io_mqtt.c:882-927 | nothing is published, subscribed, waiting or scheduled any more; the queue keeps its messages |
| MqttConnection.Connection.HardResetTask | src/io_mqtt.c:1071-1103 | disconnects and schedules a reconnect, or frees a closing connection |
| MqttConnection.Connection.Close | src/io_mqtt.c:1467-1504 | every queued callback runs once, aborted, oldest first; then the disconnect and the release are scheduled |
| MqttRuns.PumpNeverStalls | src/io_mqtt.c:389-421 | in every run, connected with an unpublished message, a publish or a reset is scheduled or an ack is awaited, or a message came before the CONNACK of this connection |
| MqttRuns.MessagesGoOutInOrder | src/io_mqtt.c:389-421 | published messages are a prefix of the queue and went out in queue order (section 4.6 of MQTT 3.1.1) |
| MqttRuns.PublishedMeansSent | src/io_mqtt.c:389-421 | in every run a queued message is marked published exactly when it was sent since the last reset |
| MqttRuns.PublishSendsTheOldest | src/io_mqtt.c:389-421 | a publish task sends a message exactly when connected, one waits and the send succeeds; then the oldest one alone, and only its mark changes |
| MqttRuns.ResetStartsOver | src/io_mqtt.c:907-923 | in every run a reset connection has no client, nothing published, no subscription active or waiting, and nothing scheduled but a publish, a reset or a reconnect |
| MqttRuns.MessagesAreKept | src/io_mqtt.c:907-923 | over any run without acknowledgements and a close, with any resets and reconnects, the queue keeps its messages in order and only grows at its end |
| MqttRuns.SubscriptionsAreKept | src/io_mqtt.c:907-923 | over any run without a release, with any resets and reconnects, every subscription stays, in order |
| MqttRuns.CallbacksRunOnce | src/io_mqtt.c:1482-1489 | each callback runs at most once in every run, and exactly once by the time the connection is closed |
| MqttRuns.CallbacksTellTheResult | src/io_mqtt.c:588-605 | callbacks run with success for the message acknowledged, aborted for those queued at a close, out of memory for one refused; nothing else runs any |
| MqttRuns.AckRemovesNamedMessage | src/io_mqtt.c:588-605 | an acknowledgement removes the message it names exactly when no earlier one is a multiple of 65535 ids older |
| MqttRuns.AcksAreUnambiguous | src/io_mqtt.c:588-605 | so it does while fewer ids than that were issued since the oldest message |
| MqttRuns.WaitingIsForOnePacket | src/io_mqtt.c:276-307 | what waits on an id is what the packet with that id carried, in its direction |
| MqttRuns.AckSettlesItsPacket | src/io_mqtt.c:624-687 | a successful ack settles exactly those subscriptions, and no other |
| MqttRuns.MessageBeforeConnAck | src/io_mqtt.c:507-528 | after a message before the CONNACK, some run sends a message before a CONNACK, another publish or a PUBACK exactly when a publish task was already pending and a message waiting |
| MqttRuns.MessageBeforeConnAckCanStall | src/io_mqtt.c:507-528 | there is a run that ends up connected with a message waiting, nothing sent and only the monitor scheduled |
| MqttRuns.ClosedStaysSilent | src/io_mqtt.c:1467-1504 | whatever happens after the close, the queue stays empty and no callback runs |
| MqttUpkeep.SubscriptionsAreRenewed | src/io_mqtt.c:692-733 | in every run, connected, a subscription neither active nor waiting has a subscribe or a reset scheduled, unless a message came before the CONNACK or all were given up since the last reset |
| MqttUpkeep.GivenUpCanStay | src/io_mqtt.c:663-687 | there is a run in which a subscription given up stays so while connected |
| MqttUpkeep.SubscribesWhatIsIdle | src/io_mqtt.c:248-311 | the packet of a subscribe task names exactly the subscriptions neither active nor waiting, and exactly those wait for it then |
| MqttUpkeep.ConnectionIsWatched | src/io_mqtt.c:426-501 | in every run a connecting or connected connection has its monitor or a reset scheduled |
| MqttUpkeep.ScheduledStays | src/io_mqtt.c:907-923 | over any run a scheduled task stays so until it runs, or a hard reset or the release comes |
| MqttUpkeep.BreakdownIsReset | src/io_mqtt.c:578-733 | after a lost, refused or timed out connection, a failed subscribe or an ack out of step, a hard reset or the release is scheduled until it happens |
| MqttUpkeep.OneLeadsToTheNext | src/io_mqtt.c:1071-1103 | over any run, a reset leads to the reconnect or the release, an expired token or a failed publish to the soft reset, that to giving up subscriptions and the disconnect, a close to the release |
| Scheduler.Position | src/prx_sched.c:368-381 | the first entry due later than the new one |
| Scheduler.InsertKeepsSorted | src/prx_sched.c:364-387 | the delayed list stays sorted by deadline, ties in the order queued |
| Scheduler.InsertAdds | src/prx_sched.c:364-387 | inserting adds the entry and loses none |
| Scheduler.FetchIsTimely | src/prx_sched.c:157-208 | for any sorted list, a fetch takes the delayed entry due first, else the oldest immediate one, returns nothing exactly when nothing is immediate or due and never idles past the first deadline, exactly when the signed 32-bit difference to that deadline has the sign of the difference |
| Scheduler.FetchWraps | src/prx_sched.c:176-179 | whatever is queued, the first delayed entry is taken exactly when due, exactly when the deadline lies less than 2^31 ms ahead or at most 2^31 ms back, up to multiples of 2^32 ms |
| Scheduler.ClearSplits | src/prx_sched.c:81-102 | removed and remaining entries are the entries there were |
| Scheduler.ClearKeepsSorted | src/prx_sched.c:81-102 | the remaining delayed entries keep their order |
| Scheduler.ClearKeepsQueued | src/prx_sched.c:81-102 | the remaining immediate entries keep their order |
| Scheduler.ClearIsExact | src/prx_sched.c:427-452 | over both lists, clearing by function and context leaves exactly the entries with another function or another context, by one of them those with another one, by neither nothing |
| Scheduler.TaskScheduler.constructor | src/prx_sched.c:256-315 | both lists are empty and nothing is taken from the pool |
| Scheduler.TaskScheduler.Queue | src/prx_sched.c:322-395 | without delay to the tail of now, else in deadline order; the worker is signalled; without a pool entry nothing changes |
| Scheduler.TaskScheduler.Next | src/prx_sched.c:157-208 | computes the fetch and its idle time |
| Scheduler.TaskScheduler.RemoveByTaskType | src/prx_sched.c:81-102 | splits a list, in order, into entries with the given function and context and those with another one |
| Scheduler.TaskScheduler.Clear | src/prx_sched.c:427-452 | of both lists exactly the entries with another function or another context stay; the others are returned to the pool once each |
| Scheduler.TaskScheduler.RemoveById | src/prx_sched.c:57-76 | removes the entry with the id and says whether there was one |
| Scheduler.TaskScheduler.Kill | src/prx_sched.c:400-422 | removes it from whichever list has it and returns it to the pool |
| Scheduler.TaskScheduler.DoLater | inc/prx_sched.h:97-100 | afterwards exactly one entry of that function and context is pending, and every entry with another function or context as often as before |
| SchedulerRuns.NoLostWakeup | src/prx_sched.c:213-251 | in every interleaving, if the worker sleeps or is about to and something pending is immediate or due before its timeout, the signal is set or a caller is about to set it |
| SchedulerRuns.LastReleaseWakesWorker | src/prx_sched.c:474-478 | a worker asleep without timeout is woken for the last release |
| SchedulerRuns.ImmediateTasksStartInOrder | src/prx_sched.c:188-200 | over whole runs immediate entries start in the order queued |
| SchedulerRuns.DelayedTasksStartOnTime | src/prx_sched.c:168-186 | over whole runs a started task is the one some call asked for; if with a delay, that had passed since the call, by the clock the worker read, exactly when the 32-bit difference tells; it starts early only if 2^31 ms or more were left |
| SchedulerRuns.FetchesAreTimely | src/prx_sched.c:157-208 | in every run the next fetch is timely exactly when that 32-bit difference tells whether the first deadline has passed |
| SchedulerRuns.LongDelayCanStartAtOnce | src/prx_sched.c:176-179 | there is a run in which a task delayed by 2^31 ms starts at once |
| SchedulerRuns.OverdueTaskCanBeHeldBack | src/prx_sched.c:176-179 | there is a run in which the worker finds nothing to run with a task overdue by 2^31 + 1 ms |
| SchedulerRuns.EachTaskHasOneFate | src/prx_sched.c:427-452 | every entry queued is pending, started or removed, exactly one of these, once |
| SchedulerRuns.KillIsExact | src/prx_sched.c:400-422 | in every run, killing a task by its id removes that task if pending, and no other |
| SchedulerRuns.PoolEntriesAccounted | src/prx_sched.c:339-395 | pool entries out are those in both lists, being filled, or running |
| SchedulerRuns.ExitLeavesNothing | src/prx_sched.c:232-241 | unless the last release raced, the worker exits with both lists empty and every pool entry returned |
| SchedulerRuns.LastReleaseIsSafe | src/prx_sched.c:457-479 | a last release can make the worker exit with work queued exactly when it meets a worker that has just found nothing while work was queued since |
| SchedulerRuns.ExitCanStrandATask | src/prx_sched.c:232-241 | there is such a run |
| BufferPool.Pool.constructor | src/prx_buffer.c:108-144 | defaults and watermarks are normalized, nothing is made yet |
| BufferPool.Pool.Grow | src/prx_buffer.c:304-340 | new unreferenced buffers go to the tail of the free list, within the maximum and the memory there is |
| BufferPool.Pool.MakeBuffers | src/prx_buffer.c:498-515 | the loop makes one buffer after the other until enough or out of memory |
| BufferPool.Pool.Alloc | src/prx_buffer.c:162-216 | the head of the free list goes out with one reference, the pool grows when it was the last, low is signalled once; keeps the pool invariant |
| BufferPool.Pool.Free | src/prx_buffer.c:221-247 | the last reference returns the buffer to the tail of the free list, high is signalled once; keeps the pool invariant |
| BufferPoolRuns.BuffersAreConserved | src/prx_buffer.c:162-247 | in every run free and checked out add up to those made, within the maximum, each buffer on exactly one list |
| BufferPoolRuns.FreeMeansUnreferenced | src/prx_buffer.c:221-247 | a buffer is unreferenced exactly when it is free or on its way back |
| BufferPoolRuns.AllocIsExclusive | src/prx_buffer.c:162-216 | a buffer handed out had no holder and now has one; no other count changes |
| BufferPoolRuns.AllocFailsOnlyWhenExhausted | src/prx_buffer.c:186-199 | allocation fails only when the maximum is out, or a growth has failed |
| BufferPoolRuns.SignalsAlternate | src/prx_buffer.c:162-247 | low and high are decided on alternately, starting with low |
| BufferPoolRuns.LowIsSignalled | src/prx_buffer.c:200-208 | in every run, with buffers out and no more than the low watermark free, low was signalled last |
| BufferPoolRuns.AllocSignalsLow | src/prx_buffer.c:200-208 | an allocation raises low exactly when the pool was not low before and no more than the low watermark is free after |
| BufferPoolRuns.ReturnSignalsHigh | src/prx_buffer.c:221-247 | a return raises high exactly when the pool was low before and more than the high watermark is free after |
| BufferPoolRuns.AllocGrowsThePool | src/prx_buffer.c:186-199 | an allocation takes one free buffer and makes more exactly when that was the last: the initial number, as far as maximum and memory allow |
| BufferPoolRuns.SettingsAreKept | src/prx_buffer.c:124-144 | the settings in force in every run are those given, where they make sense together |
| BufferPoolRuns.DeliveryKeepsOrder | src/prx_buffer.c:200-246 | as long as callbacks came in that order, the next can come out of order exactly when two or more are on their way; oldest first keeps the order |
| BufferPoolRuns.SignalsCanSwap | src/prx_buffer.c:200-246 | there is a run in which high is reported before low and the pool has buffers |
| BufferPoolRuns.HighSignalCanCome | src/prx_buffer.c:136-142 | after a low signal some run raises high exactly when there is no maximum or the high watermark is below it |
| BufferPoolRuns.HighSignalCanStayAway | src/prx_buffer.c:136-142 | there is a run after which low was signalled and no run raises high |
| BufferPoolRuns.RefusesExactlyWhenDry | src/prx_buffer.c:186-199 | in every run, whatever memory there is, allocation fails exactly when the growth at the last buffer taken made nothing and no buffer came back since; below the maximum that growth had asked for memory |
| BufferPoolRuns.FailedGrowthIsNotRetried | src/prx_buffer.c:186-199 | from every reachable state of every pool, allocations without memory lead to one that refuses whatever memory there is then |
| RingBuffer.Ring.constructor | src/util_ringbuf.c:21-52 | an empty ring of the given size |
| RingBuffer.Ring.Write | src/util_ringbuf.c:73-133 | appends min(length, free space) bytes to the contents |
| RingBuffer.Ring.Read | src/util_ringbuf.c:179-229 | takes min(length, available) oldest bytes |
| RingBuffer.Ring.IsEmpty | src/util_ringbuf.c:138-151 | true exactly when empty, except with the reader at the end and the writer wrapped to the start |
| RingBuffer.Ring.Clear | src/util_ringbuf.c:156-161 | nothing is left |
| RingBuffer.Ring.Capacity | src/util_ringbuf.c:166-174 | size less contents |
| RingBuffer.Ring.Available | src/util_ringbuf.c:234-243 | length of the contents |
| RingBufferRuns.ReadsFollowWrites | src/util_ringbuf.c:73-229 | with reader and writer interleaved at every copy and position update, the bytes read are a prefix of the bytes written and at most the size is unread |
| RingBufferRuns.WriteTakesWhatFits | src/util_ringbuf.c:73-133 | a finished write appended the head of its buffer, as much as was free by the position it sampled |
| RingBufferRuns.ReadTakesWhatIsThere | src/util_ringbuf.c:179-229 | a finished read took the oldest bytes, as many as were there by the position it sampled |
| RingBufferRuns.EqualPositionsMeanEmpty | src/util_ringbuf.c:138-151 | equal positions mean empty in every reachable state, with the one exception |
| RingBufferRuns.EmptyRingCanLookFilled | src/util_ringbuf.c:138-151 | there is a run with an empty ring and different positions |
| Crc32Table.TableIsRight | src/util_misc.c:106-172 | all 256 entries are eight bit steps of their index |
| Crc32.StepLaws | src/util_misc.c:174-177 | the bit step is linear over exclusive or and injective |
| Crc32.LookupIsFeed | src/util_misc.c:175-176 | one table step feeds the eight bits of a byte, whatever the sign of the character type |
| Crc32.Checksum | src/util_misc.c:101-178 | for every buffer, the bit-serial CRC-32 with polynomial 0xEDB88320 |
| Crc32.CheckValue | src/util_misc.c:101-178 | the digits 1 to 9 have the published check value 0xCBF43926 |
| Crc32.BurstsAreDetected | src/util_misc.c:101-178 | messages of any length that differ only within 32 or fewer consecutive bits have different checksums |
| WireTokens.Context.TypeBegin | src/io_codec.c:1059-1073 | an array header for the members and the place holder; the counter is the number of members |
| WireTokens.Context.Value | src/io_codec.c:931-995 | one token and one member off the counter, which is proved not to underflow |
| WireTokens.Context.Text | src/io_codec.c:1000-1012 | a string token, its length cut to 32 bits |
| WireTokens.Context.Bytes | src/io_codec.c:1017-1030 | a binary token, its length cut to 32 bits |
| WireTokens.Context.Child | src/io_codec.c:1035-1054 | an object member takes one off the counter and writes nothing itself |
| WireTokens.Context.NullChild | src/io_codec.c:1035-1054 | a null object is one nil token |
| WireTokens.Context.Items | src/io_codec.c:1090-1108 | an array header and a context that counts the items |
| WireTypes.RefRoundTrip | src/io_ref.c:249-316 | references survive |
| WireArrival.AddressArrives | src/io_types.c:335-397 | addresses of every family arrive with all their fields, but for the flow label of IPv4, which arrives as zero; unchanged exactly when it was zero |
| WireArrival.PropertyArrives | src/io_types.c:658-776 | properties of every type arrive with all their fields, but for flow labels, missing names and the scope of an IPv6 group; unchanged exactly when those are at rest |
| WireArrival.TableArrives | src/io_types.c:422-494 | for any option table, each option arrives in the slot of its number, the last one if there are several, and the other slots are clear |
| WireArrival.SocketArrives | src/io_types.c:402-499 | socket properties arrive with all their fields and that table; unchanged exactly when options are in place and at rest and unused slots clear |
| WireArrival.MessageArrives | src/io_proto.c:853-926 | every well-formed message of all eight types, request or response, is decoded from its tokens whatever follows, exactly its tokens are consumed, every field arrives but for those no encoder sends, and the very same message arrives exactly when those are at rest |
| WireArrival.RequestArrives | src/io_browse.c:12-57 | browse requests arrive with all their fields; unchanged exactly when the flow label is zero |
| WireArrival.ResponseArrives | src/io_browse.c:62-165 | browse responses arrive with all their fields and any number of properties in order; unchanged exactly when those are at rest |
| WireOptions.TableIsRebuilt | src/io_types.c:422-494 | that is the same table exactly when each used slot holds the option of its own number |
| WireOptions.TableCanChange | src/io_types.c:422-494 | there is a well-formed table that arrives changed |
| WireOptions.ReadOptions | src/io_types.c:474-494 | the decoding loop, for every token stream |
| WireMessages.OtherVersionArrives | src/io_proto.c:889-926 | a message of another version arrives exactly when the version is from 0x00020000 to 0x0002FFFF; members it has more at its end are what the counter has left, and stay in the stream, exactly those; the next object read from there is refused unless the first of them is nil or an array |
| WireMessages.ExtraMemberInsideRefused | src/io_codec.c:1276-1345 | any message with one member more in any of its three references is refused, with the error depending on the reference and the member |
| WireDecoded.DecodedMessagesAreSound | src/io_proto.c:592-671 | from any tokens, a decoded message is well formed and survives being sent on, exactly unless it is an option message with a null property |
| WireDecoded.NullPropertyArrives | src/io_proto.c:592-671 | a set request or get response with a null property is decoded, between any parties, to a message that is not well formed |
| WireDecoded.DecodedSocket | src/io_types.c:455-499 | from any tokens, decoded socket properties are well formed with every option in its own slot |
| WireBrowse.DecodedRequestsCanBeNewer | src/io_browse.c:12-57 | the decoder accepts every version, the encoder exactly the known ones |
| WireBrowse.ReadProps | src/io_browse.c:125-160 | the decoding loop, for every token stream |
| WireEncoders.EncodeRef | src/io_ref.c:249-279 | writes the tokens of a reference, its member counter ends at zero |
| WireEncoders.EncodeInet | src/io_types.c:159-194 | the same for both IP families |
| WireEncoders.EncodeProxy | src/io_types.c:243-263 | the same for proxy addresses |
| WireEncoders.EncodeUnix | src/io_types.c:292-309 | the same for unix addresses |
| WireEncoders.EncodeAddress | src/io_types.c:335-363 | the same for every address; an unknown family is an argument error |
| WireEncoders.EncodeMulticast | src/io_types.c:584-614 | the same for multicast options; an unknown family is a format error |
| WireEncoders.EncodeFile | src/io_types.c:111-130 | the same for file information |
| WireEncoders.EncodeAddrInfo | src/io_types.c:11-28 | the same for address information |
| WireEncoders.EncodeInterface | src/io_types.c:56-77 | the same for interface information |
| WireEncoders.EncodeProperty | src/io_types.c:658-713 | the same for properties; an unknown type is a writing error |
| WireEncoders.CountUsed | src/io_types.c:422-427 | counts the used slots |
| WireEncoders.EncodeOptions | src/io_types.c:432-446 | writes exactly the used slots, the array's counter ends at zero, or stops at the first that cannot be written |
| WireEncoders.EncodeSocket | src/io_types.c:402-450 | writes socket properties, seven members exactly |
| WireEncoders.EncodePing | src/io_proto.c:126-172 | writes a ping request or response |
| WireEncoders.EncodeLinkRequest | src/io_proto.c:200-211 | writes a link request |
| WireEncoders.EncodeLinkResponse | src/io_proto.c:232-244 | writes a link response |
| WireEncoders.EncodeOption | src/io_proto.c:266-336 | writes a set or get option request or a get option response |
| WireEncoders.EncodeOpen | src/io_proto.c:356-373 | writes an open request without the maximum send size |
| WireEncoders.EncodePoll | src/io_proto.c:400-411 | writes a poll message |
| WireEncoders.EncodeData | src/io_proto.c:432-452 | writes a data message |
| WireEncoders.EncodeClose | src/io_proto.c:482-495 | writes a close response |
| WireEncoders.EncodeContent | src/io_proto.c:518-587 | writes the content the type and direction call for, nil where there is none; an unknown type is not supported |
| WireEncoders.EncodeMessage | src/io_proto.c:853-883 | writes a message, eight members exactly |
| WireEncoders.GoodMessagesEncode | src/io_proto.c:518-587 | nothing well formed is refused |
| WireEncoders.RefusesExactlyUnwritable | src/io_proto.c:518-587 | a message is refused exactly when its type is unknown, an address or group has an unknown family, or a property an unknown type |
| WireEncoders.DecodedMessagesEncode | src/io_proto.c:518-671 | from any tokens, a decoded message is accepted by the encoder exactly unless its property was null, which is a writing error |
| WireEncoders.Transfer | src/io_proto.c:853-926 | encoding a well-formed message and decoding the stream, whatever follows, returns all its fields but those not sent, and the very same message exactly when those are at rest |
| WireEncoders.EncodeBrowseRequest | src/io_browse.c:12-34 | writes a browse request; a newer version is a format error |
| WireEncoders.EncodeProps | src/io_browse.c:82-95 | writes every property, the array's counter ends at zero |
| WireEncoders.EncodeBrowseResponse | src/io_browse.c:62-98 | writes a browse response, five members exactly |

## Left out

- The MessagePack byte format and its library, the JSON codec, base64 and file streams: foreign libraries; tokens stand for bytes, and one integer token for all integer formats.
- Decoders other than the two loops are functions from the remaining tokens to a value and the remaining tokens; what a failed decode leaves half filled in place is not modelled.
- Strings of 2^32 - 1 bytes, for which the decoder's length computation wraps to zero: the model reports out of memory.
- Binary data shorter than its fixed array is modelled as padded with zeros; inside an option of the socket properties the C code leaves the rest uninitialized.
- WsInbound.Stream.StreamRead: the count of readable bytes is unbounded, where the C code's unsigned count wraps when a stream holds left-over frames.
- Buffers, messages, subscriptions and entries are values with identities in sequences, not nodes of linked lists; the splice of two list rings in a rollback is modelled by its effect.
- The streams the codec reads from and writes to, and their own errors, beyond the codes passed in.
- WireMessages.OtherVersionArrives: states what the member counter has left at the end of a type, not that a debug build stops there when it is not zero.
- WireMessages.ExtraMemberInsideRefused: states the outcome of a release build; a debug build stops at the end of the reference, with the one member left that the contract names.
- Payload memory of decoded messages, resizing of dynamic buffers, buffer sizes, and the creation, cloning and release of messages.
- SchedulerRuns.NoLostWakeup: the remaining-time computation of a timed wait is not modelled; a timed wait may end at any moment, which only adds runs.
- Scheduler.TaskScheduler.Kill: leaves a write lock through the read side in the C code; the lock is modelled as mutual exclusion.
- The C memory model: position updates of the ring and other shared fields are taken as sequentially consistent.
- Timers, back-off, keep-alive and token renewal of both transports, connection setup, TLS and sockets.
- The unused inet4 and inet6 address helpers, double values, and topic filters of MQTT.
- Hashing, comparison and text form of references; the REST, command line, name service and host modules; platform layers and logging.
