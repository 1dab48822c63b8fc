/** Both ends of a connection together. */
module WsEndToEnd {
  import opened WsFrames
  import Out = WsOutboundRuns
  import In = WsInboundRuns

  /** On a connection that began on a message boundary, a receiver that has seen any prefix of the bytes and message
      ends, however they were cut into frames on the way, and whose receivers left nothing over, is offered
      exactly the sender's messages, in order, from that boundary on. */
  lemma ReceiverGetsSentMessages(sender: Out.State, receiver: In.State)
    requires Out.Reached(sender) && !sender.freed && sender.aligned
    requires In.Reached(receiver) && receiver.from == receiver.base == 0
    requires forall k :: 0 <= k < |receiver.leftovers| ==> receiver.leftovers[k] == []
    requires Flow(receiver.received) <= Flow(sender.wire)
    ensures sender.epoch <= |sender.created|
    ensures Parse(sender.created[..sender.epoch]).messages + receiver.offered <= sender.messages
  {
    Out.ConnectionCarriesWholeMessages(sender);
    In.StreamsAreMessages(receiver);
    assert receiver.received[0..] == receiver.received && receiver.offered[0..] == receiver.offered;
    FlowCarriesMessages(receiver.received, sender.wire);
  }
}
