/** IBCRawPacketHandler: publishes a contract's raw IBC packet on one of the contract's
    channels, after a fixed sequence of checks (channel and packet semantics of ICS 004). */
module IbcHandler {
  import opened Types
  import opened Ledger

  /** What the checks establish before a packet is built: the next send sequence, the channel
      and the capability the contract's port holds for it. */
  datatype SendPlan = SendPlan(sequence: uint64, channel: Channel, capability: Capability)

  /** The checks of the handler, in the source's order; the first that fails decides the error. */
  function CheckSendPacket(env: Env, portId: string, msg: CosmosMsg): (r: Result<SendPlan, Error>) {
    if !msg.IbcSendPacket? then
      Failure(Registered(ErrUnknownMsg))
    else if portId == "" then
      Failure(Wrapped("ibc not supported", Registered(ErrUnsupportedForContract)))
    else if msg.channelId == "" then
      Failure(Wrapped("ibc channel", Registered(ErrEmpty)))
    else if (portId, msg.channelId) !in env.nextSequenceSend then
      Failure(Wrapped("source port: " + portId + ", source channel: " + msg.channelId,
                      Registered(ErrSequenceSendNotFound)))
    else if (portId, msg.channelId) !in env.channels then
      Failure(Wrapped("not found", Registered(ErrInvalidChannel)))
    else if ChannelCapabilityPath(portId, msg.channelId) !in env.capabilities then
      Failure(Wrapped("module does not own channel capability", Registered(ErrChannelCapabilityNotFound)))
    else
      Success(SendPlan(env.nextSequenceSend[(portId, msg.channelId)],
                       env.channels[(portId, msg.channelId)],
                       env.capabilities[ChannelCapabilityPath(portId, msg.channelId)]))
  }

  /** The packet the handler submits for a send-packet message once the checks pass. */
  function NewPacket(env: Env, portId: string, msg: CosmosMsg, plan: SendPlan): (p: Packet)
    requires msg.IbcSendPacket?
  {
    Packet(msg.data, plan.sequence, portId, msg.channelId,
           plan.channel.counterparty.portId, plan.channel.counterparty.channelId,
           env.convertTimeoutHeight(msg.timeout.block), msg.timeout.timestamp)
  }

  /** IBCRawPacketHandler.DispatchMsg, given the calls made before it. */
  function IbcRawPacketSpec(env: Env, before: seq<Call>, portId: string, msg: CosmosMsg): (o: Traced<DispatchResult>) {
    match CheckSendPacket(env, portId, msg)
    case Failure(e) => Traced(Failed(e), [])
    case Success(plan) =>
      var packet := NewPacket(env, portId, msg, plan);
      Traced(DispatchResult([], [], env.sendPacket(before, plan.capability, packet)),
             [SendPacketCall(plan.capability, packet)])
  }

  method DispatchIbcRawPacket(host: Host, portId: string, msg: CosmosMsg) returns (r: DispatchResult)
    modifies host
    ensures var o := IbcRawPacketSpec(host.env, old(host.calls), portId, msg);
      r == o.result && host.calls == old(host.calls) + o.calls
  {
    var plan := CheckSendPacket(host.env, portId, msg);
    if plan.Failure? {
      return Failed(plan.error);
    }
    var packet := NewPacket(host.env, portId, msg, plan.value);
    var err := host.SendPacket(plan.value.capability, packet);
    r := DispatchResult([], [], err);
  }

  // ---------------------------------------------------------------------------
  // Lemmas

  /** The checks in order: a message of another variant is ErrUnknownMsg, then an empty port,
      an empty channel, a missing sequence, a missing channel and a missing capability each
      give their own error; each of these failures makes no call. */
  lemma ChecksInOrder(env: Env, before: seq<Call>, portId: string, msg: CosmosMsg)
    ensures var o := IbcRawPacketSpec(env, before, portId, msg);
      && (!msg.IbcSendPacket? ==> o == Traced(Failed(Registered(ErrUnknownMsg)), []))
      && (msg.IbcSendPacket? && portId == "" ==>
            o.calls == [] && Is(o.result.err.value, ErrUnsupportedForContract))
      && (msg.IbcSendPacket? && portId != "" && msg.channelId == "" ==>
            o.calls == [] && Is(o.result.err.value, ErrEmpty))
      && (msg.IbcSendPacket? && portId != "" && msg.channelId != ""
          && (portId, msg.channelId) !in env.nextSequenceSend ==>
            o.calls == [] && Is(o.result.err.value, ErrSequenceSendNotFound))
      && (msg.IbcSendPacket? && portId != "" && msg.channelId != ""
          && (portId, msg.channelId) in env.nextSequenceSend
          && (portId, msg.channelId) !in env.channels ==>
            o.calls == [] && Is(o.result.err.value, ErrInvalidChannel))
      && (msg.IbcSendPacket? && portId != "" && msg.channelId != ""
          && (portId, msg.channelId) in env.nextSequenceSend
          && (portId, msg.channelId) in env.channels
          && ChannelCapabilityPath(portId, msg.channelId) !in env.capabilities ==>
            o.calls == [] && Is(o.result.err.value, ErrChannelCapabilityNotFound))
      && (o.result.err.Some? && o.calls == [] ==> o.result.events == [] && o.result.data == [])
  {
  }

  /** SendPacket is called exactly when every check passes, once, with the capability the
      contract's port holds for the channel and a packet whose sequence is the store's next
      send sequence, whose source is the contract's port and the message's channel, whose
      destination is the channel's counterparty and whose payload and timeouts are the
      message's. The handler returns no events, no data and SendPacket's error. */
  lemma PacketSubmitted(env: Env, before: seq<Call>, portId: string, msg: CosmosMsg)
    ensures var o := IbcRawPacketSpec(env, before, portId, msg);
      o.calls != [] <==>
        && msg.IbcSendPacket? && portId != "" && msg.channelId != ""
        && (portId, msg.channelId) in env.nextSequenceSend
        && (portId, msg.channelId) in env.channels
        && ChannelCapabilityPath(portId, msg.channelId) in env.capabilities
    ensures var o := IbcRawPacketSpec(env, before, portId, msg);
      o.calls != [] ==>
        && |o.calls| == 1 && o.calls[0].SendPacketCall?
        && var p := o.calls[0].packet;
        && var counterparty := env.channels[(portId, msg.channelId)].counterparty;
        && o.calls[0].capability == env.capabilities[ChannelCapabilityPath(portId, msg.channelId)]
        && p.sequence == env.nextSequenceSend[(portId, msg.channelId)]
        && p.sourcePort == portId && p.sourceChannel == msg.channelId
        && p.destinationPort == counterparty.portId && p.destinationChannel == counterparty.channelId
        && p.data == msg.data
        && p.timeoutHeight == env.convertTimeoutHeight(msg.timeout.block)
        && p.timeoutTimestamp == msg.timeout.timestamp
        && o.result == DispatchResult([], [], env.sendPacket(before, o.calls[0].capability, p))
  {
  }
  /** The handler answers ErrUnknownMsg after submitting the packet exactly when every check
      passed and SendPacket's error wraps ErrUnknownMsg; the chain then skips it although the
      packet call was made. */
  lemma UnknownAfterSend(env: Env, before: seq<Call>, portId: string, msg: CosmosMsg)
    ensures var o := IbcRawPacketSpec(env, before, portId, msg);
      (o.calls != [] && o.result.err.Some? && Is(o.result.err.value, ErrUnknownMsg)) <==>
        && CheckSendPacket(env, portId, msg).Success?
        && var plan := CheckSendPacket(env, portId, msg).value;
        && var sent := env.sendPacket(before, plan.capability, NewPacket(env, portId, msg, plan));
        && sent.Some? && Is(sent.value, ErrUnknownMsg)
  {
  }
}
