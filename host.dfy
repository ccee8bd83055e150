/** The host chain during one dispatch: its keepers and routers (fixed oracles) and the
    calls this layer has made into them so far, in order. */
module Ledger {
  import opened Types

  class Host {
    const env: Env
    var calls: seq<Call>

    constructor (env: Env)
      ensures this.env == env && calls == []
    {
      this.env := env;
      calls := [];
    }

    /** Runs the handler a router resolved for `msg`. */
    method InvokeRoute(route: Route, msg: SdkMsg) returns (r: Result<SdkResult, Error>)
      modifies this
      ensures r == env.routeHandler(old(calls), route.handler, msg)
      ensures calls == old(calls) + [RouterCall(route, msg)]
    {
      r := env.routeHandler(calls, route.handler, msg);
      calls := calls + [RouterCall(route, msg)];
    }

    /** ChannelKeeper.SendPacket. */
    method SendPacket(capability: Capability, packet: Packet) returns (err: Option<Error>)
      modifies this
      ensures err == env.sendPacket(old(calls), capability, packet)
      ensures calls == old(calls) + [SendPacketCall(capability, packet)]
    {
      err := env.sendPacket(calls, capability, packet);
      calls := calls + [SendPacketCall(capability, packet)];
    }

    /** Burner.SendCoinsFromAccountToModule. */
    method SendCoinsFromAccountToModule(sender: Addr, recipientModule: string, coins: Coins)
      returns (err: Option<Error>)
      modifies this
      ensures err == env.sendCoinsToModule(old(calls), sender, recipientModule, coins)
      ensures calls == old(calls) + [SendCoinsFromAccountToModuleCall(sender, recipientModule, coins)]
    {
      err := env.sendCoinsToModule(calls, sender, recipientModule, coins);
      calls := calls + [SendCoinsFromAccountToModuleCall(sender, recipientModule, coins)];
    }

    /** Burner.BurnCoins. */
    method BurnCoins(moduleName: string, coins: Coins) returns (err: Option<Error>)
      modifies this
      ensures err == env.burnCoins(old(calls), moduleName, coins)
      ensures calls == old(calls) + [BurnCoinsCall(moduleName, coins)]
    {
      err := env.burnCoins(calls, moduleName, coins);
      calls := calls + [BurnCoinsCall(moduleName, coins)];
    }

    /** A caller-supplied MessageHandlerFunc. */
    method InvokeCustom(handler: HandlerId, contract: Addr, portId: string, msg: CosmosMsg)
      returns (r: DispatchResult)
      modifies this
      ensures r == env.customHandler(old(calls), handler, contract, portId, msg)
      ensures calls == old(calls) + [CustomHandlerCall(handler, contract, portId, msg)]
    {
      r := env.customHandler(calls, handler, contract, portId, msg);
      calls := calls + [CustomHandlerCall(handler, contract, portId, msg)];
    }
  }
}
