/** The burn handler (NewBurnCoinMessageHandler): moves the coins of a bank burn message from
    the contract to the wasm module account, then burns them there. */
module BurnHandler {
  import opened Types
  import opened Ledger

  /** The burn handler's DispatchMsg, given the calls made before it. */
  function BurnSpec(env: Env, before: seq<Call>, contract: Addr, msg: CosmosMsg): (o: Traced<DispatchResult>) {
    if !msg.BankBurn? then
      Traced(Failed(Registered(ErrUnknownMsg)), [])
    else match env.convertCoins(msg.amount)
      case Failure(e) => Traced(Failed(e), [])
      case Success(coins) =>
        var transfer := SendCoinsFromAccountToModuleCall(contract, MODULE_NAME, coins);
        match env.sendCoinsToModule(before, contract, MODULE_NAME, coins)
        case Some(e) => Traced(Failed(Wrapped("transfer to module", e)), [transfer])
        case None =>
          var burn := BurnCoinsCall(MODULE_NAME, coins);
          match env.burnCoins(before + [transfer], MODULE_NAME, coins)
          case Some(e) => Traced(Failed(Wrapped("burn coins", e)), [transfer, burn])
          case None => Traced(DispatchResult([], [], None), [transfer, burn])
  }

  method DispatchBurn(host: Host, contract: Addr, msg: CosmosMsg) returns (r: DispatchResult)
    modifies host
    ensures var o := BurnSpec(host.env, old(host.calls), contract, msg);
      r == o.result && host.calls == old(host.calls) + o.calls
  {
    if !msg.BankBurn? {
      return Failed(Registered(ErrUnknownMsg));
    }
    var coins := host.env.convertCoins(msg.amount);
    if coins.Failure? {
      return Failed(coins.error);
    }
    var err := host.SendCoinsFromAccountToModule(contract, MODULE_NAME, coins.value);
    if err.Some? {
      return Failed(Wrapped("transfer to module", err.value));
    }
    err := host.BurnCoins(MODULE_NAME, coins.value);
    if err.Some? {
      return Failed(Wrapped("burn coins", err.value));
    }
    r := DispatchResult([], [], None);
  }

  // ---------------------------------------------------------------------------
  // Lemmas

  /** A message other than a bank burn is ErrUnknownMsg and touches no ledger; a coin conversion
      error is returned as it is, also before any ledger call. */
  lemma BurnRecognition(env: Env, before: seq<Call>, contract: Addr, msg: CosmosMsg)
    ensures !msg.BankBurn? ==> BurnSpec(env, before, contract, msg) == Traced(Failed(Registered(ErrUnknownMsg)), [])
    ensures msg.BankBurn? && env.convertCoins(msg.amount).Failure? ==>
      BurnSpec(env, before, contract, msg) == Traced(Failed(env.convertCoins(msg.amount).error), [])
  {
  }

  /** For a burn whose amount converts: the first ledger call moves exactly those coins from the
      contract to the wasm module account; BurnCoins is called second, on the same coins from the
      same module account, and only if the transfer succeeded. A failure of either call is
      returned wrapped with its label (its kind still visible to errors.Is); success returns no
      events, no data and no error. */
  lemma BurnCallOrder(env: Env, before: seq<Call>, contract: Addr, msg: CosmosMsg)
    requires msg.BankBurn? && env.convertCoins(msg.amount).Success?
    ensures var o := BurnSpec(env, before, contract, msg);
      var coins := env.convertCoins(msg.amount).value;
      var transferErr := env.sendCoinsToModule(before, contract, MODULE_NAME, coins);
      && 1 <= |o.calls| <= 2
      && o.calls[0] == SendCoinsFromAccountToModuleCall(contract, MODULE_NAME, coins)
      && (|o.calls| == 2 <==> transferErr.None?)
      && (|o.calls| == 2 ==> o.calls[1] == BurnCoinsCall(MODULE_NAME, coins))
      && (transferErr.Some? ==>
            o.result == Failed(Wrapped("transfer to module", transferErr.value)))
      && (transferErr.None? ==>
            var burnErr := env.burnCoins(before + [o.calls[0]], MODULE_NAME, coins);
            o.result == if burnErr.Some? then Failed(Wrapped("burn coins", burnErr.value))
                        else DispatchResult([], [], None))
      && (forall k :: o.result.err.Some? && Is(o.result.err.value, k) ==>
            (transferErr.Some? && Is(transferErr.value, k))
            || (transferErr.None? && Is(env.burnCoins(before + [o.calls[0]], MODULE_NAME, coins).value, k)))
  {
  }
  /** The handler answers ErrUnknownMsg after a ledger call exactly when the transfer failed with
      an error wrapping ErrUnknownMsg, or the transfer succeeded and the burn failed with one;
      the chain then skips it although the calls were made. */
  lemma UnknownAfterLedgerCall(env: Env, before: seq<Call>, contract: Addr, msg: CosmosMsg)
    ensures var o := BurnSpec(env, before, contract, msg);
      (o.calls != [] && o.result.err.Some? && Is(o.result.err.value, ErrUnknownMsg)) <==>
        && msg.BankBurn? && env.convertCoins(msg.amount).Success?
        && var coins := env.convertCoins(msg.amount).value;
        && var transferErr := env.sendCoinsToModule(before, contract, MODULE_NAME, coins);
        && var burnErr := env.burnCoins(before + [SendCoinsFromAccountToModuleCall(contract, MODULE_NAME, coins)],
                                        MODULE_NAME, coins);
        && ((transferErr.Some? && Is(transferErr.value, ErrUnknownMsg))
            || (transferErr.None? && burnErr.Some? && Is(burnErr.value, ErrUnknownMsg)))
  {
  }
}
