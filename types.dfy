/** Values exchanged by the wasm message-dispatch layer: the messages a contract emits,
    the SDK messages they are encoded into, errors, events, IBC packets, the record of
    calls made into the host's keepers and routers, and the host itself as a set of oracles. */
module Types {

  datatype Option<+T> = None | Some(value: T)

  datatype Result<+T, +E> = Success(value: T) | Failure(error: E)

  type Bytes = seq<bv8>

  type uint64 = x: int | 0 <= x < 0x1_0000_0000_0000_0000

  /** An account address (sdk.AccAddress); equality is byte equality, as in AccAddress.Equals. */
  type Addr = Bytes

  /** The wasm module's own name: the module account that holds coins before they are burned. */
  const MODULE_NAME: string := "wasm"

  // ---------------------------------------------------------------------------
  // Errors

  /** The registered errors this layer creates or tests for. Errors registered by other
      modules (bank, router handlers, ...) are `ErrForeign`. */
  datatype ErrorKind =
    | ErrUnknownMsg                 // wasm: this handler does not know the message variant
    | ErrUnsupportedForContract     // wasm
    | ErrEmpty                      // wasm
    | ErrUnauthorized               // sdk
    | ErrPanic                      // sdk
    | ErrUnknownRequest             // sdk
    | ErrSequenceSendNotFound       // ibc channel
    | ErrInvalidChannel             // ibc channel
    | ErrChannelCapabilityNotFound  // ibc channel
    | ErrForeign(codespace: string, code: nat)

  /** A Go error value: a registered error, a registered error wrapped with descriptions
      (sdkerrors.Wrap / Wrapf keep the cause), or an unregistered error. */
  datatype Error =
    | Registered(kind: ErrorKind)
    | Wrapped(description: string, cause: Error)
    | Plain(message: string)

  /** errors.Is: some error on the wrap chain is the registered error `k`. */
  predicate Is(e: Error, k: ErrorKind) {
    match e
    case Registered(k') => k' == k
    case Wrapped(_, cause) => Is(cause, k)
    case Plain(_) => false
  }

  // ---------------------------------------------------------------------------
  // Contract messages (wasmvm CosmosMsg), restricted to the variants this layer inspects

  /** A wasmvm coin: the amount is a decimal string, converted by the host. */
  datatype Coin = Coin(denom: string, amount: string)

  /** An SDK coin after conversion. */
  datatype SdkCoin = SdkCoin(denom: string, amount: nat)

  type Coins = seq<SdkCoin>

  datatype IbcTimeoutBlock = IbcTimeoutBlock(revision: uint64, height: uint64)

  datatype IbcTimeout = IbcTimeout(block: Option<IbcTimeoutBlock>, timestamp: uint64)

  datatype CosmosMsg =
    | BankBurn(amount: seq<Coin>)
    | IbcSendPacket(channelId: string, data: Bytes, timeout: IbcTimeout)
    | Other(variant: string, payload: Bytes)

  // ---------------------------------------------------------------------------
  // SDK messages and their results

  /** An sdk.Msg as the dispatch layer sees it: its type URL (the key of the service
      router), its signers, the outcome of its own ValidateBasic, and, when it is a
      LegacyMsg, its legacy route. */
  datatype SdkMsg = SdkMsg(
    typeUrl: string,
    signers: seq<Addr>,
    basicError: Option<Error>,
    legacyRoute: Option<string>,
    payload: Bytes)

  datatype Attribute = Attribute(key: Bytes, value: Bytes)

  datatype Event = Event(kind: string, attributes: seq<Attribute>)

  /** The result of a router handler (sdk.Result): a data blob and events. */
  datatype SdkResult = SdkResult(data: Bytes, events: seq<Event>)

  /** What every Messenger.DispatchMsg returns: events, data and an error (None is nil).
      Go's nil slices are the empty sequence. */
  datatype DispatchResult = DispatchResult(events: seq<Event>, data: seq<Bytes>, err: Option<Error>)

  /** The `return nil, nil, err` of every handler. */
  function Failed(e: Error): DispatchResult {
    DispatchResult([], [], Some(e))
  }

  // ---------------------------------------------------------------------------
  // Routing and IBC

  /** Identifies a handler registered in one of the routers. */
  type HandlerId = nat

  /** The router entry a message was sent to: the service router (keyed by type URL)
      or the legacy route table (keyed by the message's route). */
  datatype Route = ServiceRoute(handler: HandlerId) | LegacyRoute(route: string, handler: HandlerId)

  datatype Height = Height(revisionNumber: uint64, revisionHeight: uint64)

  datatype Counterparty = Counterparty(portId: string, channelId: string)

  datatype Channel = Channel(counterparty: Counterparty)

  datatype Capability = Capability(index: nat)

  /** The capability store key of a channel; as a constructor it is injective in (port, channel). */
  datatype CapabilityPath = ChannelCapabilityPath(port: string, channel: string)

  /** An IBC packet as built by channeltypes.NewPacket. */
  datatype Packet = Packet(
    data: Bytes,
    sequence: uint64,
    sourcePort: string,
    sourceChannel: string,
    destinationPort: string,
    destinationChannel: string,
    timeoutHeight: Height,
    timeoutTimestamp: uint64)

  // ---------------------------------------------------------------------------
  // The host

  /** One call from this layer into the host's routers, keepers or custom handlers. */
  datatype Call =
    | RouterCall(route: Route, msg: SdkMsg)
    | SendPacketCall(capability: Capability, packet: Packet)
    | SendCoinsFromAccountToModuleCall(sender: Addr, recipientModule: string, coins: Coins)
    | BurnCoinsCall(moduleName: string, coins: Coins)
    | CustomHandlerCall(handlerFunc: HandlerId, contract: Addr, portId: string, contractMsg: CosmosMsg)

  /** A result together with the calls made, in order, while computing it. */
  datatype Traced<T> = Traced(result: T, calls: seq<Call>)

  /** The host as this layer sees it. The lookups (next send sequence, channels, capabilities)
      are maps; every operation with an effect is an oracle whose outcome may depend on the
      calls made before it (its first argument), since those calls change the ledger. */
  datatype Env = Env(
    nextSequenceSend: map<(string, string), uint64>,
    channels: map<(string, string), Channel>,
    capabilities: map<CapabilityPath, Capability>,
    convertCoins: seq<Coin> -> Result<Coins, Error>,
    convertTimeoutHeight: Option<IbcTimeoutBlock> -> Height,
    routeHandler: (seq<Call>, HandlerId, SdkMsg) -> Result<SdkResult, Error>,
    sendPacket: (seq<Call>, Capability, Packet) -> Option<Error>,
    sendCoinsToModule: (seq<Call>, Addr, string, Coins) -> Option<Error>,
    burnCoins: (seq<Call>, string, Coins) -> Option<Error>,
    customHandler: (seq<Call>, HandlerId, Addr, string, CosmosMsg) -> DispatchResult)
}
