# wasmd message dispatch, modelled in Dafny

This project models the message-dispatch layer of wasmd (`x/wasm/keeper/handler_plugin.go`).
It turns each message a CosmWasm contract emits into privileged ledger actions.

- **The chain.** A `MessageHandlerChain` tries its `Messenger`s in order.
  - The first handler whose error is nil, or is not `ErrUnknownMsg`, decides the result.
  - If every handler answers `ErrUnknownMsg`, the chain fails with "no handler found".
  - The constructor panics on a nil handler.
- **The default chain** (`NewDefaultMessageHandler`) holds three handlers, in this order:
  - the SDK handler. It encodes the contract message into SDK messages, checks each one (ValidateBasic, then its signers), routes it through the service router or the legacy route table, and concatenates the results.
  - the IBC raw-packet handler. It runs an ordered series of checks, then submits an ICS 004 packet with the channel capability.
  - the burn handler. It moves coins from the contract to the `wasm` module account, then burns them.

## Model structure

- `types.dfy` (module `Types`) holds the values.
  - Contract messages: only the variants this layer inspects, plus `Other`.
  - SDK messages, events, results, IBC packets and routes.
  - Errors: a registered kind, a wrapped error with its description, or a plain error. `Is` models `errors.Is` over the wrap chain.
  - `Call`, one call into a router, keeper or custom handler.
  - `Env`, the host as this layer sees it:
    - the store lookups are maps: next send sequence, channels, capabilities;
    - the encoder-side conversions and every effectful keeper or router call are functions (oracles);
    - an oracle's outcome may depend on the calls made before it.
- `host.dfy` (module `Ledger`) holds class `Host`: the environment plus the record of calls made so far. Each keeper and router operation is a method that appends its call to `calls`.
- `sdk_handler.dfy`, `ibc_handler.dfy`, `burn_handler.dfy` and `chain.dfy` follow the same pattern for each handler and for the chain:
  - A pure specification function gives the result together with the calls made, in order. They are `SdkDispatchSpec`, `IbcRawPacketSpec`, `BurnSpec` and `RunChain`.
  - An imperative method on a `Host` is proved to return that result and to append exactly those calls. It has the source's loops and early returns.
  - Lemmas state the promised properties of the specification functions.
- The chain is specified over any per-handler dispatch function (`RunChain`). Its generic lemmas therefore hold for every chain. `Dispatcher` instantiates it with the handlers modelled here.
- `NewSDKMessageHandler` (`x/wasm/keeper/handler_plugin.go:54-60`) is the datatype constructor `SDKMessageHandler(router, msgRouter, encoders)`.

### The signer gate

The loop at `x/wasm/keeper/handler_plugin.go:89-93` rejects only a signer that differs from the contract. An SDK message that declares no signers therefore passes and is routed (`SdkHandler.NoSignersIsAuthorized`). Throughout the model, "authorized" means the message passed ValidateBasic and every declared signer is the contract; a message with no signers passes.

### Skipped handlers keep their effects

The chain skips a handler whose error is `ErrUnknownMsg`, but that handler may already have made calls. The SDK handler routes an authorized message, and the router handler's error may wrap `ErrUnknownMsg` (`x/wasm/keeper/handler_plugin.go:101-103`). The chain then treats the SDK handler's answer as unknown and moves on (`x/wasm/keeper/handler_plugin.go:149-150`). So the `skipped` calls in `Chain.ChainShortCircuit` and `Chain.ChainExhaustion` may be non-empty for the SDK handler; `Chain.DefaultChainUnknownAfterRouting` exhibits this. The IBC and burn handlers make no call when they answer unknown because of the message variant (`IbcHandler.ChecksInOrder`, `BurnHandler.BurnRecognition`). A keeper error that wraps `ErrUnknownMsg` makes them answer unknown after their calls (`IbcHandler.UnknownAfterSend`, `BurnHandler.UnknownAfterLedgerCall`).

## Model

| member | source | states |
|---|---|---|
| `SdkHandler.HandleSdkMessage` | x/wasm/keeper/handler_plugin.go:84-122 | Returns the specified outcome of one SDK message: ValidateBasic's error, then the unauthorized error at the first foreign signer (a loop over the signers), then a routing error, and otherwise the router handler's result. It appends exactly one router call, and only when every check passes. |
| `SdkHandler.ChecksBeforeRouting` | x/wasm/keeper/handler_plugin.go:85-118 | ValidateBasic failing returns its error and makes no call. A foreign signer gives `ErrUnauthorized` and makes no call. A routing failure makes no call. A router call happens iff the message is authorized and routable; it goes to the chosen route, and the handler's result, error included, is returned unchanged. |
| `SdkHandler.RoutingPrecedence` | x/wasm/keeper/handler_plugin.go:95-121 | A nil service router gives `ErrPanic`. A type URL known to the service router goes there, whatever the legacy route. Otherwise a legacy message goes to its route in the legacy table. A missing legacy route, or a message that is not a legacy message, gives `ErrUnknownRequest`. |
| `SdkHandler.NoSignersIsAuthorized` | x/wasm/keeper/handler_plugin.go:89-93 | A valid, routable message with an empty signer list reaches the router. |
| `SdkHandler.HandleSdkMessages` | x/wasm/keeper/handler_plugin.go:67-71 | Handling a batch makes at most one call per message. On success it has one result per message and exactly one call per message. |
| `SdkHandler.BatchResultsAreRouted` | x/wasm/keeper/handler_plugin.go:67-118 | In a successful batch, message `i` was authorized and routable, call `i` is its router call, and result `i` is exactly what the router handler returned for it, given the calls of the messages before it. |
| `SdkHandler.DataOf` | x/wasm/keeper/handler_plugin.go:73 | One data entry per result, in order, each being that result's data. |
| `SdkHandler.DispatchSdkMsg` | x/wasm/keeper/handler_plugin.go:62-82 | Returns the specified outcome of the whole handler. It encodes, then handles the messages in a loop whose invariants tie the accumulated data and events to the successful prefix. It stops at the first failure with no events and no data, and appends exactly the calls the specification makes. |
| `SdkHandler.FailureIsFinal` | x/wasm/keeper/handler_plugin.go:67-71 | Once a message of the batch fails, no later message is handled: the whole batch's outcome, calls included, is that of the prefix ending in the failure. |
| `SdkHandler.EventsOfAppend` | x/wasm/keeper/handler_plugin.go:75-79 | Events of consecutive results are concatenated in order. |
| `SdkHandler.RoutedOnlyAfterChecks` | x/wasm/keeper/handler_plugin.go:67-118 | In a batch, call `i` is a router call for encoded message `i`. That message passed ValidateBasic, every declared signer is the contract (a message with no signers passes), and the call goes to the route `RouteFor` chose for it. |
| `SdkHandler.SdkDispatchOutcome` | x/wasm/keeper/handler_plugin.go:62-82 | An encoder error (`ErrUnknownMsg` included) is returned unchanged with no call. A failing message gives that error, with no events or data. On success there is no error, and `data[i]` is the data the router handler returned for encoded message `i` (given the calls before it). The events are all those results' events, concatenated in order. |
| `IbcHandler.DispatchIbcRawPacket` | x/wasm/keeper/handler_plugin.go:169-207 | Returns the specified outcome and appends the specified calls: at most one `SendPacket`. |
| `IbcHandler.ChecksInOrder` | x/wasm/keeper/handler_plugin.go:170-195 | The checks run in order and the first failing one decides the error. They are: not a send-packet message (`ErrUnknownMsg`), empty port (`ErrUnsupportedForContract`), empty channel (`ErrEmpty`), no next send sequence (`ErrSequenceSendNotFound`), no channel (`ErrInvalidChannel`), no capability (`ErrChannelCapabilityNotFound`). Each failure makes no call and returns no events or data. |
| `IbcHandler.PacketSubmitted` | x/wasm/keeper/handler_plugin.go:181-206 | `SendPacket` is called iff every check passes, and exactly once. It gets the port's capability for the channel. The packet's sequence is the next send sequence, its source is (port, channel) and its destination is the channel's counterparty; its data and timeouts are the message's. The handler returns no events, no data and `SendPacket`'s error. |
| `IbcHandler.UnknownAfterSend` | x/wasm/keeper/handler_plugin.go:181-206 | The handler answers `ErrUnknownMsg` after its `SendPacket` call exactly when every check passed and `SendPacket`'s error wraps `ErrUnknownMsg`. |
| `BurnHandler.DispatchBurn` | x/wasm/keeper/handler_plugin.go:221-237 | Returns the specified outcome and appends the specified ledger calls. |
| `BurnHandler.BurnRecognition` | x/wasm/keeper/handler_plugin.go:222-226 | A message other than a bank burn gives `ErrUnknownMsg` with no ledger call. A coin conversion error is returned as it is, with no ledger call. |
| `BurnHandler.BurnCallOrder` | x/wasm/keeper/handler_plugin.go:227-234 | The first ledger call moves the converted coins from the contract to the `wasm` module account. `BurnCoins` on the same coins and module comes second, and only if the transfer succeeded. The two failures are wrapped as "transfer to module" and "burn coins", with their kinds preserved for `errors.Is`. Success returns no events, no data and no error. |
| `BurnHandler.UnknownAfterLedgerCall` | x/wasm/keeper/handler_plugin.go:227-234 | The handler answers `ErrUnknownMsg` after a ledger call exactly when the transfer's error wraps `ErrUnknownMsg`, or the transfer succeeded and the burn's error wraps it. |
| `Chain.NewMessageHandlerChain` | x/wasm/keeper/handler_plugin.go:129-137 | Succeeds iff no position of `first` followed by `others` is nil. The chain is then those handlers in order, so it is non-empty. Otherwise it fails at the first nil position. |
| `Chain.NewDefaultMessageHandler` | x/wasm/keeper/handler_plugin.go:33-52 | The default chain is the SDK handler, then the IBC raw-packet handler, then the burn handler. |
| `Chain.DispatchWith` | x/wasm/keeper/handler_plugin.go:214-217 | Dispatching to one handler gives that handler's specified outcome and calls. |
| `Chain.DispatchMsg` | x/wasm/keeper/handler_plugin.go:143-156 | The loop over the handlers returns the specified chain outcome (`RunChain`) and appends exactly its calls. |
| `Chain.ChainShortCircuit` | x/wasm/keeper/handler_plugin.go:144-153 | If every handler before `h` answers `ErrUnknownMsg` and `h` decides, the chain returns exactly `h`'s events, data and error. Its calls are those of the skipped handlers (possibly non-empty) and `h`; no later handler runs. |
| `Chain.ChainExhaustion` | x/wasm/keeper/handler_plugin.go:155 | If every handler answers `ErrUnknownMsg`, the chain fails with "no handler found" wrapping `ErrUnknownMsg`, with no events or data. |
| `Chain.ChainUnknownIffAllUnknown` | x/wasm/keeper/handler_plugin.go:143-156 | The chain's result is `ErrUnknownMsg` iff every handler answered `ErrUnknownMsg`. |
| `Chain.ChainKeepsRoutesAuthorized` | x/wasm/keeper/handler_plugin.go:143-156 | If no handler routes an unauthorized SDK message, neither does the chain. |
| `Chain.HandlerRoutesOnlyAuthorized` | x/wasm/keeper/handler_plugin.go:84-93 | Each handler modelled here routes only SDK messages that passed ValidateBasic and whose every declared signer is the contract (a message with no signers passes). A custom `MessageHandlerFunc` is one opaque call; what it routes itself is not traced, and the gate says nothing about it. |
| `Chain.ChainRoutesOnlyAuthorized` | x/wasm/keeper/handler_plugin.go:143-156 | Every chain of these handlers routes only SDK messages that passed ValidateBasic and whose every declared signer is the contract (a message with no signers passes). Router calls made inside a custom `MessageHandlerFunc` are not traced and not covered. |
| `Chain.DefaultChainSdkFirst` | x/wasm/keeper/handler_plugin.go:47-51 | In the default chain, whenever the SDK handler decides, its outcome is the chain's and no other handler makes a call. |
| `Chain.DefaultChainSendPacket` | x/wasm/keeper/handler_plugin.go:47-51 | A send-packet message the encoder rejects as unknown reaches the IBC handler. Its outcome is the chain's, or "no handler found" if it too answers unknown. |
| `Chain.DefaultChainBurn` | x/wasm/keeper/handler_plugin.go:47-51 | A burn message the encoder rejects as unknown passes the SDK and IBC handlers without any call. The burn handler decides it, or "no handler found" if it too answers unknown. |
| `Chain.DefaultChainUnknownAfterRouting` | x/wasm/keeper/handler_plugin.go:99-103 | An authorized, routable message whose router handler fails with an error wrapping `ErrUnknownMsg` makes the SDK handler answer unknown after one router call. The default chain then falls through the IBC and burn handlers and fails with "no handler found", with that router call made. |
| `Ledger.Host.InvokeRoute` | x/wasm/keeper/handler_plugin.go:101 | A router handler call returns the router's outcome given the earlier calls, and is recorded. |
| `Ledger.Host.SendPacket` | x/wasm/keeper/handler_plugin.go:206 | `SendPacket` returns the channel keeper's outcome and is recorded. |
| `Ledger.Host.SendCoinsFromAccountToModule` | x/wasm/keeper/handler_plugin.go:227 | The transfer returns the bank's outcome and is recorded. |
| `Ledger.Host.BurnCoins` | x/wasm/keeper/handler_plugin.go:230 | The burn returns the bank's outcome and is recorded. |
| `Ledger.Host.InvokeCustom` | x/wasm/keeper/handler_plugin.go:216 | A `MessageHandlerFunc` supplied by the integrator returns its own outcome and is recorded. |

## Left out

- The encoder (`DefaultEncoders`, `MessageEncoders.Merge` and the custom encoders) is a function from (contract, port, message) to a list of SDK messages or an error. Its internals are not part of this model.
- `convertWasmCoinsToSdkCoins` and `convertWasmIBCTimeoutHeightToCosmosHeight` are functions of the environment. The coin conversion may fail; the height conversion is total.
- Keeper and router state transitions are not modelled: the sequence increment inside `SendPacket`, coin accounting, and the state router handlers change. Each effectful call is an oracle whose outcome may depend on the calls made before it. The store lookups are fixed maps for one dispatch.
- `sdk.Context`, `moduleLogger(...).Info` (logging only), and the `sdk.Event` cast of result events (identity on content) are left out.
- Error messages keep their fixed descriptions. The `%+v` rendering of the message in "can't route message" is reduced to that fixed prefix.
- The constructor's `panic` is the `Failure(NilHandlerAt(i))` result. A typed-nil `MessageHandlerFunc` (a non-nil interface holding a nil function) is not modelled.
- A custom `MessageHandlerFunc` is one opaque call whose outcome is an oracle. The router calls it makes itself are not traced, so the authorization gate lemmas say nothing about them.
- A `MessageHandlerChain` nested inside another chain, and other `Messenger` implementations, are not modelled; a chain holds the SDK, IBC and burn handlers and integrator-supplied functions.
- `host.ChannelCapabilityPath` is the injective constructor `ChannelCapabilityPath(port, channel)`, not its ICS 024 string form.
- Contract messages are reduced to the variants this layer inspects (bank burn, IBC send packet) plus one opaque variant for all others.
- A router handler returning a nil result with a nil error is not modelled: a successful router call always has a result.
