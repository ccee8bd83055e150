/** MessageHandlerChain: a chain of responsibility over Messengers. Each handler is tried in
    order; the first one that does not answer ErrUnknownMsg decides the result. */
module Chain {
  import opened Types
  import opened Ledger
  import opened SdkHandler
  import opened IbcHandler
  import opened BurnHandler

  /** A MessageHandlerFunc: the burn handler, or a function supplied by the integrator. */
  datatype MessageHandlerFunc = BurnCoinHandler | CustomHandler(id: HandlerId)

  /** The Messenger implementations the chain can hold. */
  datatype Messenger =
    | SDK(handler: SDKMessageHandler)
    | IBCRawPacket
    | Func(f: MessageHandlerFunc)

  datatype MessageHandlerChain = MessageHandlerChain(handlers: seq<Messenger>)

  /** The panic of NewMessageHandlerChain: a nil handler at this position. */
  datatype ConstructionPanic = NilHandlerAt(position: nat)

  const NO_HANDLER_FOUND: Error := Wrapped("no handler found", Registered(ErrUnknownMsg))

  /** The chain stops at a result that has no error or an error other than ErrUnknownMsg. */
  predicate Decisive(r: DispatchResult) {
    r.err.None? || !Is(r.err.value, ErrUnknownMsg)
  }

  /** Messenger.DispatchMsg of one handler, given the calls made before it. */
  function HandlerSpec(env: Env, before: seq<Call>, h: Messenger, contract: Addr, portId: string, msg: CosmosMsg)
    : (o: Traced<DispatchResult>)
  {
    match h
    case SDK(sdk) => SdkDispatchSpec(env, before, sdk, contract, portId, msg)
    case IBCRawPacket => IbcRawPacketSpec(env, before, portId, msg)
    case Func(BurnCoinHandler) => BurnSpec(env, before, contract, msg)
    case Func(CustomHandler(id)) =>
      Traced(env.customHandler(before, id, contract, portId, msg), [CustomHandlerCall(id, contract, portId, msg)])
  }

  /** How the handlers of a chain dispatch one message: the outcome of handler `h` given the
      calls made before it. */
  type Dispatch = (seq<Call>, Messenger) -> Traced<DispatchResult>

  /** The dispatch of the handlers modelled here, for one contract message. */
  function Dispatcher(env: Env, contract: Addr, portId: string, msg: CosmosMsg): (run: Dispatch) {
    (before: seq<Call>, h: Messenger) => HandlerSpec(env, before, h, contract, portId, msg)
  }

  /** MessageHandlerChain.DispatchMsg, given the calls made before it: the first handler
      whose outcome is decisive decides; after the last, "no handler found". */
  function RunChain(run: Dispatch, before: seq<Call>, hs: seq<Messenger>): (o: Traced<DispatchResult>)
    decreases |hs|
  {
    if hs == [] then Traced(Failed(NO_HANDLER_FOUND), [])
    else
      var o := run(before, hs[0]);
      if Decisive(o.result) then o
      else
        var rest := RunChain(run, before + o.calls, hs[1..]);
        Traced(rest.result, o.calls + rest.calls)
  }

  /** When every handler of `hs`, tried in turn, answers ErrUnknownMsg: the calls they made,
      in order. None when one of them decides. */
  function Unrecognised(run: Dispatch, before: seq<Call>, hs: seq<Messenger>): (skipped: Option<seq<Call>>)
    decreases |hs|
  {
    if hs == [] then Some([])
    else
      var o := run(before, hs[0]);
      if Decisive(o.result) then None
      else match Unrecognised(run, before + o.calls, hs[1..])
        case None => None
        case Some(rest) => Some(o.calls + rest)
  }

  /** The order NewDefaultMessageHandler installs. */
  function DefaultHandlers(sdk: SDKMessageHandler): (hs: seq<Messenger>) {
    [SDK(sdk), IBCRawPacket, Func(BurnCoinHandler)]
  }

  // ---------------------------------------------------------------------------
  // The chain as the source runs it

  /** NewMessageHandlerChain: `first` followed by `others`; panics at the first nil position. */
  method NewMessageHandlerChain(first: Option<Messenger>, others: seq<Option<Messenger>>)
    returns (r: Result<MessageHandlerChain, ConstructionPanic>)
    ensures var all := [first] + others;
      r.Success? <==> forall i :: 0 <= i < |all| ==> all[i].Some?
    ensures var all := [first] + others;
      r.Success? ==> |r.value.handlers| == |all| && forall i :: 0 <= i < |all| ==> r.value.handlers[i] == all[i].value
    ensures var all := [first] + others;
      r.Failure? ==>
        && r.error.position < |all| && all[r.error.position].None?
        && forall i :: 0 <= i < r.error.position ==> all[i].Some?
  {
    var all := [first] + others;
    var i := 0;
    while i < |all|
      invariant 0 <= i <= |all|
      invariant forall j :: 0 <= j < i ==> all[j].Some?
    {
      if all[i].None? {
        return Failure(NilHandlerAt(i));
      }
      i := i + 1;
    }
    r := Success(MessageHandlerChain(seq(|all|, j requires 0 <= j < |all| && all[j].Some? => all[j].value)));
  }

  /** NewDefaultMessageHandler, given the encoder its custom encoders were merged into. */
  method NewDefaultMessageHandler(router: map<string, HandlerId>, msgRouter: Option<map<string, HandlerId>>,
                                  encoders: (Addr, string, CosmosMsg) -> Result<seq<SdkMsg>, Error>)
    returns (chain: MessageHandlerChain)
    ensures chain.handlers == DefaultHandlers(SDKMessageHandler(router, msgRouter, encoders))
  {
    var r := NewMessageHandlerChain(Some(SDK(SDKMessageHandler(router, msgRouter, encoders))),
                                    [Some(IBCRawPacket), Some(Func(BurnCoinHandler))]);
    chain := r.value;
  }

  /** Messenger.DispatchMsg. */
  method DispatchWith(host: Host, h: Messenger, contract: Addr, portId: string, msg: CosmosMsg)
    returns (r: DispatchResult)
    modifies host
    ensures var o := HandlerSpec(host.env, old(host.calls), h, contract, portId, msg);
      r == o.result && host.calls == old(host.calls) + o.calls
  {
    match h
    case SDK(sdk) => r := DispatchSdkMsg(host, sdk, contract, portId, msg);
    case IBCRawPacket => r := DispatchIbcRawPacket(host, portId, msg);
    case Func(BurnCoinHandler) => r := DispatchBurn(host, contract, msg);
    case Func(CustomHandler(id)) => r := host.InvokeCustom(id, contract, portId, msg);
  }

  /** MessageHandlerChain.DispatchMsg. */
  method DispatchMsg(host: Host, chain: MessageHandlerChain, contract: Addr, portId: string, msg: CosmosMsg)
    returns (r: DispatchResult)
    modifies host
    ensures var o := RunChain(Dispatcher(host.env, contract, portId, msg), old(host.calls), chain.handlers);
      r == o.result && host.calls == old(host.calls) + o.calls
  {
    var hs := chain.handlers;
    ghost var run := Dispatcher(host.env, contract, portId, msg);
    ghost var before := host.calls;
    ghost var whole := RunChain(run, before, hs);
    ghost var done: seq<Call> := [];
    var i := 0;
    assert hs[i..] == hs;
    while i < |hs|
      invariant 0 <= i <= |hs|
      invariant host.calls == before + done
      invariant var rest := RunChain(run, before + done, hs[i..]);
        whole == Traced(rest.result, done + rest.calls)
    {
      ghost var o := run(before + done, hs[i]);
      var res := DispatchWith(host, hs[i], contract, portId, msg);
      ChainAdvance(run, before, done, hs, i, whole);
      if res.err.None? || !Is(res.err.value, ErrUnknownMsg) {
        return res;
      }
      done := done + o.calls;
      i := i + 1;
    }
    r := Failed(NO_HANDLER_FOUND);
  }

  // ---------------------------------------------------------------------------
  // Lemmas about any chain

  /** The loop step of DispatchMsg: the outcome `whole` of the chain, known from handler `i` on
      after the calls `done`, is handler `i`'s outcome when it decides and is otherwise known from
      handler `i + 1` on. */
  lemma ChainAdvance(run: Dispatch, before: seq<Call>, done: seq<Call>, hs: seq<Messenger>, i: nat,
                     whole: Traced<DispatchResult>)
    requires i < |hs|
    requires var rest := RunChain(run, before + done, hs[i..]);
      whole == Traced(rest.result, done + rest.calls)
    ensures var o := run(before + done, hs[i]);
      before + done + o.calls == before + (done + o.calls)
      && (Decisive(o.result) ==> whole == Traced(o.result, done + o.calls))
      && (!Decisive(o.result) ==>
            var rest := RunChain(run, before + (done + o.calls), hs[i + 1..]);
            whole == Traced(rest.result, (done + o.calls) + rest.calls))
  {
    var o := run(before + done, hs[i]);
    assert hs[i..][0] == hs[i] && hs[i..][1..] == hs[i + 1..];
    assert before + done + o.calls == before + (done + o.calls);
  }

  /** Short circuit: when the handlers before `h` all answer ErrUnknownMsg and `h` decides, the
      chain returns exactly `h`'s events, data and error, and no handler after `h` is called.
      The calls `skipped` of the handlers that answered ErrUnknownMsg stay made: they need not be
      empty (see DefaultChainUnknownAfterRouting). */
  lemma {:induction false} ChainShortCircuit(run: Dispatch, before: seq<Call>, pre: seq<Messenger>, h: Messenger,
                                             post: seq<Messenger>, skipped: seq<Call>)
    requires Unrecognised(run, before, pre) == Some(skipped)
    requires Decisive(run(before + skipped, h).result)
    ensures var o := run(before + skipped, h);
      RunChain(run, before, pre + [h] + post) == Traced(o.result, skipped + o.calls)
    decreases |pre|
  {
    var hs := pre + [h] + post;
    if pre == [] {
      assert hs[0] == h && skipped == [] && before + skipped == before;
    } else {
      var first := run(before, pre[0]);
      var rest := Unrecognised(run, before + first.calls, pre[1..]).value;
      var o := run(before + skipped, h);
      assert hs[0] == pre[0] && hs[1..] == pre[1..] + [h] + post;
      assert before + first.calls + rest == before + skipped;
      ChainShortCircuit(run, before + first.calls, pre[1..], h, post, rest);
      assert first.calls + (rest + o.calls) == skipped + o.calls;
    }
  }

  /** Exhaustion: when every handler answers ErrUnknownMsg, the chain fails with the terminal
      "no handler found" error (an ErrUnknownMsg) and no events or data. */
  lemma {:induction false} ChainExhaustion(run: Dispatch, before: seq<Call>, hs: seq<Messenger>, skipped: seq<Call>)
    requires Unrecognised(run, before, hs) == Some(skipped)
    ensures RunChain(run, before, hs) == Traced(Failed(NO_HANDLER_FOUND), skipped)
    decreases |hs|
  {
    if hs != [] {
      var first := run(before, hs[0]);
      var rest := Unrecognised(run, before + first.calls, hs[1..]).value;
      ChainExhaustion(run, before + first.calls, hs[1..], rest);
    }
  }

  /** The chain answers ErrUnknownMsg exactly when every handler did (which handler decides
      otherwise is `ChainShortCircuit`). */
  lemma {:induction false} ChainUnknownIffAllUnknown(run: Dispatch, before: seq<Call>, hs: seq<Messenger>)
    ensures !Decisive(RunChain(run, before, hs).result) <==> Unrecognised(run, before, hs).Some?
    decreases |hs|
  {
    if hs == [] {
      assert Is(NO_HANDLER_FOUND, ErrUnknownMsg);
    } else {
      var first := run(before, hs[0]);
      ChainUnknownIffAllUnknown(run, before + first.calls, hs[1..]);
    }
  }

  /** Every router call in `calls` is for a message that passed ValidateBasic and whose every
      declared signer is the contract (a message with no signers passes). */
  predicate RoutesOnlyAuthorized(calls: seq<Call>, contract: Addr) {
    forall i :: 0 <= i < |calls| && calls[i].RouterCall? ==> Authorized(calls[i].msg, contract)
  }

  /** A chain makes only the calls of its handlers, so when no handler routes an unauthorized
      message, neither does the chain. */
  lemma {:induction false} ChainKeepsRoutesAuthorized(run: Dispatch, before: seq<Call>, hs: seq<Messenger>,
                                                      contract: Addr)
    requires forall t, h :: RoutesOnlyAuthorized(run(t, h).calls, contract)
    ensures RoutesOnlyAuthorized(RunChain(run, before, hs).calls, contract)
    decreases |hs|
  {
    if hs != [] {
      var first := run(before, hs[0]);
      if !Decisive(first.result) {
        var rest := RunChain(run, before + first.calls, hs[1..]);
        ChainKeepsRoutesAuthorized(run, before + first.calls, hs[1..], contract);
        var calls := first.calls + rest.calls;
        forall i | 0 <= i < |calls| && calls[i].RouterCall?
          ensures Authorized(calls[i].msg, contract)
        {
          if i < |first.calls| {
            assert calls[i] == first.calls[i];
          } else {
            assert calls[i] == rest.calls[i - |first.calls|];
          }
        }
      }
    }
  }

  // ---------------------------------------------------------------------------
  // Lemmas about the handlers modelled here

  /** A single handler routes only messages that passed ValidateBasic and whose every declared
      signer is the contract (a message with no signers passes). A custom MessageHandlerFunc is
      one opaque call: what it routes itself is not traced, and this lemma says nothing about it. */
  lemma HandlerRoutesOnlyAuthorized(env: Env, before: seq<Call>, h: Messenger, contract: Addr,
                                    portId: string, msg: CosmosMsg)
    ensures RoutesOnlyAuthorized(HandlerSpec(env, before, h, contract, portId, msg).calls, contract)
  {
    match h
    case SDK(sdk) =>
      SdkDispatchOutcome(env, before, sdk, contract, portId, msg);
      var encoded := sdk.encoders(contract, portId, msg);
      if encoded.Success? {
        RoutedOnlyAfterChecks(env, before, sdk, contract, encoded.value);
      }
    case IBCRawPacket =>
      PacketSubmitted(env, before, portId, msg);
    case Func(BurnCoinHandler) =>
      if msg.BankBurn? && env.convertCoins(msg.amount).Success? {
        BurnCallOrder(env, before, contract, msg);
      }
    case Func(CustomHandler(_)) =>
  }

  /** The authorization gate holds for any chain of these handlers: every router call it makes
      is for a message that passed ValidateBasic and whose every declared signer is the contract
      (a message with no signers passes). Router calls made inside a custom MessageHandlerFunc
      are not traced and are not covered. */
  lemma ChainRoutesOnlyAuthorized(env: Env, before: seq<Call>, hs: seq<Messenger>, contract: Addr,
                                  portId: string, msg: CosmosMsg)
    ensures RoutesOnlyAuthorized(RunChain(Dispatcher(env, contract, portId, msg), before, hs).calls, contract)
  {
    var run := Dispatcher(env, contract, portId, msg);
    forall t, h ensures RoutesOnlyAuthorized(run(t, h).calls, contract) {
      HandlerRoutesOnlyAuthorized(env, t, h, contract, portId, msg);
    }
    ChainKeepsRoutesAuthorized(run, before, hs, contract);
  }

  /** In the default chain the SDK handler is tried first: whenever it decides, its result is
      the chain's and neither the IBC nor the burn handler is called. */
  lemma DefaultChainSdkFirst(env: Env, before: seq<Call>, sdk: SDKMessageHandler, contract: Addr,
                             portId: string, msg: CosmosMsg)
    requires Decisive(SdkDispatchSpec(env, before, sdk, contract, portId, msg).result)
    ensures RunChain(Dispatcher(env, contract, portId, msg), before, DefaultHandlers(sdk))
         == SdkDispatchSpec(env, before, sdk, contract, portId, msg)
  {
  }

  /** A send-packet message the encoder does not know falls through to the IBC handler, whose
      result becomes the chain's; the burn handler makes no call for it. */
  lemma DefaultChainSendPacket(env: Env, before: seq<Call>, sdk: SDKMessageHandler, contract: Addr,
                               portId: string, msg: CosmosMsg)
    requires msg.IbcSendPacket?
    requires sdk.encoders(contract, portId, msg).Failure?
    requires Is(sdk.encoders(contract, portId, msg).error, ErrUnknownMsg)
    ensures var ibc := IbcRawPacketSpec(env, before, portId, msg);
      RunChain(Dispatcher(env, contract, portId, msg), before, DefaultHandlers(sdk))
        == if Decisive(ibc.result) then ibc else Traced(Failed(NO_HANDLER_FOUND), ibc.calls)
  {
    var run := Dispatcher(env, contract, portId, msg);
    var hs := DefaultHandlers(sdk);
    var ibc := IbcRawPacketSpec(env, before, portId, msg);
    SdkDispatchOutcome(env, before, sdk, contract, portId, msg);
    assert run(before, hs[0]) == Traced(Failed(sdk.encoders(contract, portId, msg).error), []);
    assert before + [] == before;
    assert hs[1..] == [IBCRawPacket, Func(BurnCoinHandler)];
    assert hs[1..][1..] == [Func(BurnCoinHandler)];
    if !Decisive(ibc.result) {
      assert run(before + ibc.calls, Func(BurnCoinHandler)) == Traced(Failed(Registered(ErrUnknownMsg)), []);
      assert RunChain(run, before + ibc.calls, hs[1..][1..]) == Traced(Failed(NO_HANDLER_FOUND), []);
    }
  }

  /** A burn message the encoder does not know passes the SDK and IBC handlers without any
      call and is decided by the burn handler. */
  lemma DefaultChainBurn(env: Env, before: seq<Call>, sdk: SDKMessageHandler, contract: Addr,
                         portId: string, msg: CosmosMsg)
    requires msg.BankBurn?
    requires sdk.encoders(contract, portId, msg).Failure?
    requires Is(sdk.encoders(contract, portId, msg).error, ErrUnknownMsg)
    ensures var burn := BurnSpec(env, before, contract, msg);
      RunChain(Dispatcher(env, contract, portId, msg), before, DefaultHandlers(sdk))
        == if Decisive(burn.result) then burn else Traced(Failed(NO_HANDLER_FOUND), burn.calls)
  {
    var run := Dispatcher(env, contract, portId, msg);
    var hs := DefaultHandlers(sdk);
    var burn := BurnSpec(env, before, contract, msg);
    assert run(before, hs[0]) == Traced(Failed(sdk.encoders(contract, portId, msg).error), []);
    assert run(before, IBCRawPacket) == Traced(Failed(Registered(ErrUnknownMsg)), []);
    assert hs[1..] == [IBCRawPacket, Func(BurnCoinHandler)];
    assert hs[1..][1..] == [Func(BurnCoinHandler)];
    assert before + [] + [] == before;
    assert RunChain(run, before, hs[1..][1..])
        == if Decisive(burn.result) then burn else Traced(Failed(NO_HANDLER_FOUND), burn.calls + []);
    assert burn.calls + [] == burn.calls;
  }

  /** A handler that answers ErrUnknownMsg is skipped, but its calls stay made. The SDK handler
      routes an authorized message whose router handler fails with an error wrapping
      ErrUnknownMsg; the default chain then tries the IBC and burn handlers, which do not handle
      a message of another variant, and ends with "no handler found" after that router call. */
  lemma DefaultChainUnknownAfterRouting(env: Env, before: seq<Call>, sdk: SDKMessageHandler, contract: Addr,
                                        portId: string, msg: CosmosMsg, m: SdkMsg)
    requires msg.Other?
    requires sdk.encoders(contract, portId, msg) == Success([m])
    requires Authorized(m, contract) && RouteFor(sdk, m).Success?
    requires var res := env.routeHandler(before, RouteFor(sdk, m).value.handler, m);
      res.Failure? && Is(res.error, ErrUnknownMsg)
    ensures var call := RouterCall(RouteFor(sdk, m).value, m);
      && Unrecognised(Dispatcher(env, contract, portId, msg), before, DefaultHandlers(sdk)) == Some([call])
      && RunChain(Dispatcher(env, contract, portId, msg), before, DefaultHandlers(sdk))
           == Traced(Failed(NO_HANDLER_FOUND), [call])
  {
    var run := Dispatcher(env, contract, portId, msg);
    var hs := DefaultHandlers(sdk);
    var call := RouterCall(RouteFor(sdk, m).value, m);
    var err := env.routeHandler(before, RouteFor(sdk, m).value.handler, m).error;
    ChecksBeforeRouting(env, before, sdk, contract, m);
    assert [m][..0] == [] && [m][0] == m && before + [] == before;
    assert HandleSdkMessages(env, before, sdk, contract, [m]) == Traced(Failure(err), [call]);
    SdkDispatchOutcome(env, before, sdk, contract, portId, msg);
    assert run(before, hs[0]) == Traced(Failed(err), [call]);
    assert run(before + [call], IBCRawPacket) == Traced(Failed(Registered(ErrUnknownMsg)), []);
    assert run(before + [call], Func(BurnCoinHandler)) == Traced(Failed(Registered(ErrUnknownMsg)), []);
    assert hs[1..] == [IBCRawPacket, Func(BurnCoinHandler)] && hs[1..][1..] == [Func(BurnCoinHandler)];
    assert before + [call] + [] == before + [call];
    assert hs[1..][1..][1..] == [] && [call] + [] == [call];
    assert Is(Registered(ErrUnknownMsg), ErrUnknownMsg);
    var tail := hs[1..][1..];
    var none: seq<Call> := [];
    assert tail[0] == Func(BurnCoinHandler) && tail[1..] == [] && none + none == none;
    assert Unrecognised(run, before + [call] + none, tail[1..]) == Some(none);
    assert Unrecognised(run, before + [call], tail) == Some(none);
    assert Unrecognised(run, before + [call], hs[1..]) == Some([]);
    assert Unrecognised(run, before, hs) == Some([call]);
    ChainExhaustion(run, before, hs, [call]);
  }
}
