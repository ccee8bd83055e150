/** SDKMessageHandler: encodes a contract message into SDK messages, checks each one
    (ValidateBasic, then that every declared signer is the contract; a message with no
    signers passes) and routes it, first through
    the service router, then through the legacy route table. */
module SdkHandler {
  import opened Types
  import opened Ledger

  /** The handler's configuration: the legacy route table (route -> handler), the service
      router (type URL -> handler; None is a nil *MsgServiceRouter) and the encoder. */
  datatype SDKMessageHandler = SDKMessageHandler(
    router: map<string, HandlerId>,
    msgRouter: Option<map<string, HandlerId>>,
    encoders: (Addr, string, CosmosMsg) -> Result<seq<SdkMsg>, Error>)

  /** Every declared signer equals the contract (vacuously true without signers). */
  predicate SignedOnlyBy(signers: seq<Addr>, contract: Addr) {
    forall i :: 0 <= i < |signers| ==> signers[i] == contract
  }

  /** What must hold of a message before any router sees it. */
  predicate Authorized(msg: SdkMsg, contract: Addr) {
    msg.basicError.None? && SignedOnlyBy(msg.signers, contract)
  }

  const UNAUTHORIZED: Error := Wrapped("contract doesn't have permission", Registered(ErrUnauthorized))

  /** The router entry a message is routed to, or why it cannot be routed. */
  function RouteFor(h: SDKMessageHandler, msg: SdkMsg): (r: Result<Route, Error>) {
    if h.msgRouter.None? then
      Failure(Wrapped(">>> msgRouter is nil!!!", Registered(ErrPanic)))
    else if msg.typeUrl in h.msgRouter.value then
      Success(ServiceRoute(h.msgRouter.value[msg.typeUrl]))
    else if msg.legacyRoute.Some? then
      var route := msg.legacyRoute.value;
      if route in h.router then Success(LegacyRoute(route, h.router[route]))
      else Failure(Wrapped("unrecognized message route: " + route + "; message", Registered(ErrUnknownRequest)))
    else
      Failure(Wrapped("can't route message", Registered(ErrUnknownRequest)))
  }

  /** handleSdkMessage, given the calls made before it. */
  function HandleSdkMessageSpec(env: Env, before: seq<Call>, h: SDKMessageHandler, contract: Addr, msg: SdkMsg)
    : (o: Traced<Result<SdkResult, Error>>)
  {
    if msg.basicError.Some? then Traced(Failure(msg.basicError.value), [])
    else if !SignedOnlyBy(msg.signers, contract) then Traced(Failure(UNAUTHORIZED), [])
    else match RouteFor(h, msg)
      case Failure(e) => Traced(Failure(e), [])
      case Success(route) => Traced(env.routeHandler(before, route.handler, msg), [RouterCall(route, msg)])
  }

  /** The encoded messages handled one after another until the first failure. On success,
      the results of all messages, in order, each message having made one router call. */
  function HandleSdkMessages(env: Env, before: seq<Call>, h: SDKMessageHandler, contract: Addr, msgs: seq<SdkMsg>)
    : (o: Traced<Result<seq<SdkResult>, Error>>)
    ensures |o.calls| <= |msgs|
    ensures o.result.Success? ==> |o.result.value| == |msgs| == |o.calls|
    decreases |msgs|
  {
    if msgs == [] then Traced(Success([]), [])
    else
      var prior := HandleSdkMessages(env, before, h, contract, msgs[..|msgs| - 1]);
      match prior.result
      case Failure(_) => prior
      case Success(rs) =>
        var last := HandleSdkMessageSpec(env, before + prior.calls, h, contract, msgs[|msgs| - 1]);
        Traced(match last.result
               case Failure(e) => Failure(e)
               case Success(res) => Success(rs + [res]),
               prior.calls + last.calls)
  }

  /** The data blobs of the results, one per result, in order. */
  function DataOf(rs: seq<SdkResult>): (data: seq<Bytes>)
    ensures |data| == |rs|
    ensures forall i :: 0 <= i < |rs| ==> data[i] == rs[i].data
  {
    if rs == [] then [] else [rs[0].data] + DataOf(rs[1..])
  }

  /** The events of the results, concatenated in order. */
  function EventsOf(rs: seq<SdkResult>): (events: seq<Event>) {
    if rs == [] then [] else rs[0].events + EventsOf(rs[1..])
  }

  /** SDKMessageHandler.DispatchMsg, given the calls made before it. */
  function SdkDispatchSpec(env: Env, before: seq<Call>, h: SDKMessageHandler, contract: Addr, portId: string, msg: CosmosMsg)
    : (o: Traced<DispatchResult>)
  {
    match h.encoders(contract, portId, msg)
    case Failure(e) => Traced(Failed(e), [])
    case Success(msgs) =>
      var o := HandleSdkMessages(env, before, h, contract, msgs);
      match o.result
      case Failure(e) => Traced(Failed(e), o.calls)
      case Success(rs) => Traced(DispatchResult(EventsOf(rs), DataOf(rs), None), o.calls)
  }

  // ---------------------------------------------------------------------------
  // The handler as the source runs it

  method HandleSdkMessage(host: Host, h: SDKMessageHandler, contract: Addr, msg: SdkMsg)
    returns (r: Result<SdkResult, Error>)
    modifies host
    ensures var o := HandleSdkMessageSpec(host.env, old(host.calls), h, contract, msg);
      r == o.result && host.calls == old(host.calls) + o.calls
  {
    if msg.basicError.Some? {
      return Failure(msg.basicError.value);
    }
    var i := 0;
    while i < |msg.signers|
      invariant 0 <= i <= |msg.signers|
      invariant forall j :: 0 <= j < i ==> msg.signers[j] == contract
    {
      if msg.signers[i] != contract {
        return Failure(UNAUTHORIZED);
      }
      i := i + 1;
    }
    var route := RouteFor(h, msg);
    if route.Failure? {
      return Failure(route.error);
    }
    r := host.InvokeRoute(route.value, msg);
  }

  method DispatchSdkMsg(host: Host, h: SDKMessageHandler, contract: Addr, portId: string, msg: CosmosMsg)
    returns (r: DispatchResult)
    modifies host
    ensures var o := SdkDispatchSpec(host.env, old(host.calls), h, contract, portId, msg);
      r == o.result && host.calls == old(host.calls) + o.calls
  {
    var encoded := h.encoders(contract, portId, msg);
    if encoded.Failure? {
      return Failed(encoded.error);
    }
    var msgs := encoded.value;
    ghost var before := host.calls;
    ghost var rs: seq<SdkResult> := [];
    ghost var done: seq<Call> := [];
    var events: seq<Event> := [];
    var data: seq<Bytes> := [];
    var i := 0;
    while i < |msgs|
      invariant 0 <= i <= |msgs|
      invariant host.calls == before + done
      invariant HandleSdkMessages(host.env, before, h, contract, msgs[..i]) == Traced(Success(rs), done)
      invariant data == DataOf(rs) && events == EventsOf(rs)
    {
      ghost var step := HandleSdkMessageSpec(host.env, before + done, h, contract, msgs[i]);
      var res := HandleSdkMessage(host, h, contract, msgs[i]);
      BatchAdvance(host.env, before, h, contract, msgs, i, rs, done);
      if res.Failure? {
        return Failed(res.error);
      }
      data := data + [res.value.data];
      events := events + res.value.events;
      rs := rs + [res.value];
      done := done + step.calls;
      i := i + 1;
    }
    assert msgs[..i] == msgs;
    r := DispatchResult(events, data, None);
  }

  // ---------------------------------------------------------------------------
  // Lemmas

  /** Handling one more message extends the batch's outcome by that message's outcome. */
  lemma HandleSdkMessagesSnoc(env: Env, before: seq<Call>, h: SDKMessageHandler, contract: Addr,
                              msgs: seq<SdkMsg>, i: nat, rs: seq<SdkResult>, done: seq<Call>)
    requires i < |msgs|
    requires HandleSdkMessages(env, before, h, contract, msgs[..i]) == Traced(Success(rs), done)
    ensures var step := HandleSdkMessageSpec(env, before + done, h, contract, msgs[i]);
      HandleSdkMessages(env, before, h, contract, msgs[..i + 1])
        == Traced(match step.result
                  case Failure(e) => Failure(e)
                  case Success(res) => Success(rs + [res]),
                  done + step.calls)
  {
    assert msgs[..i + 1][..i] == msgs[..i] && msgs[..i + 1][i] == msgs[i];
  }

  /** The loop step of DispatchSdkMsg: after a successful prefix of `i` messages with results
      `rs` and calls `done`, a failure of message `i` is the outcome of the whole batch, and a
      success extends the results, their data and their events by that message's. */
  lemma BatchAdvance(env: Env, before: seq<Call>, h: SDKMessageHandler, contract: Addr,
                     msgs: seq<SdkMsg>, i: nat, rs: seq<SdkResult>, done: seq<Call>)
    requires i < |msgs|
    requires HandleSdkMessages(env, before, h, contract, msgs[..i]) == Traced(Success(rs), done)
    ensures var step := HandleSdkMessageSpec(env, before + done, h, contract, msgs[i]);
      && before + done + step.calls == before + (done + step.calls)
      && (step.result.Failure? ==>
            HandleSdkMessages(env, before, h, contract, msgs) == Traced(Failure(step.result.error), done + step.calls))
      && (step.result.Success? ==>
            var rs' := rs + [step.result.value];
            && HandleSdkMessages(env, before, h, contract, msgs[..i + 1]) == Traced(Success(rs'), done + step.calls)
            && DataOf(rs') == DataOf(rs) + [step.result.value.data]
            && EventsOf(rs') == EventsOf(rs) + step.result.value.events)
  {
    var step := HandleSdkMessageSpec(env, before + done, h, contract, msgs[i]);
    HandleSdkMessagesSnoc(env, before, h, contract, msgs, i, rs, done);
    assert before + done + step.calls == before + (done + step.calls);
    if step.result.Failure? {
      FailureIsFinal(env, before, h, contract, msgs, i + 1);
    } else {
      DataOfAppend(rs, [step.result.value]);
      EventsOfAppend(rs, [step.result.value]);
    }
  }

  /** Once a message fails, the messages after it are never handled: the outcome of the
      whole batch is the outcome of the prefix that ends with the failing message. */
  lemma {:induction false} FailureIsFinal(env: Env, before: seq<Call>, h: SDKMessageHandler, contract: Addr,
                                          msgs: seq<SdkMsg>, k: nat)
    requires k <= |msgs|
    requires HandleSdkMessages(env, before, h, contract, msgs[..k]).result.Failure?
    ensures HandleSdkMessages(env, before, h, contract, msgs) == HandleSdkMessages(env, before, h, contract, msgs[..k])
    decreases |msgs| - k
  {
    assert msgs[..|msgs|] == msgs;
    if k < |msgs| {
      assert msgs[..|msgs| - 1][..k] == msgs[..k];
      FailureIsFinal(env, before, h, contract, msgs[..|msgs| - 1], k);
    } else {
      assert msgs[..k] == msgs;
    }
  }

  lemma {:induction false} DataOfAppend(a: seq<SdkResult>, b: seq<SdkResult>)
    ensures DataOf(a + b) == DataOf(a) + DataOf(b)
  {
  }

  /** The events of consecutive batches are the batches' events, concatenated. */
  lemma {:induction false} EventsOfAppend(a: seq<SdkResult>, b: seq<SdkResult>)
    ensures EventsOf(a + b) == EventsOf(a) + EventsOf(b)
  {
    if a == [] {
      assert a + b == b;
    } else {
      assert (a + b)[1..] == a[1..] + b;
      EventsOfAppend(a[1..], b);
    }
  }

  /** Every router call of a batch is made for the message at the same position, on the
      route RouteFor chose for it, and only for a message that passed ValidateBasic and
      whose every declared signer is the contract (a message with no signers passes). */
  lemma {:induction false} RoutedOnlyAfterChecks(env: Env, before: seq<Call>, h: SDKMessageHandler, contract: Addr,
                                                 msgs: seq<SdkMsg>)
    ensures var o := HandleSdkMessages(env, before, h, contract, msgs);
      forall i :: 0 <= i < |o.calls| ==>
        && o.calls[i].RouterCall?
        && o.calls[i].msg == msgs[i]
        && Authorized(msgs[i], contract)
        && RouteFor(h, msgs[i]) == Success(o.calls[i].route)
    decreases |msgs|
  {
    if msgs != [] {
      var init := msgs[..|msgs| - 1];
      RoutedOnlyAfterChecks(env, before, h, contract, init);
      var prior := HandleSdkMessages(env, before, h, contract, init);
      var o := HandleSdkMessages(env, before, h, contract, msgs);
      if prior.result.Success? {
        var n := |msgs| - 1;
        var last := HandleSdkMessageSpec(env, before + prior.calls, h, contract, msgs[n]);
        ChecksBeforeRouting(env, before + prior.calls, h, contract, msgs[n]);
        assert |prior.calls| == n && o.calls == prior.calls + last.calls;
        forall i | 0 <= i < |o.calls|
          ensures o.calls[i].RouterCall? && o.calls[i].msg == msgs[i] && Authorized(msgs[i], contract)
          ensures RouteFor(h, msgs[i]) == Success(o.calls[i].route)
        {
          if i < n {
            assert o.calls[i] == prior.calls[i] && msgs[i] == init[i];
          } else {
            assert o.calls[i] == last.calls[0];
          }
        }
      } else {
        assert o == prior;
        forall i | 0 <= i < |prior.calls| ensures msgs[i] == init[i] { }
      }
    }
  }

  /** handleSdkMessage: ValidateBasic is checked first, then the signers; a message that
      fails either reaches no router. Otherwise the message goes to the route RouteFor chose,
      and the router handler's result, error included, is returned unchanged. */
  lemma ChecksBeforeRouting(env: Env, before: seq<Call>, h: SDKMessageHandler, contract: Addr, msg: SdkMsg)
    ensures var o := HandleSdkMessageSpec(env, before, h, contract, msg);
      && (msg.basicError.Some? ==> o == Traced(Failure(msg.basicError.value), []))
      && (msg.basicError.None? && !SignedOnlyBy(msg.signers, contract) ==>
            o == Traced(Failure(UNAUTHORIZED), []) && Is(o.result.error, ErrUnauthorized))
      && (Authorized(msg, contract) && RouteFor(h, msg).Failure? ==>
            o == Traced(Failure(RouteFor(h, msg).error), []))
      && (o.calls != [] <==> Authorized(msg, contract) && RouteFor(h, msg).Success?)
      && (o.calls != [] ==>
            o.calls == [RouterCall(RouteFor(h, msg).value, msg)]
            && o.result == env.routeHandler(before, RouteFor(h, msg).value.handler, msg))
  {
  }

  /** A message that declares no signers passes the signer check. */
  lemma NoSignersIsAuthorized(env: Env, before: seq<Call>, h: SDKMessageHandler, contract: Addr, msg: SdkMsg)
    requires msg.basicError.None? && msg.signers == []
    requires RouteFor(h, msg).Success?
    ensures HandleSdkMessageSpec(env, before, h, contract, msg).calls == [RouterCall(RouteFor(h, msg).value, msg)]
  {
  }

  /** Routing precedence: a nil service router is a panic error; a message the service router
      knows goes there, whatever its legacy route; otherwise a LegacyMsg goes to its route in the
      legacy table; every other message is an unknown request. */
  lemma RoutingPrecedence(h: SDKMessageHandler, msg: SdkMsg)
    ensures h.msgRouter.None? ==> RouteFor(h, msg).Failure? && Is(RouteFor(h, msg).error, ErrPanic)
    ensures h.msgRouter.Some? && msg.typeUrl in h.msgRouter.value ==>
      RouteFor(h, msg) == Success(ServiceRoute(h.msgRouter.value[msg.typeUrl]))
    ensures h.msgRouter.Some? && msg.typeUrl !in h.msgRouter.value && msg.legacyRoute.Some?
            && msg.legacyRoute.value in h.router ==>
      RouteFor(h, msg) == Success(LegacyRoute(msg.legacyRoute.value, h.router[msg.legacyRoute.value]))
    ensures h.msgRouter.Some? && msg.typeUrl !in h.msgRouter.value
            && (msg.legacyRoute.None? || msg.legacyRoute.value !in h.router) ==>
      RouteFor(h, msg).Failure? && Is(RouteFor(h, msg).error, ErrUnknownRequest)
  {
  }

  /** SDKMessageHandler.DispatchMsg: an encoder error (ErrUnknownMsg included) is returned
      unchanged with no router call; a failing message discards everything accumulated; on
      success there is one data entry per encoded message, in order, and the events of all
      results, concatenated in order. */
  lemma SdkDispatchOutcome(env: Env, before: seq<Call>, h: SDKMessageHandler, contract: Addr, portId: string, msg: CosmosMsg)
    ensures var encoded := h.encoders(contract, portId, msg);
      encoded.Failure? ==> SdkDispatchSpec(env, before, h, contract, portId, msg) == Traced(Failed(encoded.error), [])
    ensures var encoded := h.encoders(contract, portId, msg);
      encoded.Success? ==>
        var o := SdkDispatchSpec(env, before, h, contract, portId, msg);
        var batch := HandleSdkMessages(env, before, h, contract, encoded.value);
        && o.calls == batch.calls
        && (batch.result.Failure? ==> o.result == Failed(batch.result.error))
        && (batch.result.Success? ==>
              && o.result.err.None?
              && |o.result.data| == |encoded.value| == |batch.result.value|
              && (forall i :: 0 <= i < |encoded.value| ==> o.result.data[i] == batch.result.value[i].data)
              && o.result.events == EventsOf(batch.result.value)
              && (forall i :: 0 <= i < |encoded.value| ==>
                    && RouteFor(h, encoded.value[i]).Success?
                    && env.routeHandler(before + o.calls[..i], RouteFor(h, encoded.value[i]).value.handler, encoded.value[i])
                       == Success(batch.result.value[i])
                    && o.result.data[i] == batch.result.value[i].data))
  {
    var encoded := h.encoders(contract, portId, msg);
    if encoded.Success? {
      BatchResultsAreRouted(env, before, h, contract, encoded.value);
    }
  }

  /** On success, result `i` of a batch is what the router handler of message `i` returned,
      given the calls of the messages before it; message `i` was authorized and routable, and
      call `i` is its router call. */
  lemma {:induction false} BatchResultsAreRouted(env: Env, before: seq<Call>, h: SDKMessageHandler, contract: Addr,
                                                 msgs: seq<SdkMsg>)
    ensures var o := HandleSdkMessages(env, before, h, contract, msgs);
      o.result.Success? ==>
        forall i :: 0 <= i < |msgs| ==>
          && Authorized(msgs[i], contract)
          && RouteFor(h, msgs[i]).Success?
          && o.calls[i] == RouterCall(RouteFor(h, msgs[i]).value, msgs[i])
          && env.routeHandler(before + o.calls[..i], RouteFor(h, msgs[i]).value.handler, msgs[i])
             == Success(o.result.value[i])
    decreases |msgs|
  {
    var o := HandleSdkMessages(env, before, h, contract, msgs);
    if msgs != [] && o.result.Success? {
      var n := |msgs| - 1;
      var init := msgs[..n];
      var prior := HandleSdkMessages(env, before, h, contract, init);
      BatchResultsAreRouted(env, before, h, contract, init);
      var last := HandleSdkMessageSpec(env, before + prior.calls, h, contract, msgs[n]);
      ChecksBeforeRouting(env, before + prior.calls, h, contract, msgs[n]);
      assert prior.result.Success? && last.result.Success?;
      assert o.calls == prior.calls + last.calls && o.result.value == prior.result.value + [last.result.value];
      forall i | 0 <= i < |msgs|
        ensures Authorized(msgs[i], contract) && RouteFor(h, msgs[i]).Success?
        ensures o.calls[i] == RouterCall(RouteFor(h, msgs[i]).value, msgs[i])
        ensures env.routeHandler(before + o.calls[..i], RouteFor(h, msgs[i]).value.handler, msgs[i])
                == Success(o.result.value[i])
      {
        if i < n {
          assert msgs[i] == init[i] && o.calls[i] == prior.calls[i] && o.calls[..i] == prior.calls[..i];
          assert o.result.value[i] == prior.result.value[i];
        } else {
          assert o.calls[..i] == prior.calls;
        }
      }
    }
  }
}
