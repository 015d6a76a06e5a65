/** wsserver/wsserver.go: the manager that owns the four registries, and the
    per-connection lifecycle that the endpoint drives from its read loop. */
module WsServer {
  import opened Wrappers
  import opened GoSlices
  import opened Connection
  import opened Handler

  /** The message type codes of gorilla/websocket (the frame opcodes of
      RFC 6455, section 5.2). */
  const TextMessage: int := 1
  const BinaryMessage: int := 2
  const CloseMessage: int := 8
  const PingMessage: int := 9
  const PongMessage: int := 10

  /** What `Upgrader.Upgrade` produced: a transport handle or an error. */
  datatype UpgradeResult = Upgraded(handle: ConnHandle) | UpgradeFailed(reason: string)

  /** One result of `Conn.ReadMessage`: a message of some type with its
      payload, or a non-nil error. */
  datatype ReadResult = Frame(messageType: int, payload: Bytes) | ReadFailure(reason: string)

  /** A read after which the loop breaks: an error, or a close message. */
  predicate IsTerminal(r: ReadResult)
    ensures r.Frame? && r.messageType in {TextMessage, BinaryMessage, PingMessage, PongMessage} ==> !IsTerminal(r)
  {
    r.ReadFailure? || r.messageType == CloseMessage
  }

  predicate HasTerminal(results: seq<ReadResult>)
  {
    exists k :: 0 <= k < |results| && IsTerminal(results[k])
  }

  /** The position of the read that ends the loop. */
  function FirstTerminal(results: seq<ReadResult>): (k: nat)
    requires HasTerminal(results)
    ensures k < |results| && IsTerminal(results[k])
    ensures forall j :: 0 <= j < k ==> !IsTerminal(results[j])
  {
    if IsTerminal(results[0]) then 0
    else
      assert HasTerminal(results[1..]) by {
        var k :| 0 <= k < |results| && IsTerminal(results[k]);
        assert results[1..][k - 1] == results[k];
      }
      1 + FirstTerminal(results[1..])
  }

  /** What one endpoint call does that the outside can see, in order: the
      registry changes and the runs of wrapped handler functions. */
  datatype Event =
    | ConnectionAdded(connection: WsConnection)
    | Callback(invocation: Invocation)
    | ConnectionRemoved(connection: WsConnection, removed: bool)

  function Callbacks(invs: seq<Invocation>): seq<Event>
  {
    seq(|invs|, i requires 0 <= i < |invs| => Callback(invs[i]))
  }

  lemma {:induction false} CallbacksAppend(a: seq<Invocation>, b: seq<Invocation>)
    ensures Callbacks(a + b) == Callbacks(a) + Callbacks(b)
  {
  }

  /** The arguments wsserver.go line 47 passes to the message handlers. */
  function MessageArgs(c: WsConnection, payload: Bytes): seq<Arg>
  {
    [ConnArg(c), BytesArg(payload)]
  }

  /** The read loop of `WebsocketEndpointHandler`, for any step: each read
      does its step, and an error or a close message ends the loop after
      its step. */
  function Loop(results: seq<ReadResult>, step: ReadResult -> seq<Event>): seq<Event>
    decreases |results|
  {
    if results == [] then []
    else if IsTerminal(results[0]) then step(results[0])
    else step(results[0]) + Loop(results[1..], step)
  }

  /** What one read makes the loop do: a text message dispatches it to hs;
      anything else is skipped. */
  function ReadStep(r: ReadResult, c: WsConnection, hs: seq<WsHandler>, callbackResult: Invocation -> Option<string>): (s: seq<Event>)
    ensures !(r.Frame? && r.messageType == TextMessage) ==> s == []
    ensures r.Frame? && r.messageType == TextMessage ==> |s| == |Dispatch(hs, MessageArgs(c, r.payload), callbackResult).invoked|
    ensures forall i :: 0 <= i < |s| ==> s[i].Callback?
  {
    if r.Frame? && r.messageType == TextMessage
    then Callbacks(Dispatch(hs, MessageArgs(c, r.payload), callbackResult).invoked)
    else []
  }

  function StepOf(c: WsConnection, hs: seq<WsHandler>, callbackResult: Invocation -> Option<string>): ReadResult -> seq<Event>
  {
    r => ReadStep(r, c, hs, callbackResult)
  }

  /** The read loop on connection c with message handlers hs. */
  function ReadLoop(results: seq<ReadResult>, c: WsConnection, hs: seq<WsHandler>, callbackResult: Invocation -> Option<string>): seq<Event>
  {
    Loop(results, StepOf(c, hs, callbackResult))
  }

  /** Everything one `WebsocketEndpointHandler` call does, given the upgrade
      outcome, the read results, the id drawn for the connection and the handlers
      of the two kinds it dispatches to. */
  function EndpointEvents(upgrade: UpgradeResult, results: seq<ReadResult>, connId: Id,
                          openHs: seq<WsHandler>, messageHs: seq<WsHandler>,
                          callbackResult: Invocation -> Option<string>): (events: seq<Event>)
    ensures upgrade.UpgradeFailed? <==> events == []
    ensures upgrade.Upgraded? ==> events[0] == ConnectionAdded(NewWsConnection(connId, upgrade.handle))
  {
    match upgrade
    case UpgradeFailed(_) => []
    case Upgraded(handle) =>
      var c := NewWsConnection(connId, handle);
      [ConnectionAdded(c)]
        + Callbacks(Dispatch(openHs, [ConnArg(c)], callbackResult).invoked)
        + ReadLoop(results, c, messageHs, callbackResult)
        + [ConnectionRemoved(c, true)]
  }

  /** Reference view of the loop: the payloads of the text messages read
      before the loop ends, in order. */
  function TextPayloads(results: seq<ReadResult>): seq<Bytes>
  {
    if results == [] || IsTerminal(results[0]) then []
    else (if results[0].messageType == TextMessage then [results[0].payload] else []) + TextPayloads(results[1..])
  }

  /** Each handler of hs run once with (c, payload), in list order. */
  function Broadcast(hs: seq<WsHandler>, c: WsConnection, payload: Bytes): seq<Invocation>
  {
    seq(|hs|, i requires 0 <= i < |hs| => MessageCallback(hs[i].id, c, payload))
  }

  /** One broadcast per payload, in payload order. */
  function FanOut(hs: seq<WsHandler>, c: WsConnection, payloads: seq<Bytes>): seq<Invocation>
  {
    if payloads == [] then [] else Broadcast(hs, c, payloads[0]) + FanOut(hs, c, payloads[1..])
  }

  /** Each connection handler of hs run once with c, in list order. */
  function Opened(hs: seq<WsHandler>, c: WsConnection): seq<Invocation>
  {
    seq(|hs|, i requires 0 <= i < |hs| => ConnectionCallback(hs[i].id, c))
  }

  /** The loop on the suffix from position k: one step, then the rest
      unless the step ended the loop. */
  lemma LoopAt(results: seq<ReadResult>, k: nat, step: ReadResult -> seq<Event>)
    requires k < |results|
    ensures Loop(results[k..], step)
         == step(results[k]) + (if IsTerminal(results[k]) then [] else Loop(results[k + 1..], step))
  {
    assert results[k..][0] == results[k];
    assert results[k..][1..] == results[k + 1..];
  }

  /** The events of the first k reads, one step after another: what the
      loop has produced after k iterations. */
  function StepsUpTo(results: seq<ReadResult>, k: nat, step: ReadResult -> seq<Event>): seq<Event>
    requires k <= |results|
    decreases k
  {
    if k == 0 then [] else StepsUpTo(results, k - 1, step) + step(results[k - 1])
  }

  /** Before any read that ends the loop, the steps done so far and the
      loop on the remaining reads make up the whole loop. */
  lemma {:induction false} StepsThenLoop(results: seq<ReadResult>, k: nat, step: ReadResult -> seq<Event>)
    requires k <= |results|
    requires forall j :: 0 <= j < k ==> !IsTerminal(results[j])
    ensures StepsUpTo(results, k, step) + Loop(results[k..], step) == Loop(results, step)
  {
    if k == 0 {
      assert results[0..] == results;
    } else {
      StepThenLoop(results, k, step);
      StepsThenLoop(results, k - 1, step);
    }
  }

  /** Moving one non-terminal read from the loop to the steps done. */
  lemma StepThenLoop(results: seq<ReadResult>, k: nat, step: ReadResult -> seq<Event>)
    requires 0 < k <= |results| && !IsTerminal(results[k - 1])
    ensures StepsUpTo(results, k, step) + Loop(results[k..], step)
         == StepsUpTo(results, k - 1, step) + Loop(results[k - 1..], step)
  {
    var steps := StepsUpTo(results, k - 1, step);
    var here := step(results[k - 1]);
    var rest := Loop(results[k..], step);
    LoopAt(results, k - 1, step);
    assert Loop(results[k - 1..], step) == here + rest;
    assert (steps + here) + rest == steps + (here + rest);
  }

  /** The loop as the method runs it: steps up to and including the read
      that ends it. */
  lemma LoopIsSteps(results: seq<ReadResult>, step: ReadResult -> seq<Event>)
    requires HasTerminal(results)
    ensures Loop(results, step) == StepsUpTo(results, FirstTerminal(results) + 1, step)
  {
    var k := FirstTerminal(results);
    StepsThenLoop(results, k, step);
    LoopAt(results, k, step);
  }

  /** The loop only runs handlers: it never adds or removes a connection. */
  lemma {:induction false} ReadLoopOnlyCallbacks(results: seq<ReadResult>, c: WsConnection, hs: seq<WsHandler>, callbackResult: Invocation -> Option<string>)
    ensures forall i :: 0 <= i < |ReadLoop(results, c, hs, callbackResult)| ==> ReadLoop(results, c, hs, callbackResult)[i].Callback?
  {
    if results != [] {
      var here := ReadStep(results[0], c, hs, callbackResult);
      assert StepOf(c, hs, callbackResult)(results[0]) == here;
      assert forall i :: 0 <= i < |here| ==> here[i].Callback?;
      if !IsTerminal(results[0]) {
        ReadLoopOnlyCallbacks(results[1..], c, hs, callbackResult);
        assert ReadLoop(results, c, hs, callbackResult) == here + ReadLoop(results[1..], c, hs, callbackResult);
      }
    }
  }

  /** A failed upgrade does nothing. Otherwise the connection is added first
      and removed, successfully, last; everything in between is a handler
      run: exactly one add and one remove on every path. */
  lemma {:induction false} EndpointRegistersOnce(upgrade: UpgradeResult, results: seq<ReadResult>, connId: Id,
                              openHs: seq<WsHandler>, messageHs: seq<WsHandler>,
                              callbackResult: Invocation -> Option<string>)
    ensures upgrade.UpgradeFailed? ==> EndpointEvents(upgrade, results, connId, openHs, messageHs, callbackResult) == []
    ensures upgrade.Upgraded? ==>
              var events := EndpointEvents(upgrade, results, connId, openHs, messageHs, callbackResult);
              var c := NewWsConnection(connId, upgrade.handle);
              |events| >= 2 && events[0] == ConnectionAdded(c) && events[|events| - 1] == ConnectionRemoved(c, true) &&
              forall i :: 0 < i < |events| - 1 ==> events[i].Callback?
  {
    if upgrade.Upgraded? {
      var c := NewWsConnection(connId, upgrade.handle);
      var onOpen := Callbacks(Dispatch(openHs, [ConnArg(c)], callbackResult).invoked);
      var loop := ReadLoop(results, c, messageHs, callbackResult);
      var mid := onOpen + loop;
      assert forall i :: 0 <= i < |mid| ==> mid[i].Callback? by {
        ReadLoopOnlyCallbacks(results, c, messageHs, callbackResult);
        assert forall i :: 0 <= i < |onOpen| ==> onOpen[i].Callback?;
      }
      var events := EndpointEvents(upgrade, results, connId, openHs, messageHs, callbackResult);
      assert events == [ConnectionAdded(c)] + mid + [ConnectionRemoved(c, true)];
      assert forall i :: 0 < i < |events| - 1 ==> events[i] == mid[i - 1];
    }
  }

  /** Reads after the one that ends the loop are never looked at. */
  lemma {:induction false} ReadLoopStopsAtTerminal(results: seq<ReadResult>, rest: seq<ReadResult>, c: WsConnection, hs: seq<WsHandler>, callbackResult: Invocation -> Option<string>)
    requires HasTerminal(results)
    ensures ReadLoop(results + rest, c, hs, callbackResult) == ReadLoop(results, c, hs, callbackResult)
  {
    assert (results + rest)[0] == results[0];
    if !IsTerminal(results[0]) {
      assert HasTerminal(results[1..]) by {
        var k :| 0 <= k < |results| && IsTerminal(results[k]);
        assert results[1..][k - 1] == results[k];
      }
      assert (results + rest)[1..] == results[1..] + rest;
      ReadLoopStopsAtTerminal(results[1..], rest, c, hs, callbackResult);
    }
  }

  /** With message handlers only, the loop runs every handler once per text
      message, in handler order, message after message, with the message's
      payload; close, error and other message types run nothing. */
  lemma {:induction false} ReadLoopFansOut(results: seq<ReadResult>, c: WsConnection, hs: seq<WsHandler>, callbackResult: Invocation -> Option<string>)
    requires forall i :: 0 <= i < |hs| ==> hs[i].kind == MessageKind
    ensures ReadLoop(results, c, hs, callbackResult) == Callbacks(FanOut(hs, c, TextPayloads(results)))
  {
    if results != [] {
      var here := ReadStep(results[0], c, hs, callbackResult);
      var hereP: seq<Bytes> := if !IsTerminal(results[0]) && results[0].messageType == TextMessage then [results[0].payload] else [];
      if results[0].Frame? && results[0].messageType == TextMessage {
        DispatchInvokesAll(hs, MessageArgs(c, results[0].payload), callbackResult);
        assert Dispatch(hs, MessageArgs(c, results[0].payload), callbackResult).invoked == Broadcast(hs, c, results[0].payload);
        assert FanOut(hs, c, hereP) == Broadcast(hs, c, results[0].payload);
      }
      assert here == Callbacks(FanOut(hs, c, hereP));
      if !IsTerminal(results[0]) {
        ReadLoopFansOut(results[1..], c, hs, callbackResult);
        FanOutAppend(hs, c, hereP, TextPayloads(results[1..]));
        CallbacksAppend(FanOut(hs, c, hereP), FanOut(hs, c, TextPayloads(results[1..])));
      }
    }
  }

  lemma {:induction false} FanOutAppend(hs: seq<WsHandler>, c: WsConnection, a: seq<Bytes>, b: seq<Bytes>)
    ensures FanOut(hs, c, a + b) == FanOut(hs, c, a) + FanOut(hs, c, b)
  {
    if a != [] {
      assert (a + b)[1..] == a[1..] + b;
      FanOutAppend(hs, c, a[1..], b);
    } else {
      assert a + b == b;
    }
  }

  /** The whole endpoint call, when the registries hold handlers of their
      own kind: add the connection; run every connection handler once with
      it, in order; run every message handler once per text message, in
      order; remove the connection. Nothing else happens. */
  lemma {:induction false} EndpointEventsExact(handle: ConnHandle, results: seq<ReadResult>, connId: Id,
                            openHs: seq<WsHandler>, messageHs: seq<WsHandler>,
                            callbackResult: Invocation -> Option<string>)
    requires forall i :: 0 <= i < |openHs| ==> openHs[i].kind == ConnectionKind
    requires forall i :: 0 <= i < |messageHs| ==> messageHs[i].kind == MessageKind
    ensures var c := NewWsConnection(connId, handle);
            EndpointEvents(Upgraded(handle), results, connId, openHs, messageHs, callbackResult)
            == [ConnectionAdded(c)] + Callbacks(Opened(openHs, c))
               + Callbacks(FanOut(messageHs, c, TextPayloads(results))) + [ConnectionRemoved(c, true)]
  {
    var c := NewWsConnection(connId, handle);
    DispatchInvokesAll(openHs, [ConnArg(c)], callbackResult);
    assert Dispatch(openHs, [ConnArg(c)], callbackResult).invoked == Opened(openHs, c);
    ReadLoopFansOut(results, c, messageHs, callbackResult);
  }

  /** Close handlers are never run by the endpoint, on any path. */
  lemma {:induction false} EndpointNeverRunsCloseHandlers(upgrade: UpgradeResult, results: seq<ReadResult>, connId: Id,
                                       openHs: seq<WsHandler>, messageHs: seq<WsHandler>,
                                       callbackResult: Invocation -> Option<string>)
    requires forall i :: 0 <= i < |openHs| ==> openHs[i].kind == ConnectionKind
    requires forall i :: 0 <= i < |messageHs| ==> messageHs[i].kind == MessageKind
    ensures forall e :: e in EndpointEvents(upgrade, results, connId, openHs, messageHs, callbackResult) ==>
              !(e.Callback? && e.invocation.CloseCallback?)
  {
    if upgrade.Upgraded? {
      var c := NewWsConnection(connId, upgrade.handle);
      var onOpen := Opened(openHs, c);
      var fanned := FanOut(messageHs, c, TextPayloads(results));
      EndpointEventsExact(upgrade.handle, results, connId, openHs, messageHs, callbackResult);
      FanOutOnlyMessages(messageHs, c, TextPayloads(results));
      var events := [ConnectionAdded(c)] + Callbacks(onOpen) + Callbacks(fanned) + [ConnectionRemoved(c, true)];
      forall e | e in events
        ensures !(e.Callback? && e.invocation.CloseCallback?)
      {
        if e in Callbacks(onOpen) {
          var i :| 0 <= i < |onOpen| && e == Callbacks(onOpen)[i];
        } else if e in Callbacks(fanned) {
          var i :| 0 <= i < |fanned| && e == Callbacks(fanned)[i];
        }
      }
    }
  }

  lemma {:induction false} FanOutOnlyMessages(hs: seq<WsHandler>, c: WsConnection, payloads: seq<Bytes>)
    ensures forall i :: 0 <= i < |FanOut(hs, c, payloads)| ==> FanOut(hs, c, payloads)[i].MessageCallback?
  {
    if payloads != [] {
      FanOutOnlyMessages(hs, c, payloads[1..]);
    }
  }

  /** What the wrapped functions return never changes what the loop does:
      the results of both dispatches are dropped. */
  lemma {:induction false} ReadLoopIgnoresCallbackResults(results: seq<ReadResult>, c: WsConnection, hs: seq<WsHandler>,
                                                          f: Invocation -> Option<string>, g: Invocation -> Option<string>)
    ensures ReadLoop(results, c, hs, f) == ReadLoop(results, c, hs, g)
  {
    if results != [] {
      if results[0].Frame? {
        DispatchIgnoresCallbackResults(hs, MessageArgs(c, results[0].payload), f, g);
      }
      if !IsTerminal(results[0]) {
        ReadLoopIgnoresCallbackResults(results[1..], c, hs, f, g);
      }
    }
  }

  lemma {:induction false} EndpointIgnoresCallbackResults(upgrade: UpgradeResult, results: seq<ReadResult>, connId: Id,
                                       openHs: seq<WsHandler>, messageHs: seq<WsHandler>,
                                       f: Invocation -> Option<string>, g: Invocation -> Option<string>)
    ensures EndpointEvents(upgrade, results, connId, openHs, messageHs, f)
         == EndpointEvents(upgrade, results, connId, openHs, messageHs, g)
  {
    if upgrade.Upgraded? {
      var c := NewWsConnection(connId, upgrade.handle);
      DispatchIgnoresCallbackResults(openHs, [ConnArg(c)], f, g);
      ReadLoopIgnoresCallbackResults(results, c, messageHs, f, g);
    }
  }

  /** `WsManager`: the live connections and the three handler registries. */
  class WsManager {
    const Connections: ConnectionList
    const OnMessageHandlers: HandlerList
    const OnCloseHandlers: HandlerList
    const OnConnectionHandlers: HandlerList

    /** Each handler registry holds handlers of its own kind. */
    ghost predicate Valid()
      reads this, OnMessageHandlers, OnCloseHandlers, OnConnectionHandlers
    {
      && OnMessageHandlers.kind == MessageKind && OnMessageHandlers.Valid()
      && OnCloseHandlers.kind == CloseKind && OnCloseHandlers.Valid()
      && OnConnectionHandlers.kind == ConnectionKind && OnConnectionHandlers.Valid()
    }

    /** `NewWsManager`: all four registries empty. */
    constructor NewWsManager()
      ensures Valid()
      ensures fresh(Connections) && fresh(OnMessageHandlers) && fresh(OnCloseHandlers) && fresh(OnConnectionHandlers)
      ensures Connections.connections == []
      ensures OnMessageHandlers.handlers == [] && OnCloseHandlers.handlers == [] && OnConnectionHandlers.handlers == []
    {
      Connections := new ConnectionList();
      OnMessageHandlers := new HandlerList(MessageKind);
      OnCloseHandlers := new HandlerList(CloseKind);
      OnConnectionHandlers := new HandlerList(ConnectionKind);
    }

    /** `WebsocketEndpointHandler` for one inbound request. The upgrade
        outcome and the read results stand for the transport; connId is the
        uuid NewWsConnection draws, fresh among the live connections. Returns
        what it did and how many read results it consumed. On a successful
        upgrade the registry sees exactly one add of the connection and then
        one successful remove of it, and the handlers run only in between;
        the live connections are the same afterwards as before. */
    method WebsocketEndpointHandler(upgrade: UpgradeResult, results: seq<ReadResult>, connId: Id,
                                    callbackResult: Invocation -> Option<string>)
      returns (events: seq<Event>, consumed: nat)
      requires Valid()
      requires upgrade.Upgraded? ==> HasTerminal(results)
      requires forall i :: 0 <= i < |Connections.connections| ==> Connections.connections[i].ID() != connId
      modifies Connections
      ensures Valid()
      ensures Connections.connections == old(Connections.connections)
      ensures Connections.log == old(Connections.log)
                + (if upgrade.Upgraded? then [Registered(NewWsConnection(connId, upgrade.handle)),
                                              Unregistered(NewWsConnection(connId, upgrade.handle), true)]
                   else [])
      ensures events == EndpointEvents(upgrade, results, connId, OnConnectionHandlers.handlers,
                                        OnMessageHandlers.handlers, callbackResult)
      ensures consumed == if upgrade.Upgraded? then FirstTerminal(results) + 1 else 0
    {
      if upgrade.UpgradeFailed? {
        events, consumed := [], 0;
        return;
      }
      var connection := Connections.Add(NewWsConnection(connId, upgrade.handle));
      var onOpen := RunConnectionHandlers(connection, callbackResult);
      var loop;
      loop, consumed := Serve(connection, results, callbackResult);
      AddThenRemoveRestores(old(Connections.connections), connection);
      var removed := Connections.Remove(connection);
      events := [ConnectionAdded(connection)] + Callbacks(onOpen) + loop + [ConnectionRemoved(connection, removed)];
    }

    /** The call of the connection handlers on a registered connection. */
    method RunConnectionHandlers(connection: WsConnection, callbackResult: Invocation -> Option<string>)
      returns (invoked: seq<Invocation>)
      requires connection in Connections.connections
      ensures invoked == Dispatch(OnConnectionHandlers.handlers, [ConnArg(connection)], callbackResult).invoked
    {
      var _, runs := OnConnectionHandlers.Call([ConnArg(connection)], callbackResult);
      invoked := runs;
    }

    /** The `for` loop of `WebsocketEndpointHandler` on a registered
        connection: read until an error or a close message, dispatching
        each text message to the message handlers. */
    method Serve(connection: WsConnection, results: seq<ReadResult>, callbackResult: Invocation -> Option<string>)
      returns (events: seq<Event>, consumed: nat)
      requires connection in Connections.connections
      requires HasTerminal(results)
      ensures events == ReadLoop(results, connection, OnMessageHandlers.handlers, callbackResult)
      ensures consumed == FirstTerminal(results) + 1
    {
      var hs := OnMessageHandlers.handlers;
      ghost var step := StepOf(connection, hs, callbackResult);
      events, consumed := [], 0;
      var stop := false;
      while !stop
        invariant consumed <= |results|
        invariant !stop ==> consumed <= FirstTerminal(results)
        invariant stop ==> consumed == FirstTerminal(results) + 1
        invariant events == StepsUpTo(results, consumed, step)
        decreases |results| - consumed
      {
        var r := results[consumed];
        assert step(r) == ReadStep(r, connection, hs, callbackResult);
        assert StepsUpTo(results, consumed + 1, step) == events + step(r);
        assert IsTerminal(r) ==> consumed == FirstTerminal(results);
        consumed := consumed + 1;
        if r.ReadFailure? {
          stop := true;
        } else {
          if r.messageType == TextMessage {
            var _, invoked := OnMessageHandlers.Call(MessageArgs(connection, r.payload), callbackResult);
            events := events + Callbacks(invoked);
          }
          if r.messageType == CloseMessage {
            stop := true;
          }
        }
      }
      LoopIsSteps(results, step);
    }
  }

  /** How many callbacks in a trace ran the handler with the given id. */
  function CallsTo(id: Id, events: seq<Event>): (n: nat)
    ensures n <= |events|
  {
    if events == [] then 0
    else (if events[0].Callback? && events[0].invocation.handler == id then 1 else 0) + CallsTo(id, events[1..])
  }

  const Hello: Bytes := [0x68, 0x65, 0x6c, 0x6c, 0x6f]

  /** The "message is sent to all handlers" scenario: two message handlers,
      two text frames, then the client goes away. Each handler runs once per
      frame. */
  lemma MessageScenario(id1: Id, id2: Id, handle: ConnHandle, connId: Id, callbackResult: Invocation -> Option<string>)
    requires id1 != id2
    ensures var hs := [NewWsMessageHandler(id1), NewWsMessageHandler(id2)];
            var events := EndpointEvents(Upgraded(handle), [Frame(TextMessage, Hello), Frame(TextMessage, Hello), ReadFailure("EOF")],
                                         connId, [], hs, callbackResult);
            CallsTo(id1, events) == 2 && CallsTo(id2, events) == 2
  {
    var h1, h2 := NewWsMessageHandler(id1), NewWsMessageHandler(id2);
    var hs := [h1, h2];
    var c := NewWsConnection(connId, handle);
    var results := [Frame(TextMessage, Hello), Frame(TextMessage, Hello), ReadFailure("EOF")];
    var m1, m2 := Callback(MessageCallback(id1, c, Hello)), Callback(MessageCallback(id2, c, Hello));
    ScenarioPayloads();
    EndpointEventsExact(handle, results, connId, [], hs, callbackResult);
    ScenarioFanOut(h1, h2, c);
    assert Callbacks(Opened([], c)) == [];
    var events := [ConnectionAdded(c)] + [m1, m2, m1, m2] + [ConnectionRemoved(c, true)];
    assert EndpointEvents(Upgraded(handle), results, connId, [], hs, callbackResult) == events;
    ScenarioCounts(id1, id2, c);
    assert events == [ConnectionAdded(c), m1, m2, m1, m2, ConnectionRemoved(c, true)];
  }

  /** The same scenario's last step: once the first handler is removed, a
      further message reaches only the second. */
  lemma RemovedHandlerScenario(id1: Id, id2: Id, c: WsConnection, callbackResult: Invocation -> Option<string>)
    requires id1 != id2
    ensures var hs := [NewWsMessageHandler(id1), NewWsMessageHandler(id2)];
            var after := Callbacks(Dispatch(DeleteFunc(hs, SameHandlerId(id1)), MessageArgs(c, Hello), callbackResult).invoked);
            CallsTo(id1, after) == 0 && CallsTo(id2, after) == 1
  {
    var h1, h2 := NewWsMessageHandler(id1), NewWsMessageHandler(id2);
    var hs := [h1, h2];
    var kept := DeleteFunc(hs, SameHandlerId(id1));
    RemoveFirstOfTwo(h1, h2);
    var args := MessageArgs(c, Hello);
    var inv := MessageCallback(id2, c, Hello);
    assert Accepts(h2.kind, args) && InvocationOf(h2, args) == inv;
    DispatchInvokesAll(kept, args, callbackResult);
    var invoked := Dispatch(kept, args, callbackResult).invoked;
    assert invoked == [inv];
    var after := Callbacks(invoked);
    assert after == [Callback(inv)];
    assert after[1..] == [];
    assert CallsTo(id1, after) == 0 && CallsTo(id2, after) == 1;
  }

  lemma RemoveFirstOfTwo(h1: WsHandler, h2: WsHandler)
    requires h1.id != h2.id
    ensures DeleteFunc([h1, h2], SameHandlerId(h1.id)) == [h2]
  {
    DeleteFuncDropsOnly([], h1, [h2], SameHandlerId(h1.id));
    assert [] + [h1] + [h2] == [h1, h2];
  }

  lemma ScenarioPayloads()
    ensures TextPayloads([Frame(TextMessage, Hello), Frame(TextMessage, Hello), ReadFailure("EOF")]) == [Hello, Hello]
  {
    var results := [Frame(TextMessage, Hello), Frame(TextMessage, Hello), ReadFailure("EOF")];
    assert IsTerminal(results[2]);
    assert TextPayloads(results[2..]) == [];
    assert results[1..][1..] == results[2..];
    assert TextPayloads(results[1..]) == [Hello] + TextPayloads(results[2..]);
  }

  lemma ScenarioFanOut(h1: WsHandler, h2: WsHandler, c: WsConnection)
    ensures Callbacks(FanOut([h1, h2], c, [Hello, Hello]))
         == [Callback(MessageCallback(h1.id, c, Hello)), Callback(MessageCallback(h2.id, c, Hello)),
             Callback(MessageCallback(h1.id, c, Hello)), Callback(MessageCallback(h2.id, c, Hello))]
  {
    var b := Broadcast([h1, h2], c, Hello);
    assert b == [MessageCallback(h1.id, c, Hello), MessageCallback(h2.id, c, Hello)];
    assert [Hello, Hello][1..] == [Hello];
    assert FanOut([h1, h2], c, [Hello]) == b + FanOut([h1, h2], c, [Hello][1..]);
    assert [Hello][1..] == [];
    assert FanOut([h1, h2], c, [Hello, Hello]) == b + b;
  }

  lemma ScenarioCounts(id1: Id, id2: Id, c: WsConnection)
    requires id1 != id2
    ensures var m1, m2 := Callback(MessageCallback(id1, c, Hello)), Callback(MessageCallback(id2, c, Hello));
            var events := [ConnectionAdded(c), m1, m2, m1, m2, ConnectionRemoved(c, true)];
            CallsTo(id1, events) == 2 && CallsTo(id2, events) == 2
  {
    var m1, m2 := Callback(MessageCallback(id1, c, Hello)), Callback(MessageCallback(id2, c, Hello));
    var events := [ConnectionAdded(c), m1, m2, m1, m2, ConnectionRemoved(c, true)];
    var e0, e1, e2, e3, e4, e5 := events[0], events[1], events[2], events[3], events[4], events[5];
    assert [e5][1..] == [];
    assert CallsTo(id1, [e5]) == 0 && CallsTo(id2, [e5]) == 0;
    assert [e4, e5][1..] == [e5];
    assert CallsTo(id1, [e4, e5]) == 0 && CallsTo(id2, [e4, e5]) == 1;
    assert [e3, e4, e5][1..] == [e4, e5];
    assert CallsTo(id1, [e3, e4, e5]) == 1 && CallsTo(id2, [e3, e4, e5]) == 1;
    assert [e2, e3, e4, e5][1..] == [e3, e4, e5];
    assert CallsTo(id1, [e2, e3, e4, e5]) == 1 && CallsTo(id2, [e2, e3, e4, e5]) == 2;
    assert [e1, e2, e3, e4, e5][1..] == [e2, e3, e4, e5];
    assert CallsTo(id1, [e1, e2, e3, e4, e5]) == 2 && CallsTo(id2, [e1, e2, e3, e4, e5]) == 2;
    assert events[1..] == [e1, e2, e3, e4, e5];
  }

  /** The manager's "add/remove on message handler" scenario: the count goes
      to 1 and back to 0. */
  method ManagerHandlerScenario(id: Id) returns (counts: seq<int>)
    ensures counts == [1, 0]
  {
    var manager := new WsManager.NewWsManager();
    var handler := NewWsMessageHandler(id);
    var _ := manager.OnMessageHandlers.Add(handler);
    var n := manager.OnMessageHandlers.Count();
    counts := [n];
    var _ := manager.OnMessageHandlers.Remove(handler);
    n := manager.OnMessageHandlers.Count();
    counts := counts + [n];
  }

  /** The manager's "add/remove connection" scenario: the count goes to 1
      and back to 0, and the registered connection hands back the transport
      it wraps. */
  method ManagerConnectionScenario(handle: ConnHandle, id: Id) returns (counts: seq<int>, conn: ConnHandle)
    ensures counts == [1, 0]
    ensures conn == handle
  {
    var manager := new WsManager.NewWsManager();
    var connection := manager.Connections.Add(NewWsConnection(id, handle));
    var n := manager.Connections.Count();
    counts := [n];
    conn := connection.Conn();
    var _ := manager.Connections.Remove(connection);
    n := manager.Connections.Count();
    counts := counts + [n];
  }
}
