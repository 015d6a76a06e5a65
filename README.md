# wsserver — a Dafny model

This models the `wsserver` package of websocketutil, a small Go library on top of
gorilla/websocket. The package has three parts:

- a registry of live connections (`connectionList`);
- three registries of callbacks (`handlerList`), one each for message, close and
  connection handlers;
- the `WsManager`, which owns the four registries. Its HTTP endpoint upgrades a
  request, registers the connection, runs the connection handlers, and then reads
  messages. Each text message goes to every message handler. The loop stops at a
  read error or a close message, and the connection is then unregistered.

Each Go file becomes one module:

- `connection.dfy` (module `Connection`): `WsConnection` as a value. `ConnectionList`
  is a class whose `connections` field is a `seq` that `Add` and `Remove` reassign.
- `handler.dfy` (module `Handler`):
  - The three handler types become one `WsHandler` datatype with a `kind`.
  - Each `Call` is a function from the argument list to the error it returns and
    the run of the wrapped function it makes.
  - `HandlerList` is a class. Its `Call` is a method whose loop is proved against
    the `Dispatch` function.
- `wsserver.dfy` (module `WsServer`): `WsManager` is a class over the four
  registries.
  - `WebsocketEndpointHandler` is a method. It returns the trace of the handler
    runs it made, framed by the registration of the connection and its removal.
  - The connection registry keeps a ghost log of its adds and removes. The method
    promises that the log grows by exactly one add of the new connection and then
    one successful remove of it.
  - The handler runs can only happen while the connection is registered: the
    methods that make them require the connection to be in the registry.
  - Its read loop is the method `Serve`, proved against the function `ReadLoop`.
- `go_slices.dfy`, `go_strings.dfy` and `wrappers.dfy` hold the parts of the Go
  standard library the package relies on: `slices.DeleteFunc`, `strconv.Itoa`,
  `strings.Join`, and an `Option` type for nil-or-value.

How the environment is modelled:

- The transport is given as inputs: the upgrade outcome and the sequence of results
  `ReadMessage` returns.
- The uuid that a constructor draws is a parameter.
- A wrapped handler function is not run. The model records that it was run, and
  with which arguments, as an `Invocation`.
- What a wrapped function would return is a parameter, `callbackResult`. The code
  discards it, so no function of the model reads it. The lemmas stating that
  nothing depends on it follow from the signatures and record this fact; they
  are not separate evidence about behaviour.
- Go values passed as `...any` are the `Arg` datatype: a connection, a byte slice,
  or some other value named by its `reflect` type name.
- The message-type codes are the gorilla/websocket constants. These are the frame
  opcodes of section 5.2 of RFC 6455: text 1, binary 2, close 8, ping 9, pong 10.

Behaviour followed as the code is written:

- The endpoint never calls the close handlers. `OnCloseHandlers` is declared and
  can be filled, but `wsserver/wsserver.go:28-54` never dispatches to it.
  `EndpointNeverRunsCloseHandlers` proves that no path runs a close handler.
- `handlerList.Call` ignores the wrapped functions' errors. It collects only the
  argument-shape errors of each handler's `Call`, and `DispatchSucceedsIff` states
  exactly when the aggregate is nil.

## Model

| member | source | states |
|---|---|---|
| GoSlices.DeleteFunc | wsserver/handler.go:125-127 | the result holds only elements of the input that the predicate rejects, and keeps every such element; it is never longer than the input |
| GoSlices.DeleteFuncAppend | wsserver/handler.go:125-127 | deleting from a concatenation is deleting from each part and concatenating |
| GoSlices.DeleteFuncShrinks | wsserver/handler.go:124-128 | the result is strictly shorter exactly when some element matches, which is what the `len < originalLen` test of Remove reports |
| GoSlices.DeleteFuncKeepsAll | wsserver/connection.go:54-58 | when nothing matches, the slice is left exactly as it was |
| GoSlices.DeleteFuncDropsOnly | wsserver/connection.go:55-57 | deleting a single matching element leaves its neighbours in their original order |
| GoStrings.Itoa | wsserver/handler.go:43 | the decimal text of n is non-empty and all digits, with a leading zero only for 0 |
| GoStrings.ItoaRoundTrip | wsserver/handler.go:43 | reading the decimal text of n back gives n |
| GoStrings.ItoaInjective | wsserver/handler.go:73 | different counts give different texts |
| GoStrings.Join | wsserver/handler.go:148 | `strings.Join`: the text is as long as the parts together plus one separator between each pair of neighbours, and starts with the first part |
| GoStrings.JoinAppend | wsserver/handler.go:148 | joining a concatenation is joining the parts with one separator between them |
| Connection.WsConnection.ID | wsserver/connection.go:20-22 | the id the connection was built with |
| Connection.WsConnection.Conn | wsserver/connection.go:31-33 | the transport the connection was built with |
| Connection.SameConnectionId | wsserver/connection.go:55-57 | the closure passed to `slices.DeleteFunc` matches exactly the connections with the given id |
| Connection.NewWsConnection | wsserver/connection.go:24-33 | the new connection reports the given id from ID() and the given transport from Conn() |
| Connection.ConnectionList.constructor | wsserver/connection.go:39-42 | the zero registry is empty |
| Connection.ConnectionList.Add | wsserver/connection.go:44-49 | appends the connection at the end, keeps the earlier ones, returns its argument, and logs the add |
| Connection.ConnectionList.Remove | wsserver/connection.go:51-59 | drops exactly the connections with the argument's id and keeps the rest in order; returns true iff one was there; nothing changes when it returns false; logs the remove with its result |
| Connection.ConnectionList.Count | wsserver/connection.go:61-65 | the number of registered connections |
| Connection.AddThenRemoveRestores | wsserver/connection.go:44-59 | adding a connection with a fresh id and then removing it succeeds and restores the previous registry |
| Connection.CountScenario | wsserver/connection_test.go:11-24 | adding two connections and removing each gives the counts 1, 2, 1, 0 |
| Handler.TypeName | wsserver/handler.go:45-51 | the `reflect` type name in the type errors: `*wsserver.WsConnection` for a connection, `[]uint8` for a byte slice, and the value's own type name otherwise |
| Handler.WsHandler.ID | wsserver/handler.go:23-25 | the id the handler was built with |
| Handler.SameHandlerId | wsserver/handler.go:125-127 | the closure passed to `slices.DeleteFunc` matches exactly the handlers with the given id |
| Handler.WsHandler.Call | wsserver/handler.go:14-17 | a handler's Call returns nil exactly when the arguments have its kind's shape, and it runs the wrapped function exactly then, with those arguments |
| Handler.NewWsMessageHandler | wsserver/handler.go:32-39 | the new handler has the given id and is a message handler |
| Handler.NewWsCloseHandler | wsserver/handler.go:62-69 | the new handler has the given id and is a close handler |
| Handler.NewWsConnectionHandler | wsserver/handler.go:88-95 | the new handler has the given id and is a connection handler |
| Handler.MessageCall | wsserver/handler.go:41-55 | nil and a run on (connection, bytes) iff there are two arguments of those types; otherwise the arity, connection-type or bytes-type error text, checked in that order |
| Handler.CloseCall | wsserver/handler.go:71-81 | nil and a run on the connection iff there is one connection argument; otherwise the arity or connection-type error text |
| Handler.ConnectionCall | wsserver/handler.go:97-107 | nil and a run on the connection iff there is one connection argument; otherwise the arity or connection-type error text |
| Handler.ArityErrorNamesCount | wsserver/handler.go:42-43 | an arity error reads the fixed prefix followed by the decimal count of arguments received |
| Handler.CallDiscardsCallbackResult | wsserver/handler.go:53-54 | whatever the wrapped function returns, Call's outcome is the same; this follows from the signature, since Call never reads the returned value |
| Handler.Dispatch | wsserver/handler.go:141-146 | every handler contributes exactly one error or one run |
| Handler.Outcome | wsserver/handler.go:142-145 | one handler's call contributes exactly one error or one run |
| Handler.Aggregate | wsserver/handler.go:147-150 | nil exactly when no error was collected; otherwise the texts joined by ",\n", so a single error comes back unchanged |
| Handler.DispatchAppend | wsserver/handler.go:141-146 | no short-circuit: dispatching to a + b is dispatching to a and then to b |
| Handler.DispatchSingle | wsserver/handler.go:142-145 | dispatching to one handler gives that handler's Call outcome |
| Handler.DispatchSucceedsIff | wsserver/handler.go:137-151 | no error is collected iff every handler accepts the argument shape |
| Handler.DispatchInvokesAll | wsserver/handler.go:141-146 | when every handler accepts, each one runs once, in list order, with the arguments |
| Handler.DispatchInvokesOnlyHeld | wsserver/handler.go:141-146 | every run belongs to a handler in the list that accepts the arguments |
| Handler.DispatchIgnoresCallbackResults | wsserver/handler.go:142-145 | dispatch does not depend on what the wrapped functions return; this follows from the signature |
| Handler.DispatchAfterRemove | wsserver/handler.go:121-129 | after removing a handler by id, dispatch runs the remaining handlers in their old order and never the removed one |
| Handler.DispatchSkipsAbsent | wsserver/handler.go:141-146 | a handler id not in the list is never run |
| Handler.HandlerList.constructor | wsserver/handler.go:109-112 | the zero registry is empty and of the given kind |
| Handler.HandlerList.Add | wsserver/handler.go:114-119 | appends the handler at the end, keeps the earlier ones, returns its argument, and preserves the one-kind invariant |
| Handler.HandlerList.Remove | wsserver/handler.go:121-129 | drops exactly the handlers with the argument's id and keeps the rest in order; returns true iff one was there; nothing changes when it returns false |
| Handler.HandlerList.Count | wsserver/handler.go:131-135 | the number of registered handlers |
| Handler.HandlerList.Call | wsserver/handler.go:137-151 | the loop calls every handler in order; its runs are the dispatch's runs, and its error is the aggregate of the collected errors |
| Handler.CountScenario | wsserver/handler_test.go:12-24 | adding two handlers and removing each gives the counts 1, 2, 1, 0 |
| Handler.OrderScenario | wsserver/handler_test.go:25-43 | two message handlers run on (connection, "message") in order, and the call returns nil |
| Handler.CloseOrderScenario | wsserver/handler_test.go:44-62 | two close handlers run on the connection in order, and the call returns nil |
| WsServer.IsTerminal | wsserver/wsserver.go:40-52 | text, binary, ping and pong messages do not end the loop; only a read error or a close message does |
| WsServer.ReadStep | wsserver/wsserver.go:46-48 | a text message produces one event per dispatched run, all of them handler runs; any other read produces nothing |
| WsServer.EndpointEvents | wsserver/wsserver.go:28-54 | a failed upgrade does nothing, and only a failed upgrade does nothing; otherwise the first event is the connection being added |
| WsServer.FirstTerminal | wsserver/wsserver.go:39-53 | the position of the first read that is an error or a close message; no earlier read is one |
| WsServer.StepsThenLoop | wsserver/wsserver.go:39-53 | while no read so far ended the loop, the steps done so far followed by the loop on the remaining reads make up the whole loop |
| WsServer.StepThenLoop | wsserver/wsserver.go:39-53 | a read that does not end the loop moves from the loop still to run into the steps done, leaving the whole unchanged |
| WsServer.LoopIsSteps | wsserver/wsserver.go:39-53 | the loop is the steps up to and including the read that ends it |
| WsServer.LoopAt | wsserver/wsserver.go:39-53 | the loop from position k is step k, followed by the rest unless read k ends the loop |
| WsServer.CallbacksAppend | wsserver/wsserver.go:37-47 | the trace of two run sequences is the concatenation of their traces |
| WsServer.ReadLoopOnlyCallbacks | wsserver/wsserver.go:39-53 | the read loop only runs handlers; it never changes the connection registry |
| WsServer.EndpointRegistersOnce | wsserver/wsserver.go:28-54 | a failed upgrade does nothing; otherwise the connection is added first and removed, successfully, last, with only handler runs between |
| WsServer.ReadLoopStopsAtTerminal | wsserver/wsserver.go:40-52 | reads after an error or a close message are never looked at |
| WsServer.ReadLoopFansOut | wsserver/wsserver.go:39-53 | with message handlers, the loop runs every handler once per text message, in handler order and message order, with the payload; other reads run nothing |
| WsServer.FanOutAppend | wsserver/wsserver.go:46-48 | the fan-out of two payload sequences is the concatenation of their fan-outs |
| WsServer.EndpointEventsExact | wsserver/wsserver.go:28-54 | the endpoint adds the connection, runs each connection handler once, runs each message handler once per text message, then removes the connection; nothing else happens |
| WsServer.EndpointNeverRunsCloseHandlers | wsserver/wsserver.go:28-54 | no path of the endpoint runs a close handler |
| WsServer.FanOutOnlyMessages | wsserver/wsserver.go:46-48 | the fan-out consists of message-handler runs only |
| WsServer.ReadLoopIgnoresCallbackResults | wsserver/wsserver.go:46-48 | the loop does not depend on what the handlers return; this follows from the signature |
| WsServer.EndpointIgnoresCallbackResults | wsserver/wsserver.go:37-47 | the endpoint does not depend on what the handlers return; this follows from the signature |
| WsServer.WsManager.NewWsManager | wsserver/wsserver.go:18-26 | four new, empty registries, each holding its own kind |
| WsServer.WsManager.WebsocketEndpointHandler | wsserver/wsserver.go:28-54 | does what EndpointEvents describes; on a successful upgrade the registry log grows by exactly one add of the new connection followed by one successful remove of it, and nothing on a failed one; consumes the reads up to and including the first error or close message; leaves the live connections as they were |
| WsServer.WsManager.RunConnectionHandlers | wsserver/wsserver.go:37 | the connection handlers run on a connection that is registered, in list order, as the dispatch describes |
| WsServer.WsManager.Serve | wsserver/wsserver.go:39-53 | on a registered connection, the loop yields the ReadLoop trace and consumes exactly the reads up to and including the one that ends it |
| WsServer.MessageScenario | wsserver/wsserver_test.go:57-98 | two message handlers and two text messages: each handler runs twice |
| WsServer.RemovedHandlerScenario | wsserver/wsserver_test.go:99-103 | after the first handler is removed, a further message runs only the second |
| WsServer.RemoveFirstOfTwo | wsserver/handler.go:121-129 | removing the first of two handlers with distinct ids leaves the second |
| WsServer.ManagerHandlerScenario | wsserver/wsserver_test.go:19-29 | adding a message handler to a new manager and removing it gives the counts 1, 0 |
| WsServer.ManagerConnectionScenario | wsserver/wsserver_test.go:30-56 | registering a connection gives the count 1, hands back the wrapped transport, and removing it gives the count 0 |

## Left out

- The `sync.RWMutex` locks and all concurrency. Every operation is atomic in the
  model, and each endpoint call sees its handler registries as fixed for its whole
  run.
- uuid generation. Ids are parameters. `WebsocketEndpointHandler` requires the id
  to be different from every live connection's id. A uuid collision is not
  modelled.
- `Upgrader.Upgrade`, `Conn.ReadMessage`, `net/http` and the transport itself. The
  upgrade outcome and the read results are inputs.
- `WsConnection.Close`. It only forwards to the transport's `Close`.
- Logging with `log.Println` and `log.Printf`.
- What the wrapped handler functions do. Their runs are recorded; their effects and
  results are not.
- `reflect.TypeOf(..).String()` is kept only as the stored type name of an `Arg`. A
  nil interface argument, which makes `reflect.TypeOf` return nil and the
  `.String()` call panic, is not modelled.
- WsServer.WsManager.WebsocketEndpointHandler: this requires a read that
  ends the loop, an error or a close message, when the upgrade succeeds. Without
  one the Go loop never returns, and the model describes only calls that return.
- WsServer.RemovedHandlerScenario: the test removes the handler while the connection
  is still open, so the next message runs only the second handler. The model keeps
  the handler registries fixed during one endpoint call, so this lemma states the
  dispatch of that further message separately rather than as part of the loop.
