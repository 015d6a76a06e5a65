/** wsserver/handler.go: the three handler kinds with their run-time argument
    checks, and the ordered handler registry that dispatches to them. */
module Handler {
  import opened Wrappers
  import opened GoStrings
  import opened GoSlices
  import opened Connection

  type Bytes = seq<bv8>

  /** A dynamically typed argument of `Call(args ...any)`. */
  datatype Arg =
    | ConnArg(connection: WsConnection)
    | BytesArg(bytes: Bytes)
    | OtherArg(typeName: string)

  /** What `reflect.TypeOf(arg).String()` prints; other types keep their
      name as an opaque string. */
  function TypeName(a: Arg): (name: string)
    ensures a.ConnArg? ==> name == "*wsserver.WsConnection"
    ensures a.BytesArg? ==> name == "[]uint8"
    ensures a.OtherArg? ==> name == a.typeName
  {
    match a
    case ConnArg(_) => "*wsserver.WsConnection"
    case BytesArg(_) => "[]uint8"
    case OtherArg(name) => name
  }

  /** The three wrapper types WsMessageHandler, WsCloseHandler and
      WsConnectionHandler. */
  datatype HandlerKind = MessageKind | CloseKind | ConnectionKind

  /** A handler: its id and its kind. The wrapped function is opaque; what
      it is called with is recorded as an Invocation. */
  datatype WsHandler = WsHandler(id: Id, kind: HandlerKind) {

    function ID(): (r: Id)
      ensures r == id
    {
      id
    }

    /** The `Call` method of the handler's own type. */
    function Call(args: seq<Arg>, callbackResult: Invocation -> Option<string>): (r: CallResult)
      ensures r.err.None? <==> Accepts(kind, args)
      ensures r.invoked == if Accepts(kind, args) then Some(InvocationOf(this, args)) else None
    {
      match kind
      case MessageKind => MessageCall(id, args, callbackResult)
      case CloseKind => CloseCall(id, args, callbackResult)
      case ConnectionKind => ConnectionCall(id, args, callbackResult)
    }
  }

  function NewWsMessageHandler(id: Id): (h: WsHandler)
    ensures h.ID() == id && h.kind == MessageKind
  {
    WsHandler(id, MessageKind)
  }

  function NewWsCloseHandler(id: Id): (h: WsHandler)
    ensures h.ID() == id && h.kind == CloseKind
  {
    WsHandler(id, CloseKind)
  }

  function NewWsConnectionHandler(id: Id): (h: WsHandler)
    ensures h.ID() == id && h.kind == ConnectionKind
  {
    WsHandler(id, ConnectionKind)
  }

  /** One run of a wrapped function, with the arguments it received. */
  datatype Invocation =
    | MessageCallback(handler: Id, connection: WsConnection, message: Bytes)
    | CloseCallback(handler: Id, connection: WsConnection)
    | ConnectionCallback(handler: Id, connection: WsConnection)

  /** The outcome of one `Call`: the error it returns (None for nil) and the
      run of the wrapped function it made, if any. */
  datatype CallResult = CallResult(err: Option<string>, invoked: Option<Invocation>)

  /** The argument shape each kind's wrapped function takes. */
  predicate Accepts(kind: HandlerKind, args: seq<Arg>)
  {
    match kind
    case MessageKind => |args| == 2 && args[0].ConnArg? && args[1].BytesArg?
    case _ => |args| == 1 && args[0].ConnArg?
  }

  /** The run of h's wrapped function on a well-shaped argument list. */
  function InvocationOf(h: WsHandler, args: seq<Arg>): Invocation
    requires Accepts(h.kind, args)
  {
    match h.kind
    case MessageKind => MessageCallback(h.id, args[0].connection, args[1].bytes)
    case CloseKind => CloseCallback(h.id, args[0].connection)
    case ConnectionKind => ConnectionCallback(h.id, args[0].connection)
  }

  const MessageArityPrefix: string := "expected 2 argument, got "
  const SingleArityPrefix: string := "expected 1 argument, got "
  const ConnectionTypePrefix: string := "expected *WsConnection, got "
  const BytesTypePrefix: string := "expected []byte, got "

  /** `WsMessageHandler.Call`. callbackResult is what the wrapped function
      would return; Call drops it and returns nil once the function has run. */
  function MessageCall(id: Id, args: seq<Arg>, callbackResult: Invocation -> Option<string>): (r: CallResult)
    ensures r.err.None? <==> |args| == 2 && args[0].ConnArg? && args[1].BytesArg?
    ensures r.invoked.Some? <==> r.err.None?
    ensures r.invoked.Some? ==> r.invoked.value == MessageCallback(id, args[0].connection, args[1].bytes)
    ensures |args| != 2 ==> r.err == Some(MessageArityPrefix + Itoa(|args|))
    ensures |args| == 2 && !args[0].ConnArg? ==> r.err == Some(ConnectionTypePrefix + TypeName(args[0]))
    ensures |args| == 2 && args[0].ConnArg? && !args[1].BytesArg? ==>
              r.err == Some(BytesTypePrefix + TypeName(args[1]))
  {
    if |args| != 2 then
      CallResult(Some(MessageArityPrefix + Itoa(|args|)), None)
    else if !args[0].ConnArg? then
      CallResult(Some(ConnectionTypePrefix + TypeName(args[0])), None)
    else if !args[1].BytesArg? then
      CallResult(Some(BytesTypePrefix + TypeName(args[1])), None)
    else
      CallResult(None, Some(MessageCallback(id, args[0].connection, args[1].bytes)))
  }

  /** `WsCloseHandler.Call`: exactly one connection argument. */
  function CloseCall(id: Id, args: seq<Arg>, callbackResult: Invocation -> Option<string>): (r: CallResult)
    ensures r.err.None? <==> |args| == 1 && args[0].ConnArg?
    ensures r.invoked.Some? <==> r.err.None?
    ensures r.invoked.Some? ==> r.invoked.value == CloseCallback(id, args[0].connection)
    ensures |args| != 1 ==> r.err == Some(SingleArityPrefix + Itoa(|args|))
    ensures |args| == 1 && !args[0].ConnArg? ==> r.err == Some(ConnectionTypePrefix + TypeName(args[0]))
  {
    if |args| != 1 then
      CallResult(Some(SingleArityPrefix + Itoa(|args|)), None)
    else if !args[0].ConnArg? then
      CallResult(Some(ConnectionTypePrefix + TypeName(args[0])), None)
    else
      CallResult(None, Some(CloseCallback(id, args[0].connection)))
  }

  /** `WsConnectionHandler.Call`: the same checks as CloseCall. */
  function ConnectionCall(id: Id, args: seq<Arg>, callbackResult: Invocation -> Option<string>): (r: CallResult)
    ensures r.err.None? <==> |args| == 1 && args[0].ConnArg?
    ensures r.invoked.Some? <==> r.err.None?
    ensures r.invoked.Some? ==> r.invoked.value == ConnectionCallback(id, args[0].connection)
    ensures |args| != 1 ==> r.err == Some(SingleArityPrefix + Itoa(|args|))
    ensures |args| == 1 && !args[0].ConnArg? ==> r.err == Some(ConnectionTypePrefix + TypeName(args[0]))
  {
    if |args| != 1 then
      CallResult(Some(SingleArityPrefix + Itoa(|args|)), None)
    else if !args[0].ConnArg? then
      CallResult(Some(ConnectionTypePrefix + TypeName(args[0])), None)
    else
      CallResult(None, Some(ConnectionCallback(id, args[0].connection)))
  }

  /** The arity error names the number of arguments received: it can be read
      back from the text after the fixed prefix. */
  lemma {:induction false} ArityErrorNamesCount(h: WsHandler, args: seq<Arg>, callbackResult: Invocation -> Option<string>)
    requires if h.kind == MessageKind then |args| != 2 else |args| != 1
    ensures var prefix := if h.kind == MessageKind then MessageArityPrefix else SingleArityPrefix;
            var e := h.Call(args, callbackResult).err;
            e.Some? && |e.value| > |prefix| && e.value[..|prefix|] == prefix &&
            AllDigits(e.value[|prefix|..]) && ParseDecimal(e.value[|prefix|..]) == |args|
  {
    var prefix := if h.kind == MessageKind then MessageArityPrefix else SingleArityPrefix;
    var e := h.Call(args, callbackResult).err;
    assert e.value == prefix + Itoa(|args|);
    assert e.value[|prefix|..] == Itoa(|args|);
    ItoaRoundTrip(|args|);
  }

  /** Whatever the wrapped function returns, Call's outcome is the same. */
  lemma {:induction false} CallDiscardsCallbackResult(h: WsHandler, args: seq<Arg>, f: Invocation -> Option<string>, g: Invocation -> Option<string>)
    ensures h.Call(args, f) == h.Call(args, g)
  {
  }

  /** What one `handlerList.Call` produced: the error texts collected, in call
      order, and the runs of wrapped functions, in call order. */
  datatype DispatchResult = DispatchResult(errors: seq<string>, invoked: seq<Invocation>) {
    function Then(next: DispatchResult): DispatchResult {
      DispatchResult(errors + next.errors, invoked + next.invoked)
    }
  }

  /** The loop of `handlerList.Call` over hs: every handler is called, in
      order, and its error or its run is appended. */
  function Dispatch(hs: seq<WsHandler>, args: seq<Arg>, callbackResult: Invocation -> Option<string>): (d: DispatchResult)
    ensures |d.errors| + |d.invoked| == |hs|
    decreases |hs|
  {
    if hs == [] then DispatchResult([], [])
    else Dispatch(hs[..|hs| - 1], args, callbackResult).Then(Outcome(hs[|hs| - 1], args, callbackResult))
  }

  /** What one handler's Call adds to the dispatch: its error or its run. */
  function Outcome(h: WsHandler, args: seq<Arg>, callbackResult: Invocation -> Option<string>): (d: DispatchResult)
    ensures |d.errors| + |d.invoked| == 1
  {
    var r := h.Call(args, callbackResult);
    DispatchResult(r.err.ToSeq(), r.invoked.ToSeq())
  }

  const ErrorSeparator: string := ",\n"

  /** The error `handlerList.Call` returns: nil when nothing failed, else one
      error whose text is the collected texts joined by ",\n". */
  function Aggregate(errors: seq<string>): (err: Option<string>)
    ensures err.None? <==> errors == []
    ensures err.Some? ==> err.value == Join(errors, ErrorSeparator)
    ensures |errors| == 1 ==> err == Some(errors[0])
  {
    if |errors| > 0 then Some(Join(errors, ErrorSeparator)) else None
  }

  /** No short-circuit: dispatching to a + b is dispatching to a and then to
      b, whatever a's handlers returned. */
  lemma {:induction false} DispatchAppend(a: seq<WsHandler>, b: seq<WsHandler>, args: seq<Arg>, callbackResult: Invocation -> Option<string>)
    ensures Dispatch(a + b, args, callbackResult) == Dispatch(a, args, callbackResult).Then(Dispatch(b, args, callbackResult))
  {
    if b == [] {
      assert a + b == a;
    } else {
      var init := b[..|b| - 1];
      var o := Outcome(b[|b| - 1], args, callbackResult);
      assert (a + b)[..|a + b| - 1] == a + init;
      assert (a + b)[|a + b| - 1] == b[|b| - 1];
      calc {
        Dispatch(a + b, args, callbackResult);
        Dispatch(a + init, args, callbackResult).Then(o);
        { DispatchAppend(a, init, args, callbackResult); }
        Dispatch(a, args, callbackResult).Then(Dispatch(init, args, callbackResult)).Then(o);
        { ThenAssociative(Dispatch(a, args, callbackResult), Dispatch(init, args, callbackResult), o); }
        Dispatch(a, args, callbackResult).Then(Dispatch(b, args, callbackResult));
      }
    }
  }

  lemma ThenAssociative(x: DispatchResult, y: DispatchResult, z: DispatchResult)
    ensures x.Then(y).Then(z) == x.Then(y.Then(z))
  {
    assert (x.errors + y.errors) + z.errors == x.errors + (y.errors + z.errors);
    assert (x.invoked + y.invoked) + z.invoked == x.invoked + (y.invoked + z.invoked);
  }

  /** Dispatch to one handler is that handler's Call. */
  lemma {:induction false} DispatchSingle(h: WsHandler, args: seq<Arg>, callbackResult: Invocation -> Option<string>)
    ensures var r := h.Call(args, callbackResult);
            Dispatch([h], args, callbackResult) == DispatchResult(r.err.ToSeq(), r.invoked.ToSeq())
  {
    assert [h][..0] == [];
  }

  /** The aggregate is nil exactly when every handler accepts the argument
      shape: the wrapped functions' own errors never reach it. */
  lemma {:induction false} DispatchSucceedsIff(hs: seq<WsHandler>, args: seq<Arg>, callbackResult: Invocation -> Option<string>)
    ensures Dispatch(hs, args, callbackResult).errors == [] <==> forall i :: 0 <= i < |hs| ==> Accepts(hs[i].kind, args)
  {
    if hs != [] {
      var init := hs[..|hs| - 1];
      var last := hs[|hs| - 1];
      DispatchSucceedsIff(init, args, callbackResult);
      var r := last.Call(args, callbackResult);
      assert Dispatch(hs, args, callbackResult).errors == Dispatch(init, args, callbackResult).errors + r.err.ToSeq();
      assert (forall i :: 0 <= i < |hs| ==> Accepts(hs[i].kind, args))
         <==> (forall i :: 0 <= i < |init| ==> Accepts(init[i].kind, args)) && Accepts(last.kind, args)
      by {
        assert forall i :: 0 <= i < |init| ==> init[i] == hs[i];
      }
    }
  }

  /** When every handler accepts the arguments, each one's wrapped function
      runs exactly once, in registration order, and nothing fails. */
  lemma {:induction false} DispatchInvokesAll(hs: seq<WsHandler>, args: seq<Arg>, callbackResult: Invocation -> Option<string>)
    requires forall i :: 0 <= i < |hs| ==> Accepts(hs[i].kind, args)
    ensures Dispatch(hs, args, callbackResult).errors == []
    ensures |Dispatch(hs, args, callbackResult).invoked| == |hs|
    ensures forall i :: 0 <= i < |hs| ==> Dispatch(hs, args, callbackResult).invoked[i] == InvocationOf(hs[i], args)
  {
    if hs != [] {
      var init := hs[..|hs| - 1];
      var last := hs[|hs| - 1];
      DispatchInvokesAll(init, args, callbackResult);
      var d := Dispatch(init, args, callbackResult);
      var o := Outcome(last, args, callbackResult);
      assert o == DispatchResult([], [InvocationOf(last, args)]);
      var all := d.invoked + o.invoked;
      assert Dispatch(hs, args, callbackResult) == DispatchResult(d.errors + o.errors, all);
      forall i | 0 <= i < |hs|
        ensures all[i] == InvocationOf(hs[i], args)
      {
        if i < |init| {
          assert all[i] == d.invoked[i];
          assert init[i] == hs[i];
        } else {
          assert all[i] == o.invoked[0];
        }
      }
    }
  }

  /** Every recorded run belongs to a handler in the list, of that handler's
      kind. */
  lemma {:induction false} DispatchInvokesOnlyHeld(hs: seq<WsHandler>, args: seq<Arg>, callbackResult: Invocation -> Option<string>)
    ensures forall inv :: inv in Dispatch(hs, args, callbackResult).invoked ==>
              exists i :: 0 <= i < |hs| && Accepts(hs[i].kind, args) && inv == InvocationOf(hs[i], args)
  {
    if hs != [] {
      var init := hs[..|hs| - 1];
      DispatchInvokesOnlyHeld(init, args, callbackResult);
      forall inv | inv in Dispatch(hs, args, callbackResult).invoked
        ensures exists i :: 0 <= i < |hs| && Accepts(hs[i].kind, args) && inv == InvocationOf(hs[i], args)
      {
        if inv in Dispatch(init, args, callbackResult).invoked {
          var i :| 0 <= i < |init| && Accepts(init[i].kind, args) && inv == InvocationOf(init[i], args);
          assert init[i] == hs[i];
        } else {
          assert Accepts(hs[|hs| - 1].kind, args) && inv == InvocationOf(hs[|hs| - 1], args);
        }
      }
    }
  }

  /** Dispatch never depends on what the wrapped functions return. */
  lemma {:induction false} DispatchIgnoresCallbackResults(hs: seq<WsHandler>, args: seq<Arg>, f: Invocation -> Option<string>, g: Invocation -> Option<string>)
    ensures Dispatch(hs, args, f) == Dispatch(hs, args, g)
  {
    if hs != [] {
      DispatchIgnoresCallbackResults(hs[..|hs| - 1], args, f, g);
    }
  }

  /** The closure `handlerList.Remove` hands to `slices.DeleteFunc`. */
  function SameHandlerId(id: Id): (matches: WsHandler -> bool)
    ensures forall h: WsHandler :: matches(h) <==> h.ID() == id
  {
    (h: WsHandler) => h.ID() == id
  }

  /** After Remove, no later dispatch runs the removed handler, and the
      survivors are dispatched as they were, in the same relative order. */
  lemma {:induction false} DispatchAfterRemove(a: seq<WsHandler>, h: WsHandler, b: seq<WsHandler>, args: seq<Arg>, callbackResult: Invocation -> Option<string>)
    requires forall i :: 0 <= i < |a| ==> a[i].id != h.id
    requires forall i :: 0 <= i < |b| ==> b[i].id != h.id
    ensures Dispatch(DeleteFunc(a + [h] + b, SameHandlerId(h.id)), args, callbackResult)
         == Dispatch(a, args, callbackResult).Then(Dispatch(b, args, callbackResult))
    ensures forall inv :: inv in Dispatch(DeleteFunc(a + [h] + b, SameHandlerId(h.id)), args, callbackResult).invoked ==>
              inv.handler != h.id
  {
    var kept := DeleteFunc(a + [h] + b, SameHandlerId(h.id));
    assert kept == a + b by {
      DeleteFuncDropsOnly(a, h, b, SameHandlerId(h.id));
    }
    DispatchAppend(a, b, args, callbackResult);
    DispatchSkipsAbsent(kept, h.id, args, callbackResult);
  }

  /** A handler that is not in the list never runs. */
  lemma DispatchSkipsAbsent(hs: seq<WsHandler>, id: Id, args: seq<Arg>, callbackResult: Invocation -> Option<string>)
    requires forall i :: 0 <= i < |hs| ==> hs[i].id != id
    ensures forall inv :: inv in Dispatch(hs, args, callbackResult).invoked ==> inv.handler != id
  {
    DispatchInvokesOnlyHeld(hs, args, callbackResult);
    forall inv | inv in Dispatch(hs, args, callbackResult).invoked
      ensures inv.handler != id
    {
      var i :| 0 <= i < |hs| && Accepts(hs[i].kind, args) && inv == InvocationOf(hs[i], args);
      assert inv.handler == hs[i].id;
    }
  }

  /** `handlerList[T]`: the handlers of one kind, in registration order. */
  class HandlerList {
    /** The Go type parameter T: every handler held is of this kind. */
    const kind: HandlerKind
    var handlers: seq<WsHandler>

    ghost predicate Valid()
      reads this
    {
      forall i :: 0 <= i < |handlers| ==> handlers[i].kind == kind
    }

    /** The zero value `handlerList[T]{}`. */
    constructor (kind: HandlerKind)
      ensures Valid() && this.kind == kind && handlers == []
    {
      this.kind := kind;
      handlers := [];
    }

    /** Appends the handler and hands it back; earlier handlers stay. */
    method Add(handler: WsHandler) returns (r: WsHandler)
      requires Valid() && handler.kind == kind
      modifies this
      ensures Valid()
      ensures r == handler
      ensures handlers == old(handlers) + [handler]
    {
      handlers := handlers + [handler];
      r := handler;
    }

    /** Drops every handler whose id is the argument's, keeps the others in
        order, and reports whether the list got shorter. */
    method Remove(handler: WsHandler) returns (removed: bool)
      requires Valid()
      modifies this
      ensures Valid()
      ensures handlers == DeleteFunc(old(handlers), SameHandlerId(handler.ID()))
      ensures forall i :: 0 <= i < |handlers| ==>
                handlers[i] in old(handlers) && handlers[i].ID() != handler.ID()
      ensures forall i :: 0 <= i < |old(handlers)| && old(handlers)[i].ID() != handler.ID() ==>
                old(handlers)[i] in handlers
      ensures removed <==> exists i :: 0 <= i < |old(handlers)| && old(handlers)[i].ID() == handler.ID()
      ensures !removed ==> handlers == old(handlers)
    {
      var originalLen := |handlers|;
      DeleteFuncShrinks(handlers, SameHandlerId(handler.ID()));
      handlers := DeleteFunc(handlers, SameHandlerId(handler.ID()));
      removed := |handlers| < originalLen;
      if !removed {
        DeleteFuncKeepsAll(old(handlers), SameHandlerId(handler.ID()));
      }
    }

    method Count() returns (n: int)
      ensures n == |handlers|
    {
      n := |handlers|;
    }

    /** `handlerList.Call`: calls every handler in order, never stopping
        early, and returns the aggregate error with the runs it caused. */
    method Call(args: seq<Arg>, callbackResult: Invocation -> Option<string>) returns (err: Option<string>, invoked: seq<Invocation>)
      ensures invoked == Dispatch(handlers, args, callbackResult).invoked
      ensures err == Aggregate(Dispatch(handlers, args, callbackResult).errors)
    {
      var e: seq<string> := [];
      invoked := [];
      var i := 0;
      while i < |handlers|
        invariant 0 <= i <= |handlers|
        invariant Dispatch(handlers[..i], args, callbackResult) == DispatchResult(e, invoked)
      {
        var r := handlers[i].Call(args, callbackResult);
        if r.err.Some? {
          e := e + [r.err.value];
        }
        if r.invoked.Some? {
          invoked := invoked + [r.invoked.value];
        }
        assert handlers[..i + 1][..i] == handlers[..i];
        i := i + 1;
      }
      assert handlers[..i] == handlers;
      if |e| > 0 {
        err := Some(Join(e, ErrorSeparator));
      } else {
        err := None;
      }
    }
  }

  /** Two handlers with distinct ids: adding both and removing each in turn
      gives the counts 1, 2, 1, 0. */
  method CountScenario(id1: Id, id2: Id) returns (counts: seq<int>)
    requires id1 != id2
    ensures counts == [1, 2, 1, 0]
  {
    var h1 := NewWsMessageHandler(id1);
    var h2 := NewWsMessageHandler(id2);
    var list := new HandlerList(MessageKind);
    var n;
    var _ := list.Add(h1);
    n := list.Count();
    counts := [n];
    var _ := list.Add(h2);
    n := list.Count();
    counts := counts + [n];
    var _ := list.Remove(h1);
    n := list.Count();
    counts := counts + [n];
    var _ := list.Remove(h2);
    n := list.Count();
    counts := counts + [n];
  }

  /** Two message handlers called with (connection, "message"): no error,
      and first one runs, then the other. */
  method OrderScenario(id1: Id, id2: Id, connection: WsConnection, callbackResult: Invocation -> Option<string>)
    returns (err: Option<string>, invoked: seq<Invocation>)
    ensures err == None
    ensures invoked == [MessageCallback(id1, connection, Message), MessageCallback(id2, connection, Message)]
  {
    var list := new HandlerList(MessageKind);
    var _ := list.Add(NewWsMessageHandler(id1));
    var _ := list.Add(NewWsMessageHandler(id2));
    err, invoked := list.Call([ConnArg(connection), BytesArg(Message)], callbackResult);
    DispatchInvokesAll(list.handlers, [ConnArg(connection), BytesArg(Message)], callbackResult);
  }

  /** Two close handlers called with a connection: no error, and first one
      runs, then the other. */
  method CloseOrderScenario(id1: Id, id2: Id, connection: WsConnection, callbackResult: Invocation -> Option<string>)
    returns (err: Option<string>, invoked: seq<Invocation>)
    ensures err == None
    ensures invoked == [CloseCallback(id1, connection), CloseCallback(id2, connection)]
  {
    var list := new HandlerList(CloseKind);
    var _ := list.Add(NewWsCloseHandler(id1));
    var _ := list.Add(NewWsCloseHandler(id2));
    err, invoked := list.Call([ConnArg(connection)], callbackResult);
    DispatchInvokesAll(list.handlers, [ConnArg(connection)], callbackResult);
  }

  /** The bytes of the text "message". */
  const Message: Bytes := [0x6d, 0x65, 0x73, 0x73, 0x61, 0x67, 0x65]
}
