/**
  The handler invoker (Work\Handler): looks up the route of a packet's action,
  decodes the message, resolves the handler instance through the container, calls
  the handler method inside a transaction when its keywords ask for one, annotates
  the result, and finally hands the injected connections back to their pools.
 */
module WorkHandler {
  import opened Php
  import opened Exceptions
  import opened Protocol
  import opened Effects
  import opened Container
  import opened Transaction
  import opened Router
  import Receive
  import Events

  /**
    The request as `run` is meant to read it: the packet, the handler class and the
    method the packet's action is bound to, and the trace id, client ip and fd of the
    request. The handler and method are evidently meant to come from the action's
    route binding (the Router class that holds them is not part of this model): the
    event the server dispatches, `Events.HandlerEvent`, carries the packet, fd, ip and
    trace id but has no handler or method getter, and `WorkRunAsWritten` takes that
    event.
   */
  datatype WorkEvent = WorkEvent(packet: Packet, handler: string, methodName: string, traceId: string, ip: string, fd: int)

  /** The request `run` is meant to read from the server's event, given the handler and method its action is bound to. */
  function Bound(source: Events.HandlerEvent, handler: string, methodName: string): WorkEvent
  {
    WorkEvent(source.GetPacket(), handler, methodName, source.GetTraceId(), source.GetIp(), source.fd)
  }

  /**
    What the collaborators of `run` do for one request: the `encrypt` listener when
    one is registered, whether `run_handler` is listened, the keywords and the
    instance the container gives, what the handler call yields, and the JSON form of
    a message.
   */
  datatype WorkEnv = WorkEnv(
    encrypt: Option<ProtoMessage -> Bytes>,
    runHandler: bool,
    keywords: Keywords,
    instance: Outcome<Instance>,
    call: Outcome<Response>,
    toJson: ProtoMessage -> string)

  // ---------------------------------------------------------------------------
  // Route miss

  /** The connection-close error a route miss is meant to raise. */
  function RouteMissError(): (e: Exception)
    ensures e.kind == CloseConnection && e.code == 1000
  {
    Exception(CloseConnection, "protocol number is error", 1000, "")
  }

  /**
    What a route miss raises as written: the exception class is called as a function
    (there is no `new`), so PHP raises an Error for an undefined function instead.
   */
  function RouteMissErrorAsWritten(): (e: Exception)
    ensures e.kind == Other
  {
    Exception(Other, "undefined function", 0, "")
  }

  /**
    The request pipeline sorts the as-written route-miss error as an error_exception,
    so the connection is not closed; the intended error closes it.
   */
  lemma RouteMissClassification()
    ensures Receive.TypeOf(RouteMissErrorAsWritten()) == Receive.ErrorException
    ensures Receive.TypeOf(RouteMissError()) == Receive.ConnectionCloseException
  {
  }

  /** The Error PHP raises when `run` reads the router table before `setRouters`. */
  function UninitializedRouters(): (e: Exception)
    ensures e.kind == Other
  {
    Exception(Other, "$routers uninitialized", 0, "")
  }

  // ---------------------------------------------------------------------------
  // Decoding, instance check, annotation

  /**
    The message handed to the handler and the effects of decoding it, as intended
    (the encrypt event being the one of the Tcp event namespace). Without an
    envelope class it is decoded from the packet body. With one, the body is decoded
    into the envelope, and the message is decoded from what the `encrypt` listener
    returns for the envelope, or left unfilled when no such listener is registered.
   */
  function Decode(route: Route, body: Bytes, encrypt: Option<ProtoMessage -> Bytes>): (r: (ProtoMessage, seq<Effect>))
    ensures r.0.cls == route.protobuf
    ensures Falsy(Str(route.protobufBase)) ==> r == (ProtoMessage(route.protobuf, Some(body)), [])
    ensures !Falsy(Str(route.protobufBase)) && encrypt.None? ==> r == (ProtoMessage(route.protobuf, None), [])
    ensures !Falsy(Str(route.protobufBase)) && encrypt.Some? ==>
              var envelope := ProtoMessage(route.protobufBase, Some(body));
              r == (ProtoMessage(route.protobuf, Some(encrypt.value(envelope))), [DispatchEncrypt(envelope)])
  {
    if Falsy(Str(route.protobufBase)) then (ProtoMessage(route.protobuf, Some(body)), [])
    else
      var envelope := ProtoMessage(route.protobufBase, Some(body));
      match encrypt
      case None => (ProtoMessage(route.protobuf, None), [])
      case Some(listener) => (ProtoMessage(route.protobuf, Some(listener(envelope))), [DispatchEncrypt(envelope)])
  }

  /**
    Decoding as written: on the envelope path with an `encrypt` listener, building
    the event fails before anything is dispatched, because relative to this namespace
    `Event\Encrypt` names a class that does not exist; every other path decodes the
    message as intended, and no path dispatches anything.
   */
  function DecodeAsWritten(route: Route, body: Bytes, encrypt: Option<ProtoMessage -> Bytes>): (r: (Outcome<ProtoMessage>, seq<Effect>))
    ensures r.1 == []
    ensures r.0.Threw? <==> !Falsy(Str(route.protobufBase)) && encrypt.Some?
    ensures r.0.Threw? ==> r.0.error == ClassNotFound()
    ensures r.0.Returned? ==> r.0.value == Decode(route, body, encrypt).0
  {
    if !Falsy(Str(route.protobufBase)) && encrypt.Some? then (Threw(ClassNotFound()), [])
    else (Returned(Decode(route, body, encrypt).0), [])
  }

  /** The connection-close error for an instance that does not extend HandlerAbstract. */
  function NotHandlerError(cls: string): (e: Exception)
    ensures e.kind == CloseConnection
  {
    Exception(CloseConnection, cls + " is not implements HandlerAbstract", 0, "")
  }

  const AnnotationKeys: set<string> := {"class", "method", "params"}

  /** The handler result with the handler name, the method name and the JSON parameters added. */
  function Annotate(result: Response, handler: string, methodName: string, params: string): (r: Response)
    ensures r.Keys == result.Keys + AnnotationKeys
    ensures r["class"] == Str(handler) && r["method"] == Str(methodName) && r["params"] == Str(params)
    ensures forall k :: k in result && k !in AnnotationKeys ==> r[k] == result[k]
  {
    result["class" := Str(handler)]["method" := Str(methodName)]["params" := Str(params)]
  }

  // ---------------------------------------------------------------------------
  // The finally block

  /** What the intended `finally` loop does: hand each injected connection back, in order. */
  function CollectCalls(values: seq<KeywordValue>): (es: seq<Effect>)
    ensures forall i :: 0 <= i < |es| ==> es[i].IsCollect()
    ensures |es| <= |values|
  {
    if values == [] then []
    else
      var last := values[|values| - 1];
      CollectCalls(values[..|values| - 1]) + (if last.Collectable? then [Collect(last.id)] else [])
  }

  /** The intended loop hands back exactly the pooled connections among the values. */
  lemma {:induction false} CollectCallsExactly(values: seq<KeywordValue>, id: nat)
    ensures Collect(id) in CollectCalls(values) <==> Collectable(id) in values
  {
    if values != [] {
      var front := values[..|values| - 1];
      var last := values[|values| - 1];
      var tail := if last.Collectable? then [Collect(last.id)] else [];
      CollectCallsExactly(front, id);
      assert values == front + [last];
      assert CollectCalls(values) == CollectCalls(front) + tail;
      assert Collect(id) in tail <==> last == Collectable(id);
    }
  }

  /** The intended `finally` loop: `collect()` on each value that is a pooled connection. */
  method CollectKeywords(keywords: Keywords) returns (effects: seq<Effect>)
    requires keywords.Valid()
    ensures effects == CollectCalls(keywords.Values())
  {
    var values := keywords.Values();
    effects := [];
    var i := 0;
    while i < |values|
      invariant 0 <= i <= |values|
      invariant effects == CollectCalls(values[..i])
    {
      assert values[..i + 1][..i] == values[..i];
      assert CollectCalls(values[..i + 1])
          == CollectCalls(values[..i]) + (if values[i].Collectable? then [Collect(values[i].id)] else []);
      if values[i].Collectable? {
        effects := effects + [Collect(values[i].id)];
      }
      i := i + 1;
    }
    assert values[..i] == values;
  }

  /** The name PHP gives a value's type in an error message. */
  function TypeName(v: Value): string
  {
    match v
    case Null => "null"
    case Bool(_) => "bool"
    case Int(_) => "int"
    case Str(_) => "string"
    case Obj(_) => "object"
  }

  /** The Error for calling `collect()` on a value that has no such method. */
  function CollectError(v: Value): (e: Exception)
    ensures e.kind == Other
  {
    Exception(Other, "collect() on " + TypeName(v), 0, "")
  }

  /** The Error the as-written `finally` loop raises: the one for the first value that is not a pooled connection. */
  function FirstCollectError(values: seq<KeywordValue>): (r: Option<Exception>)
    ensures r.None? <==> forall i :: 0 <= i < |values| ==> values[i].Collectable?
    ensures r.Some? ==> r.value.kind == Other
  {
    if values == [] then None
    else if values[0].Plain? then Some(CollectError(values[0].v))
    else FirstCollectError(values[1..])
  }

  /**
    The `finally` loop as written: the instanceof test is negated, so it skips every
    pooled connection and calls `collect()` on the first other value, which raises an
    Error (the other values have no such method).
   */
  method CollectKeywordsAsWritten(keywords: Keywords) returns (effects: seq<Effect>, thrown: Option<Exception>)
    requires keywords.Valid()
    ensures effects == []
    ensures thrown == FirstCollectError(keywords.Values())
  {
    var values := keywords.Values();
    effects := [];
    var i := 0;
    while i < |values|
      invariant 0 <= i <= |values|
      invariant FirstCollectError(values) == FirstCollectError(values[i..])
    {
      assert values[i..][1..] == values[i + 1..];
      if values[i].Plain? {
        return [], Some(CollectError(values[i].v));
      }
      i := i + 1;
    }
    assert values[i..] == [];
    return [], None;
  }

  /** The as-written loop's Error is the one for the first value that is not a pooled connection. */
  lemma {:induction false} FirstCollectErrorNamesFirst(values: seq<KeywordValue>)
    ensures FirstCollectError(values).Some? ==>
              exists i :: 0 <= i < |values| && values[i].Plain?
                          && (forall j :: 0 <= j < i ==> values[j].Collectable?)
                          && FirstCollectError(values).value == CollectError(values[i].v)
  {
    if values != [] && values[0].Collectable? {
      FirstCollectErrorNamesFirst(values[1..]);
      if FirstCollectError(values).Some? {
        var i :| 0 <= i < |values[1..]| && values[1..][i].Plain?
                 && (forall j :: 0 <= j < i ==> values[1..][j].Collectable?)
                 && FirstCollectError(values[1..]).value == CollectError(values[1..][i].v);
        assert values[i + 1] == values[1..][i];
        assert forall j :: 0 <= j < i + 1 ==> values[j].Collectable? by {
          forall j | 0 <= j < i + 1 ensures values[j].Collectable? {
            if j > 0 { assert values[j] == values[1..][j - 1]; }
          }
        }
      }
    } else if values != [] {
      assert values[0].Plain?;
    }
  }

  /**
    The keywords of a handler carry its `openTransaction` flag, a plain value, so the
    as-written loop raises an Error for every such handler, while the intended loop
    never raises and collects every pooled connection.
   */
  lemma FlagDefeatsCollectAsWritten(keywords: Keywords)
    requires keywords.Valid()
    requires "openTransaction" in keywords.entries && keywords.entries["openTransaction"].Plain?
    ensures exists i :: 0 <= i < |keywords.Values()| && keywords.Values()[i].Plain?
    ensures forall id :: Collect(id) in CollectCalls(keywords.Values()) <==> Collectable(id) in keywords.entries.Values
  {
    var values := keywords.Values();
    var k :| 0 <= k < |keywords.keys| && keywords.keys[k] == "openTransaction";
    assert values[k].Plain?;
    forall id ensures Collect(id) in CollectCalls(values) <==> Collectable(id) in keywords.entries.Values {
      CollectCallsExactly(values, id);
      if Collectable(id) in values {
        var i :| 0 <= i < |values| && values[i] == Collectable(id);
        assert keywords.entries[keywords.keys[i]] == Collectable(id);
      }
      if Collectable(id) in keywords.entries.Values {
        var key :| key in keywords.entries && keywords.entries[key] == Collectable(id);
        var i :| 0 <= i < |keywords.keys| && keywords.keys[i] == key;
        assert values[i] == Collectable(id);
      }
    }
  }

  // ---------------------------------------------------------------------------
  // run

  /** The handler call `run` makes: through the `run_handler` listener when it is listened, else directly. */
  function HandlerCall(event: WorkEvent, env: WorkEnv, message: ProtoMessage): (c: Effect)
    ensures c.IsHandlerCall() && !c.IsTx()
  {
    if env.runHandler then DispatchRunHandler(event.methodName, message, event.fd) else Invoke(event.methodName, message, event.fd)
  }

  /** The try block of `run`, once the instance is being resolved: its outcome and effects after the container call. */
  function TryBlock(cls: string, event: WorkEvent, env: WorkEnv, message: ProtoMessage): (r: (Outcome<Response>, seq<Effect>))
  {
    match env.instance
    case Threw(e) => (Threw(e), [])
    case Returned(instance) =>
      if !instance.isHandler then (Threw(NotHandlerError(cls)), [])
      else
        var t := Transact(OpensTransaction(env.keywords), instance.database, HandlerCall(event, env, message), env.call);
        match t.0
        case Threw(e) => (Threw(e), [SetClientIp(event.ip)] + t.1)
        case Returned(result) =>
          (Returned(Annotate(result, event.handler, event.methodName, env.toJson(message))), [SetClientIp(event.ip)] + t.1)
  }

  /**
    The try block as written: on the `run_handler` branch, `new Event\RunHandler(...)`
    names a class of this namespace that does not exist, so the handler call raises a
    class-not-found Error, inside the transaction, before anything is dispatched.
   */
  function TryBlockAsWritten(cls: string, event: WorkEvent, env: WorkEnv, message: ProtoMessage): (r: (Outcome<Response>, seq<Effect>))
  {
    if !env.runHandler then TryBlock(cls, event, env, message)
    else match env.instance
      case Threw(e) => (Threw(e), [])
      case Returned(instance) =>
        if !instance.isHandler then (Threw(NotHandlerError(cls)), [])
        else
          var t := TransactUnreached<Response>(OpensTransaction(env.keywords), instance.database, ClassNotFound());
          (t.0, [SetClientIp(event.ip)] + t.1)
  }

  /** What `run` does for `event` when the route table gives `route` for its action. */
  function WorkRun(handlerNs: string, route: Option<Route>, event: WorkEvent, env: WorkEnv): (r: (Outcome<Response>, seq<Effect>))
    requires env.keywords.Valid()
  {
    match route
    case None => (Threw(RouteMissError()), [])
    case Some(rt) =>
      var decoded := Decode(rt, event.packet.GetMessage(), env.encrypt);
      var cls := handlerNs + "\\" + event.handler;
      var body := TryBlock(cls, event, env, decoded.0);
      (body.0, decoded.1 + [GetKeywords(cls, event.methodName), GetInstance(cls, event.traceId)] + body.1
               + CollectCalls(env.keywords.Values()))
  }

  /** A route miss fails before any decode, container call or transaction, and the finally loop does not run. */
  lemma WorkRouteMiss(handlerNs: string, event: WorkEvent, env: WorkEnv)
    requires env.keywords.Valid()
    ensures WorkRun(handlerNs, None, event, env) == (Threw(RouteMissError()), [])
  {
  }

  /** Effects that are not handler calls or database calls, like the container calls and the collection. */
  predicate Plumbing(es: seq<Effect>)
  {
    forall i :: 0 <= i < |es| ==> !es[i].IsHandlerCall() && !es[i].IsTx()
  }

  /** The effects of `run` around its try block: decoding and container calls before it, the finally loop after it. */
  lemma WorkRunShape(handlerNs: string, rt: Route, event: WorkEvent, env: WorkEnv)
    requires env.keywords.Valid()
    ensures var decoded := Decode(rt, event.packet.GetMessage(), env.encrypt);
            var cls := handlerNs + "\\" + event.handler;
            var head := decoded.1 + [GetKeywords(cls, event.methodName), GetInstance(cls, event.traceId)];
            var body := TryBlock(cls, event, env, decoded.0);
            var tail := CollectCalls(env.keywords.Values());
            && WorkRun(handlerNs, Some(rt), event, env) == (body.0, head + body.1 + tail)
            && Plumbing(head) && Plumbing(tail)
            && DbTrace(head) == [] && DbTrace(tail) == []
  {
    var decoded := Decode(rt, event.packet.GetMessage(), env.encrypt);
    var cls := handlerNs + "\\" + event.handler;
    var head := decoded.1 + [GetKeywords(cls, event.methodName), GetInstance(cls, event.traceId)];
    var tail := CollectCalls(env.keywords.Values());
    assert Plumbing(decoded.1);
    assert Plumbing(head);
    assert Plumbing(tail);
    NoTxNoTrace(head);
    NoTxNoTrace(tail);
  }

  /**
    An instance that does not extend HandlerAbstract fails the run with a
    connection-close error, and no handler method is called.
   */
  lemma WorkNotHandler(handlerNs: string, rt: Route, event: WorkEvent, env: WorkEnv)
    requires env.keywords.Valid()
    requires env.instance.Returned? && !env.instance.value.isHandler
    ensures var r := WorkRun(handlerNs, Some(rt), event, env);
            && r.0 == Threw(NotHandlerError(handlerNs + "\\" + event.handler))
            && r.0.error.kind == CloseConnection
            && NoHandlerCall(r.1)
  {
    WorkRunShape(handlerNs, rt, event, env);
  }

  /**
    The client ip is set on the instance before the handler is triggered: every
    handler call comes after the one `setClientIp`.
   */
  lemma WorkClientIpFirst(handlerNs: string, rt: Route, event: WorkEvent, env: WorkEnv)
    requires env.keywords.Valid()
    requires env.instance.Returned? && env.instance.value.isHandler
    ensures var r := WorkRun(handlerNs, Some(rt), event, env);
            exists n :: 0 <= n < |r.1| && r.1[n] == SetClientIp(event.ip)
                        && forall j :: 0 <= j < |r.1| && r.1[j].IsHandlerCall() ==> n < j
  {
    var decoded := Decode(rt, event.packet.GetMessage(), env.encrypt);
    var cls := handlerNs + "\\" + event.handler;
    var head := decoded.1 + [GetKeywords(cls, event.methodName), GetInstance(cls, event.traceId)];
    var body := TryBlock(cls, event, env, decoded.0);
    var tail := CollectCalls(env.keywords.Values());
    WorkRunShape(handlerNs, rt, event, env);
    var r := WorkRun(handlerNs, Some(rt), event, env);
    assert r.1 == head + body.1 + tail;
    assert body.1[0] == SetClientIp(event.ip);
    assert r.1[|head|] == SetClientIp(event.ip);
  }

  /** The database calls of a run are those of its try block. */
  lemma WorkTraceIsTryBlock(handlerNs: string, rt: Route, event: WorkEvent, env: WorkEnv)
    requires env.keywords.Valid()
    ensures var decoded := Decode(rt, event.packet.GetMessage(), env.encrypt);
            DbTrace(WorkRun(handlerNs, Some(rt), event, env).1)
              == DbTrace(TryBlock(handlerNs + "\\" + event.handler, event, env, decoded.0).1)
  {
    var decoded := Decode(rt, event.packet.GetMessage(), env.encrypt);
    var cls := handlerNs + "\\" + event.handler;
    var head := decoded.1 + [GetKeywords(cls, event.methodName), GetInstance(cls, event.traceId)];
    var body := TryBlock(cls, event, env, decoded.0);
    var tail := CollectCalls(env.keywords.Values());
    WorkRunShape(handlerNs, rt, event, env);
    DbTraceAppend(head + body.1, tail);
    DbTraceAppend(head, body.1);
  }

  /** The database calls of the try block are those of the transaction around the handler call, if it is reached. */
  lemma TryBlockTrace(cls: string, event: WorkEvent, env: WorkEnv, message: ProtoMessage)
    ensures var body := TryBlock(cls, event, env, message);
            DbTrace(body.1) ==
              if env.instance.Threw? || !env.instance.value.isHandler then []
              else DbTrace(Transact(OpensTransaction(env.keywords), env.instance.value.database,
                                    HandlerCall(event, env, message), env.call).1)
  {
    if env.instance.Returned? && env.instance.value.isHandler {
      var t := Transact(OpensTransaction(env.keywords), env.instance.value.database, HandlerCall(event, env, message), env.call);
      DbTraceCons(SetClientIp(event.ip), t.1);
    }
  }

  /**
    The database calls of a run: begin then commit when the handler returns, begin
    then rollback when it throws (and the same exception is rethrown), and none
    without `openTransaction` or when the instance cannot be used.
   */
  lemma WorkTransactions(handlerNs: string, rt: Route, event: WorkEvent, env: WorkEnv)
    requires env.keywords.Valid()
    ensures var r := WorkRun(handlerNs, Some(rt), event, env);
            var open := OpensTransaction(env.keywords);
            && (env.instance.Threw? || !env.instance.value.isHandler || !open ==> DbTrace(r.1) == [])
            && (env.instance.Returned? && env.instance.value.isHandler && open ==>
                  var db := env.instance.value.database;
                  && (db.beginError.None? && env.call.Returned? && db.commitError.None? ==> DbTrace(r.1) == [BeginTx, CommitTx])
                  && (db.beginError.None? && env.call.Threw? ==>
                        DbTrace(r.1) == [BeginTx, RollbackTx]
                        && (db.rollbackError.None? ==> r.0 == Threw(env.call.error))))
  {
    var decoded := Decode(rt, event.packet.GetMessage(), env.encrypt);
    var cls := handlerNs + "\\" + event.handler;
    WorkTraceIsTryBlock(handlerNs, rt, event, env);
    TryBlockTrace(cls, event, env, decoded.0);
    if env.instance.Returned? && env.instance.value.isHandler {
      TransactTrace(OpensTransaction(env.keywords), env.instance.value.database, HandlerCall(event, env, decoded.0), env.call);
    }
  }

  /**
    A run that returns gives the handler's result with `class`, `method` and `params`
    set and every other key of the handler's result kept.
   */
  lemma WorkAnnotates(handlerNs: string, rt: Route, event: WorkEvent, env: WorkEnv)
    requires env.keywords.Valid()
    ensures var r := WorkRun(handlerNs, Some(rt), event, env);
            r.0.Returned? ==>
              && env.call.Returned?
              && r.0.value == Annotate(env.call.value, event.handler, event.methodName,
                                       env.toJson(Decode(rt, event.packet.GetMessage(), env.encrypt).0))
  {
  }

  /**
    Once the route is found, the finally loop runs whatever the outcome: the run's
    effects end with the collection of every pooled connection among the keywords.
   */
  lemma WorkFinallyRuns(handlerNs: string, rt: Route, event: WorkEvent, env: WorkEnv)
    requires env.keywords.Valid()
    ensures var r := WorkRun(handlerNs, Some(rt), event, env);
            var tail := CollectCalls(env.keywords.Values());
            |r.1| >= |tail| && r.1[|r.1| - |tail|..] == tail
  {
  }

  /**
    `run` as written, on the event the server dispatches: a route miss raises the
    undefined-function Error and the envelope path with an `encrypt` listener the
    class-not-found Error. Every other request raises the undefined-method Error of
    `$event->getHandler()`, since the handler event has no such method. That is
    before the container is asked for anything and outside the try, so no run as
    written dispatches, calls or hands back anything.
   */
  function WorkRunAsWritten(route: Option<Route>, source: Events.HandlerEvent, env: WorkEnv): (r: (Outcome<Response>, seq<Effect>))
    ensures r.0.Threw? && r.0.error.kind == Other && r.1 == []
    ensures route.None? ==> r.0.error == RouteMissErrorAsWritten()
  {
    match route
    case None => (Threw(RouteMissErrorAsWritten()), [])
    case Some(rt) =>
      var decoded := DecodeAsWritten(rt, source.GetPacket().GetMessage(), env.encrypt);
      match decoded.0
      case Threw(e) => (Threw(e), decoded.1)
      case Returned(_) => (Threw(UndefinedMethod("getHandler")), decoded.1)
  }

  /**
    As written, a request whose route is found and whose message decodes stops at
    `$event->getHandler()` with an Error of the catch-all class, which the request
    pipeline sorts as an error_exception; the intended run, reading the handler and
    method the action is bound to, goes on to ask the container for that class.
   */
  lemma WorkRunStopsAtGettersAsWritten(handlerNs: string, rt: Route, source: Events.HandlerEvent, handler: string, methodName: string, env: WorkEnv)
    requires env.keywords.Valid()
    requires Falsy(Str(rt.protobufBase)) || env.encrypt.None?
    ensures WorkRunAsWritten(Some(rt), source, env) == (Threw(UndefinedMethod("getHandler")), [])
    ensures Receive.TypeOf(UndefinedMethod("getHandler")) == Receive.ErrorException
    ensures var cls := handlerNs + "\\" + handler;
            var r := WorkRun(handlerNs, Some(rt), Bound(source, handler, methodName), env);
            GetKeywords(cls, methodName) in r.1 && GetInstance(cls, source.GetTraceId()) in r.1
  {
    var event := Bound(source, handler, methodName);
    var decoded := Decode(rt, event.packet.GetMessage(), env.encrypt);
    var cls := handlerNs + "\\" + handler;
    var head := decoded.1 + [GetKeywords(cls, methodName), GetInstance(cls, source.GetTraceId())];
    var body := TryBlock(cls, event, env, decoded.0);
    var tail := CollectCalls(env.keywords.Values());
    WorkRunShape(handlerNs, rt, event, env);
    assert head[|decoded.1|] == GetKeywords(cls, methodName);
    assert head[|decoded.1| + 1] == GetInstance(cls, source.GetTraceId());
    assert (head + body.1 + tail)[|decoded.1|] == GetKeywords(cls, methodName);
    assert (head + body.1 + tail)[|decoded.1| + 1] == GetInstance(cls, source.GetTraceId());
  }

  /**
    Lines 67-107 as written, for an event that did provide `getHandler` and
    `getMethod` (the server's event does not; `WorkRunAsWritten` stops before them):
    the route miss and the encrypt path as in `WorkRunAsWritten`, the `run_handler`
    branch of the handler call raising the class-not-found Error, and a `finally`
    loop that hands nothing back and raises for the first value that is not a pooled
    connection, an Error that replaces the try block's result or exception.
   */
  function WorkRunWithGettersAsWritten(handlerNs: string, route: Option<Route>, event: WorkEvent, env: WorkEnv): (r: (Outcome<Response>, seq<Effect>))
    requires env.keywords.Valid()
  {
    match route
    case None => (Threw(RouteMissErrorAsWritten()), [])
    case Some(rt) =>
      var decoded := DecodeAsWritten(rt, event.packet.GetMessage(), env.encrypt);
      match decoded.0
      case Threw(e) => (Threw(e), decoded.1)
      case Returned(message) =>
        var cls := handlerNs + "\\" + event.handler;
        var body := TryBlockAsWritten(cls, event, env, message);
        var fin := FirstCollectError(env.keywords.Values());
        (if fin.Some? then Threw(fin.value) else body.0,
         decoded.1 + [GetKeywords(cls, event.methodName), GetInstance(cls, event.traceId)] + body.1)
  }

  /**
    As written, a route miss and the envelope path with an `encrypt` listener fail with
    an Error of the catch-all class before the container is asked for anything, and
    before the getters are reached; the intended run closes the connection on a miss
    and dispatches the envelope to the listener.
   */
  lemma WorkRunAsWrittenEarlyErrors(handlerNs: string, rt: Route, source: Events.HandlerEvent, handler: string, methodName: string, env: WorkEnv)
    requires env.keywords.Valid()
    ensures WorkRunAsWritten(None, source, env) == (Threw(RouteMissErrorAsWritten()), [])
    ensures WorkRun(handlerNs, None, Bound(source, handler, methodName), env).0 == Threw(RouteMissError())
    ensures !Falsy(Str(rt.protobufBase)) && env.encrypt.Some? ==>
              && WorkRunAsWritten(Some(rt), source, env) == (Threw(ClassNotFound()), [])
              && Receive.TypeOf(ClassNotFound()) == Receive.ErrorException
              && WorkRun(handlerNs, Some(rt), Bound(source, handler, methodName), env).1[0]
                   == DispatchEncrypt(ProtoMessage(rt.protobufBase, Some(source.GetPacket().GetMessage())))
  {
  }

  /**
    As written, keywords holding any value that is not a pooled connection (the
    `openTransaction` flag is one) would make every run that reaches the try block
    throw the `finally` loop's Error, whatever the handler returned or threw, and
    hand no connection back; the intended run ends with the try block's outcome.
    The run as written never gets that far: it stops at the getters.
   */
  lemma {:induction false} WorkRunAsWrittenFinallyWins(handlerNs: string, rt: Route, source: Events.HandlerEvent, handler: string, methodName: string, env: WorkEnv, k: nat)
    requires env.keywords.Valid()
    requires k < |env.keywords.Values()| && env.keywords.Values()[k].Plain?
    requires Falsy(Str(rt.protobufBase)) || env.encrypt.None?
    ensures WorkRunAsWritten(Some(rt), source, env) == (Threw(UndefinedMethod("getHandler")), [])
    ensures var r := WorkRunWithGettersAsWritten(handlerNs, Some(rt), Bound(source, handler, methodName), env);
            && r.0.Threw? && r.0.error.kind == Other
            && r.0 == Threw(FirstCollectError(env.keywords.Values()).value)
            && forall i :: 0 <= i < |r.1| ==> !r.1[i].IsCollect()
    ensures var event := Bound(source, handler, methodName);
            var message := Decode(rt, event.packet.GetMessage(), env.encrypt).0;
            WorkRun(handlerNs, Some(rt), event, env).0 == TryBlock(handlerNs + "\\" + handler, event, env, message).0
  {
    var event := Bound(source, handler, methodName);
    var values := env.keywords.Values();
    assert !values[k].Collectable?;
    assert FirstCollectError(values).Some?;
    var message := Decode(rt, event.packet.GetMessage(), env.encrypt).0;
    var cls := handlerNs + "\\" + handler;
    var body := TryBlockAsWritten(cls, event, env, message);
    TryBlockPlumbing(cls, event, env, message);
    var r := WorkRunWithGettersAsWritten(handlerNs, Some(rt), event, env);
    assert r.1 == [GetKeywords(cls, methodName), GetInstance(cls, event.traceId)] + body.1;
  }

  /** The try block, as intended and as written, makes no collect call. */
  lemma TryBlockPlumbing(cls: string, event: WorkEvent, env: WorkEnv, message: ProtoMessage)
    ensures var body := TryBlock(cls, event, env, message);
            forall i :: 0 <= i < |body.1| ==> !body.1[i].IsCollect()
    ensures var body := TryBlockAsWritten(cls, event, env, message);
            forall i :: 0 <= i < |body.1| ==> !body.1[i].IsCollect()
  {
  }

  /**
    As written, the `run_handler` branch would never reach business code: for an
    event with the getters and a handler instance, the run makes no handler call and
    fails, with the class-not-found Error when neither the database nor the finally
    loop raises first, and an opened transaction is rolled back. The run as written
    stops earlier still, at the getters, with nothing begun.
   */
  lemma WorkRunAsWrittenRunHandler(handlerNs: string, rt: Route, source: Events.HandlerEvent, handler: string, methodName: string, env: WorkEnv)
    requires env.keywords.Valid()
    requires env.runHandler
    requires env.instance.Returned? && env.instance.value.isHandler
    requires Falsy(Str(rt.protobufBase)) || env.encrypt.None?
    ensures WorkRunAsWritten(Some(rt), source, env) == (Threw(UndefinedMethod("getHandler")), [])
    ensures var r := WorkRunWithGettersAsWritten(handlerNs, Some(rt), Bound(source, handler, methodName), env);
            var db := env.instance.value.database;
            var open := OpensTransaction(env.keywords);
            && r.0.Threw? && NoHandlerCall(r.1)
            && (open && db.beginError.None? ==> DbTrace(r.1) == [BeginTx, RollbackTx])
            && (FirstCollectError(env.keywords.Values()).None? && (!open || (db.beginError.None? && db.rollbackError.None?)) ==>
                  r.0 == Threw(ClassNotFound()))
  {
    var event := Bound(source, handler, methodName);
    var message := Decode(rt, event.packet.GetMessage(), env.encrypt).0;
    var cls := handlerNs + "\\" + handler;
    var t := TransactUnreached<Response>(OpensTransaction(env.keywords), env.instance.value.database, ClassNotFound());
    var front := [GetKeywords(cls, methodName), GetInstance(cls, event.traceId), SetClientIp(event.ip)];
    var r := WorkRunWithGettersAsWritten(handlerNs, Some(rt), event, env);
    assert TryBlockAsWritten(cls, event, env, message) == (t.0, [SetClientIp(event.ip)] + t.1);
    assert r.1 == front + t.1;
    var fin := FirstCollectError(env.keywords.Values());
    assert r.0 == if fin.Some? then Threw(fin.value) else t.0;
    NoTxNoTrace(front);
    DbTraceAllTx(t.1);
    DbTraceAppend(front, t.1);
  }

  /** The intended run dispatches the handler call to the `run_handler` listener whenever the transaction begins. */
  lemma WorkRunDispatchesRunHandler(handlerNs: string, rt: Route, event: WorkEvent, env: WorkEnv)
    requires env.keywords.Valid()
    requires env.runHandler
    requires env.instance.Returned? && env.instance.value.isHandler
    ensures var message := Decode(rt, event.packet.GetMessage(), env.encrypt).0;
            !OpensTransaction(env.keywords) || env.instance.value.database.beginError.None? ==>
              DispatchRunHandler(event.methodName, message, event.fd) in WorkRun(handlerNs, Some(rt), event, env).1
  {
    var decoded := Decode(rt, event.packet.GetMessage(), env.encrypt);
    var message := decoded.0;
    var cls := handlerNs + "\\" + event.handler;
    var db := env.instance.value.database;
    var open := OpensTransaction(env.keywords);
    var call := HandlerCall(event, env, message);
    assert call == DispatchRunHandler(event.methodName, message, event.fd);
    if !open || db.beginError.None? {
      var tx := Transact(open, db, call, env.call);
      assert call in tx.1;
      var body := TryBlock(cls, event, env, message);
      assert body.1 == [SetClientIp(event.ip)] + tx.1;
      var head := decoded.1 + [GetKeywords(cls, event.methodName), GetInstance(cls, event.traceId)];
      var whole := head + body.1 + CollectCalls(env.keywords.Values());
      assert WorkRun(handlerNs, Some(rt), event, env).1 == whole;
      assert call in body.1;
      assert call in whole;
    }
  }

  /**
    As written, with no value other than pooled connections among the keywords, off
    the encrypt path and without a `run_handler` listener, an event with the getters
    would give the intended outcome, but none of the pooled connections the intended
    run collects would be handed back (WorkRunAsWrittenRunHandler covers the
    `run_handler` branch). The run as written, on the server's event, stops at the
    getters instead and reaches neither the handler nor the collection.
   */
  lemma WorkRunAsWrittenAgrees(handlerNs: string, rt: Route, source: Events.HandlerEvent, handler: string, methodName: string, env: WorkEnv)
    requires env.keywords.Valid()
    requires forall i :: 0 <= i < |env.keywords.Values()| ==> env.keywords.Values()[i].Collectable?
    requires Falsy(Str(rt.protobufBase)) || env.encrypt.None?
    requires !env.runHandler
    ensures WorkRunAsWritten(Some(rt), source, env) == (Threw(UndefinedMethod("getHandler")), [])
    ensures var event := Bound(source, handler, methodName);
            var r := WorkRunWithGettersAsWritten(handlerNs, Some(rt), event, env);
            var intended := WorkRun(handlerNs, Some(rt), event, env);
            r.0 == intended.0 && intended.1 == r.1 + CollectCalls(env.keywords.Values())
  {
  }

  class Handler {
    const handler: string
    var routers: Routers?

    constructor (handler: string)
      ensures this.handler == handler && routers == null
    {
      this.handler := handler;
      routers := null;
    }

    method SetRouters(routers: Routers)
      modifies this
      ensures this.routers == routers
    {
      this.routers := routers;
    }

    /**
      Registers a route in the table this invoker uses; before `setRouters` the table
      is an uninitialised property, and reading it raises an Error.
     */
    method AddRouter(code: ArrayKey, router: Route) returns (out: Outcome<()>)
      requires routers != null ==> routers.Valid()
      modifies routers
      ensures routers == null ==> out == Threw(UninitializedRouters())
      ensures routers != null ==> out == Returned(())
      ensures routers != null ==> routers.Valid()
      ensures routers != null ==> routers.routers == old(routers.routers)[NormalizeKey(code) := router]
      ensures routers != null ==> routers.GetRouter(code) == Some(router)
    {
      if routers == null {
        return Threw(UninitializedRouters());
      }
      routers.AddRouter(code, router);
      out := Returned(());
    }

    /**
      `run` with its defects corrected: the route-miss error (line 50), the encrypt
      event's class (line 60), the handler and method read from the action's binding
      rather than from getters the event lacks (lines 67-68, 94-95), the `finally`
      test (line 103) and the run_handler event's class (line 113). `WorkRunAsWritten`
      is the run as written. It reads the route table and changes no state of its own.
     */
    method Run(event: WorkEvent, env: WorkEnv) returns (out: Outcome<Response>, effects: seq<Effect>)
      requires env.keywords.Valid()
      ensures routers == null ==> out == Threw(UninitializedRouters()) && effects == []
      ensures routers != null ==> (out, effects) == WorkRun(handler, routers.GetRouter(IntKey(event.packet.GetAction())), event, env)
    {
      if routers == null {
        return Threw(UninitializedRouters()), [];
      }
      var route := routers.GetRouter(IntKey(event.packet.GetAction()));
      if route.None? {
        return Threw(RouteMissError()), [];
      }
      var decoded := Decode(route.value, event.packet.GetMessage(), env.encrypt);
      var message := decoded.0;
      var cls := handler + "\\" + event.handler;
      var head := decoded.1 + [GetKeywords(cls, event.methodName), GetInstance(cls, event.traceId)];
      var body: seq<Effect> := [];
      match env.instance {
        case Threw(e) =>
          out := Threw(e);
        case Returned(instance) =>
          if !instance.isHandler {
            out := Threw(NotHandlerError(cls));
          } else {
            body := [SetClientIp(event.ip)];
            var t := Transact(OpensTransaction(env.keywords), instance.database, HandlerCall(event, env, message), env.call);
            body := body + t.1;
            match t.0 {
              case Threw(e) =>
                out := Threw(e);
              case Returned(r) =>
                var result := r;
                if |result| == 0 {
                  result := map[];
                }
                assert result == r;
                result := result["class" := Str(event.handler)];
                result := result["method" := Str(event.methodName)];
                result := result["params" := Str(env.toJson(message))];
                out := Returned(result);
            }
          }
      }
      assert (out, body) == TryBlock(cls, event, env, message);
      var collected := CollectKeywords(env.keywords);
      effects := head + body + collected;
    }
  }
}
