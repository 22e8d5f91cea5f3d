/**
  The outside world as the request pipeline sees it: every socket call, event
  dispatch, log line, monitor record, container call, handler call and database call
  the modelled code makes is one `Effect`, and a run of an operation produces the
  list of its effects in the order they happen.
 */
module Effects {
  import opened Php
  import opened Exceptions
  import opened Protocol
  import opened Events

  /** What a handler returns and a request keeps as its result: a PHP array with string keys. */
  type Response = map<string, Value>

  /**
    The fd passed to the server's `close`: a real connection id, or the null the
    source passes where it reads an undefined variable or property.
   */
  datatype FdArg = Fd(n: int) | NullFd

  /** The non-timing fields of the monitor record a request produces (Receive::monitor). */
  datatype MonitorRecord = MonitorRecord(
    action: int,
    handlerClass: Value,
    handlerMethod: Value,
    service: string,
    serviceType: string,
    kind: string,
    params: Value,
    response: Value,
    ip: string,
    traceId: string,
    from: string,
    trace: string,
    err: string)

  /** The non-timing fields of the record the legacy App::handler path sends to the monitor. */
  datatype LegacyRecord = LegacyRecord(
    legacyHandler: string,
    legacyMethod: string,
    legacyKind: string,
    legacyParams: Value,
    legacyIp: string,
    legacyTraceId: string)

  /** Which bootstrap object an `__init` method belongs to. */
  datatype BootTarget = BuiltIn | Custom

  /** A call on the Swoole server. */
  datatype SocketCall = SocketClose(closeTarget: FdArg) | SocketWrite(fd: int, data: Bytes)

  /** An event dispatched on the event bus. */
  datatype Dispatch =
    | OnUnpack(raw: Bytes)
    | OnHandler(handlerEvent: HandlerEvent)
    | OnError(error: Exception)
    | OnPack(packEvent: PackEvent)
    | OnConnect(connectFd: int)
    | OnClose(closeFd: int)
    | OnEncrypt(envelope: ProtoMessage)

  /** A line written to the logger. */
  datatype LogLine =
    | ErrorLine(text: string)
    | ExceptionLine(exception: Exception, logTraceId: Option<string>)
    | BusiLine(busiException: Exception, busiTraceId: Option<string>)
    | PoolErrorsLine(poolErrors: seq<string>)

  /** A record sent to the monitor sink. */
  datatype MonitorSend = ServiceRecord(record: MonitorRecord) | LegacyServiceRecord(legacyRecord: LegacyRecord)

  /** A call on the container or on the business handler it builds. */
  datatype BusinessCall =
    | KeywordsLookup(keywordsClass: string, keywordsMethod: string)
    | InstanceLookup(instanceClass: string, instanceTraceId: string)
    | ClientIpSet(clientIp: string)
    | MethodInvoke(callMethod: string, message: ProtoMessage, callFd: int)
    | RunHandlerDispatch(callMethod: string, message: ProtoMessage, callFd: int)
    | CollectCall(collectId: nat)

  /** A call on the database of the handler instance. */
  datatype TxCall = TxBegin | TxCommit | TxRollback

  /** A call into the application object's listeners, bootstrap methods and pools. */
  datatype AppCall =
    | ProtobufListener(packet: Bytes, packetAction: int)
    | ErrorListener(errorText: string)
    | Resolve(handlerName: string, methodName: string)
    | MethodCall(methodName: string, argument: Value, legacyFd: int, legacyIp: string)
    | RunHandlerCall(methodName: string, argument: Value, legacyFd: int, legacyIp: string)
    | InitCall(target: BootTarget, initName: string)
    | PoolInitCall(poolId: nat)

  datatype Effect =
    | Socket(socket: SocketCall)
    | Bus(dispatch: Dispatch)
    | Log(line: LogLine)
    | Monitoring(sent: MonitorSend)
    | Business(business: BusinessCall)
    | Db(tx: TxCall)
    | Application(app: AppCall)
  {
    predicate IsTx()
    {
      Db?
    }

    /** A call into business code: the handler method itself, or a listener that wraps it. */
    predicate IsHandlerCall()
    {
      || (Business? && (business.MethodInvoke? || business.RunHandlerDispatch?))
      || (Application? && (app.MethodCall? || app.RunHandlerCall?))
    }

    predicate IsClose()
    {
      Socket? && socket.SocketClose?
    }

    predicate IsBusiLog()
    {
      Log? && line.BusiLine?
    }

    predicate IsHandlerDispatch()
    {
      Bus? && dispatch.OnHandler?
    }

    predicate IsCollect()
    {
      Business? && business.CollectCall?
    }

    predicate IsInitCall()
    {
      Application? && app.InitCall?
    }
  }

  // The effects under the names the rest of the model uses.

  function CloseFd(closeTarget: FdArg): Effect { Socket(SocketClose(closeTarget)) }
  function Write(fd: int, data: Bytes): Effect { Socket(SocketWrite(fd, data)) }
  function DispatchUnpack(raw: Bytes): Effect { Bus(OnUnpack(raw)) }
  function DispatchHandler(handlerEvent: HandlerEvent): Effect { Bus(OnHandler(handlerEvent)) }
  function DispatchError(error: Exception): Effect { Bus(OnError(error)) }
  function DispatchPack(packEvent: PackEvent): Effect { Bus(OnPack(packEvent)) }
  function DispatchConnect(connectFd: int): Effect { Bus(OnConnect(connectFd)) }
  function DispatchClose(closeFd: int): Effect { Bus(OnClose(closeFd)) }
  function DispatchEncrypt(envelope: ProtoMessage): Effect { Bus(OnEncrypt(envelope)) }
  function LogError(text: string): Effect { Log(ErrorLine(text)) }
  function LogException(exception: Exception, traceId: Option<string>): Effect { Log(ExceptionLine(exception, traceId)) }
  function LogBusi(exception: Exception, traceId: Option<string>): Effect { Log(BusiLine(exception, traceId)) }
  function LogPoolErrors(errors: seq<string>): Effect { Log(PoolErrorsLine(errors)) }
  function Monitor(record: MonitorRecord): Effect { Monitoring(ServiceRecord(record)) }
  function LegacyMonitor(record: LegacyRecord): Effect { Monitoring(LegacyServiceRecord(record)) }
  function GetKeywords(cls: string, methodName: string): Effect { Business(KeywordsLookup(cls, methodName)) }
  function GetInstance(cls: string, traceId: string): Effect { Business(InstanceLookup(cls, traceId)) }
  function SetClientIp(ip: string): Effect { Business(ClientIpSet(ip)) }
  function Invoke(methodName: string, message: ProtoMessage, fd: int): Effect { Business(MethodInvoke(methodName, message, fd)) }
  function DispatchRunHandler(methodName: string, message: ProtoMessage, fd: int): Effect { Business(RunHandlerDispatch(methodName, message, fd)) }
  function Collect(id: nat): Effect { Business(CollectCall(id)) }
  const BeginTx: Effect := Db(TxBegin)
  const CommitTx: Effect := Db(TxCommit)
  const RollbackTx: Effect := Db(TxRollback)
  function CallProtobuf(packet: Bytes, action: int): Effect { Application(ProtobufListener(packet, action)) }
  function CallError(text: string): Effect { Application(ErrorListener(text)) }
  function LegacyResolve(handlerName: string, methodName: string): Effect { Application(Resolve(handlerName, methodName)) }
  function CallMethod(methodName: string, argument: Value, fd: int, ip: string): Effect { Application(MethodCall(methodName, argument, fd, ip)) }
  function CallRunHandler(methodName: string, argument: Value, fd: int, ip: string): Effect { Application(RunHandlerCall(methodName, argument, fd, ip)) }
  function CallInit(target: BootTarget, name: string): Effect { Application(InitCall(target, name)) }
  function PoolInit(id: nat): Effect { Application(PoolInitCall(id)) }

  /** The database calls among `effects`, in order. */
  function DbTrace(effects: seq<Effect>): (t: seq<Effect>)
  {
    if |effects| == 0 then []
    else (if effects[0].IsTx() then [effects[0]] else []) + DbTrace(effects[1..])
  }

  lemma {:induction false} DbTraceAppend(a: seq<Effect>, b: seq<Effect>)
    ensures DbTrace(a + b) == DbTrace(a) + DbTrace(b)
  {
    if a == [] {
      assert a + b == b;
    } else {
      var h := if a[0].IsTx() then [a[0]] else [];
      assert (a + b)[0] == a[0];
      assert (a + b)[1..] == a[1..] + b;
      DbTraceAppend(a[1..], b);
      assert DbTrace(a + b) == h + DbTrace(a[1..] + b);
      assert DbTrace(a[1..] + b) == DbTrace(a[1..]) + DbTrace(b);
      assert DbTrace(a) == h + DbTrace(a[1..]);
      assert h + (DbTrace(a[1..]) + DbTrace(b)) == (h + DbTrace(a[1..])) + DbTrace(b);
    }
  }

  /** The trace holds exactly the database calls of the effects. */
  lemma {:induction false} DbTraceMembers(effects: seq<Effect>)
    ensures forall e :: e in DbTrace(effects) <==> e in effects && e.IsTx()
  {
    if effects != [] {
      DbTraceMembers(effects[1..]);
      assert effects == [effects[0]] + effects[1..];
    }
  }

  /** A sequence made only of database calls is its own trace. */
  lemma {:induction false} DbTraceAllTx(effects: seq<Effect>)
    requires forall i :: 0 <= i < |effects| ==> effects[i].IsTx()
    ensures DbTrace(effects) == effects
  {
    if effects != [] {
      DbTraceAllTx(effects[1..]);
    }
  }

  /** A sequence without database calls has an empty trace. */
  lemma {:induction false} NoTxNoTrace(es: seq<Effect>)
    requires forall i :: 0 <= i < |es| ==> !es[i].IsTx()
    ensures DbTrace(es) == []
  {
    if es != [] {
      NoTxNoTrace(es[1..]);
    }
  }

  /** The trace of a sequence that starts with `e`. */
  lemma DbTraceCons(e: Effect, rest: seq<Effect>)
    ensures DbTrace([e] + rest) == (if e.IsTx() then [e] else []) + DbTrace(rest)
  {
    assert ([e] + rest)[1..] == rest;
  }

  /** No business code is called among `effects`. */
  predicate NoHandlerCall(effects: seq<Effect>)
  {
    forall i :: 0 <= i < |effects| ==> !effects[i].IsHandlerCall()
  }
}
