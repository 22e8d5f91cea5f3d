/**
  One request on a connection (Server\Receive): `begin` resets the request state,
  `run` unpacks the packet and dispatches it to the handler, sorting what happens
  into one of four request types, `end` sends the response when the result carries
  one, and `monitor` builds the record sent to the monitor. Server::receive runs the
  four in that order.
 */
module Receive {
  import opened Php
  import opened Exceptions
  import opened Protocol
  import opened Events
  import opened Effects
  import opened Server

  /** How a request ended, under the names the monitor record uses. */
  datatype RequestType = Success | ConnectionCloseException | BusiException | ErrorException
  {
    function Name(): string
    {
      match this
      case Success => "success"
      case ConnectionCloseException => "connection_close_exception"
      case BusiException => "busi_exception"
      case ErrorException => "error_exception"
    }
  }

  /** The fields of a Receive that its methods update. */
  datatype State = State(traceId: string, result: Response, trace: string, err: string, action: int, requestType: RequestType)

  /**
    How a Receive is wired. `AsWritten`: the handler event is built with four of the
    five constructor arguments, both `close` calls of `run` read an undefined
    variable, so they close null, and the `instanceof Message` test of `monitor`
    names a class of the server's own namespace that does not exist, so it never
    holds. `Corrected(spanId)`: the event gets its span id, both calls close this
    request's fd, and `monitor` serialises a protobuf message object.
   */
  datatype Wiring = AsWritten | Corrected(spanId: string)

  /** The ArgumentCountError PHP raises for the four-argument handler event. */
  function HandlerEventArityError(): (e: Exception)
    ensures e.kind == Other
  {
    Exception(Other, "too few arguments", 0, "")
  }

  /** What building the handler event for packet `p` yields under a wiring. */
  function BuildEvent(w: Wiring, p: Packet, fd: int, ip: string, traceId: string): Outcome<HandlerEvent>
  {
    match w
    case AsWritten => Threw(HandlerEventArityError())
    case Corrected(spanId) => Returned(HandlerEvent(p, fd, ip, traceId, spanId))
  }

  /** The fd the `close` calls of `run` pass under a wiring. */
  function CloseTarget(w: Wiring, fd: int): FdArg
  {
    if w.AsWritten? then NullFd else Fd(fd)
  }

  /** The request type an exception sorts into. */
  function TypeOf(e: Exception): (t: RequestType)
    ensures t != Success
    ensures t == ConnectionCloseException <==> e.kind == CloseConnection
    ensures t == BusiException <==> (e.kind == Busi || e.kind == Kovey)
  {
    match e.kind
    case CloseConnection => ConnectionCloseException
    case Busi => BusiException
    case Kovey => BusiException
    case Other => ErrorException
  }

  /**
    The catch blocks of `run`: the new state and the effects for an exception `e`.
    `error` is the `error` listener, when one is registered.
   */
  function Caught(s: State, e: Exception, close: FdArg, error: Option<Exception -> Response>): (r: (State, seq<Effect>))
    ensures r.0.requestType == TypeOf(e)
    ensures r.0.traceId == s.traceId && r.0.action == s.action
  {
    match e.kind
    case CloseConnection =>
      (s.(requestType := ConnectionCloseException), [CloseFd(close), LogException(e, Some(s.traceId))])
    case Other =>
      (s.(trace := e.trace, err := e.message, requestType := ErrorException), [LogException(e, Some(s.traceId))])
    case _ =>
      var s1 := s.(trace := e.trace, err := e.message, requestType := BusiException);
      match error
      case None => (s1, [LogBusi(e, Some(s.traceId))])
      case Some(listener) => (s1.(result := listener(e)), [LogBusi(e, Some(s.traceId)), DispatchError(e)])
  }

  /**
    What the catch blocks keep and change: a connection-close exception closes the
    connection and changes nothing but the type; any other records its message and
    trace and closes nothing; the result changes only to the `error` listener's
    answer for a business or framework exception.
   */
  lemma CaughtEffects(s: State, e: Exception, close: FdArg, error: Option<Exception -> Response>)
    ensures var r := Caught(s, e, close, error);
            && (e.kind == CloseConnection ==> r.0 == s.(requestType := ConnectionCloseException) && CloseFd(close) in r.1)
            && (e.kind != CloseConnection ==>
                  r.0.err == e.message && r.0.trace == e.trace && forall i :: 0 <= i < |r.1| ==> !r.1[i].IsClose())
            && (r.0.result != s.result ==> (e.kind == Busi || e.kind == Kovey) && error.Some? && r.0.result == error.value(e))
            && ((e.kind == Busi || e.kind == Kovey) && error.Some? ==> r.0.result == error.value(e) && DispatchError(e) in r.1)
  {
    var r := Caught(s, e, close, error);
    if e.kind == CloseConnection {
      assert r.1[0] == CloseFd(close);
    } else if (e.kind == Busi || e.kind == Kovey) && error.Some? {
      assert r.1[1] == DispatchError(e);
    }
  }

  /**
    What `run` does from state `s`: `unpack` is what the `unpack` listener returns
    for the raw packet (a packet, None for anything that is not one, or an
    exception), `handler` what the `handler` listener returns for an event, and
    `error` the `error` listener, if registered.
   */
  function RunSpec(s: State, packet: Bytes, fd: int, ip: string, w: Wiring, unpack: Outcome<Option<Packet>>,
                   handler: HandlerEvent -> Outcome<Response>, error: Option<Exception -> Response>): (r: (State, seq<Effect>))
    ensures |r.1| >= 1 && r.1[0] == DispatchUnpack(packet)
    ensures r.0.traceId == s.traceId
  {
    var start := [DispatchUnpack(packet)];
    match unpack
    case Threw(e) =>
      var c := Caught(s, e, CloseTarget(w, fd), error);
      (c.0, start + c.1)
    case Returned(None) =>
      (s, start + [LogError("data is error"), CloseFd(CloseTarget(w, fd))])
    case Returned(Some(p)) =>
      var s1 := s.(action := p.GetAction());
      match BuildEvent(w, p, fd, ip, s.traceId)
      case Threw(e) =>
        var c := Caught(s1, e, CloseTarget(w, fd), error);
        (c.0, start + c.1)
      case Returned(ev) =>
        match handler(ev)
        case Returned(response) => (s1.(result := response), start + [DispatchHandler(ev)])
        case Threw(e) =>
          var c := Caught(s1, e, CloseTarget(w, fd), error);
          (c.0, start + [DispatchHandler(ev)] + c.1)
  }

  /**
    When the `unpack` listener gives something that is not a packet, `run` logs it and
    closes the connection; the handler event is never dispatched and no field changes,
    so the request type stays what `begin` set.
   */
  lemma RunWithoutPacket(s: State, packet: Bytes, fd: int, ip: string, w: Wiring,
                         handler: HandlerEvent -> Outcome<Response>, error: Option<Exception -> Response>)
    ensures var r := RunSpec(s, packet, fd, ip, w, Returned(None), handler, error);
            && r.0 == s
            && CloseFd(CloseTarget(w, fd)) in r.1
            && forall i :: 0 <= i < |r.1| ==> !r.1[i].IsHandlerDispatch()
  {
    var r := RunSpec(s, packet, fd, ip, w, Returned(None), handler, error);
    assert r.1 == [DispatchUnpack(packet), LogError("data is error"), CloseFd(CloseTarget(w, fd))];
    assert r.1[2] == CloseFd(CloseTarget(w, fd));
  }

  /**
    A packet whose handler returns: the request keeps the packet's action and the
    handler's result, and its type is unchanged.
   */
  lemma RunSuccess(s: State, packet: Bytes, fd: int, ip: string, spanId: string, p: Packet, response: Response,
                   handler: HandlerEvent -> Outcome<Response>, error: Option<Exception -> Response>)
    requires handler(HandlerEvent(p, fd, ip, s.traceId, spanId)) == Returned(response)
    ensures var r := RunSpec(s, packet, fd, ip, Corrected(spanId), Returned(Some(p)), handler, error);
            && r.0 == s.(action := p.GetAction(), result := response)
            && r.1 == [DispatchUnpack(packet), DispatchHandler(HandlerEvent(p, fd, ip, s.traceId, spanId))]
  {
  }

  /**
    A handler that throws: the exception decides the request type. A connection-close
    exception closes this request's connection and leaves the result alone; a
    business or framework exception records its message and takes the `error`
    listener's result only when that listener is registered; any other exception
    records its message and trace and never produces a result.
   */
  lemma RunHandlerThrows(s: State, packet: Bytes, fd: int, ip: string, spanId: string, p: Packet, e: Exception,
                         handler: HandlerEvent -> Outcome<Response>, error: Option<Exception -> Response>)
    requires handler(HandlerEvent(p, fd, ip, s.traceId, spanId)) == Threw(e)
    ensures var r := RunSpec(s, packet, fd, ip, Corrected(spanId), Returned(Some(p)), handler, error);
            && r.0.requestType == TypeOf(e)
            && r.0.action == p.GetAction()
            && DispatchHandler(HandlerEvent(p, fd, ip, s.traceId, spanId)) in r.1
            && (e.kind == CloseConnection ==> CloseFd(Fd(fd)) in r.1 && r.0.result == s.result)
            && (e.kind == Other ==> r.0.result == s.result && r.0.err == e.message && r.0.trace == e.trace)
            && ((e.kind == Busi || e.kind == Kovey) ==>
                  r.0.err == e.message && r.0.result == (if error.Some? then error.value(e) else s.result))
  {
    var ev := HandlerEvent(p, fd, ip, s.traceId, spanId);
    var c := Caught(s.(action := p.GetAction()), e, Fd(fd), error);
    assert RunSpec(s, packet, fd, ip, Corrected(spanId), Returned(Some(p)), handler, error).1
        == [DispatchUnpack(packet)] + [DispatchHandler(ev)] + c.1;
  }

  /**
    As written, building the handler event with four arguments always raises an
    ArgumentCountError: no packet ever reaches the handler, and every request with a
    valid packet ends as an error_exception.
   */
  lemma RunAsWrittenNeverDispatches(s: State, packet: Bytes, fd: int, ip: string, unpack: Outcome<Option<Packet>>,
                                    handler: HandlerEvent -> Outcome<Response>, error: Option<Exception -> Response>)
    ensures var r := RunSpec(s, packet, fd, ip, AsWritten, unpack, handler, error);
            && (forall i :: 0 <= i < |r.1| ==> !r.1[i].IsHandlerDispatch())
            && (unpack.Returned? && unpack.value.Some? ==>
                  r.0.requestType == ErrorException && r.0.err == HandlerEventArityError().message && r.0.result == s.result)
  {
  }

  /**
    As written, a connection-close exception from the `unpack` listener closes null
    rather than the request's connection, which stays open; the corrected `run`
    closes the request's fd.
   */
  lemma RunClosesNullAsWritten(s: State, packet: Bytes, fd: int, ip: string, e: Exception, spanId: string,
                               handler: HandlerEvent -> Outcome<Response>, error: Option<Exception -> Response>)
    requires e.kind == CloseConnection
    ensures var r := RunSpec(s, packet, fd, ip, AsWritten, Threw(e), handler, error);
            CloseFd(NullFd) in r.1 && CloseFd(Fd(fd)) !in r.1
    ensures CloseFd(Fd(fd)) in RunSpec(s, packet, fd, ip, Corrected(spanId), Threw(e), handler, error).1
  {
    var c := Caught(s, e, NullFd, error);
    assert c.1 == [CloseFd(NullFd), LogException(e, Some(s.traceId))];
    var r := RunSpec(s, packet, fd, ip, AsWritten, Threw(e), handler, error);
    assert r.1 == [DispatchUnpack(packet)] + c.1;
    assert r.1 == [DispatchUnpack(packet), CloseFd(NullFd), LogException(e, Some(s.traceId))];
    assert RunSpec(s, packet, fd, ip, Corrected(spanId), Threw(e), handler, error).1
        == [DispatchUnpack(packet), CloseFd(Fd(fd)), LogException(e, Some(s.traceId))];
  }

  /**
    As written, a packet that does not unpack also closes null (the property read on
    the event manager does not exist), so the connection stays open; the corrected
    `run` closes the request's fd.
   */
  lemma RunNonPacketClosesNullAsWritten(s: State, packet: Bytes, fd: int, ip: string, spanId: string,
                                        handler: HandlerEvent -> Outcome<Response>, error: Option<Exception -> Response>)
    ensures var r := RunSpec(s, packet, fd, ip, AsWritten, Returned(None), handler, error);
            r.1 == [DispatchUnpack(packet), LogError("data is error"), CloseFd(NullFd)]
    ensures var r := RunSpec(s, packet, fd, ip, Corrected(spanId), Returned(None), handler, error);
            r.1 == [DispatchUnpack(packet), LogError("data is error"), CloseFd(Fd(fd))]
  {
  }

  /** The state `begin` leaves. */
  function Initial(traceId: string): (s: State)
    ensures s.requestType.Name() == "success" && s.action == 0 && s.result == map[]
    ensures s.trace == "" && s.err == "" && s.traceId == traceId
  {
    State(traceId, map[], "", "", 0, Success)
  }

  /** Whether `end` sends: the result is not empty and carries both a message and an action. */
  predicate Sends(result: Response)
  {
    |result| > 0 && Isset(result, "message") && Isset(result, "action")
  }

  /** The TypeError PHP raises when the result's action cannot be passed as an int. */
  function ActionTypeError(): (e: Exception)
    ensures e.kind == Other
  {
    Exception(Other, "send(): $action not int", 0, "")
  }

  /**
    What `end` does from state `s` for connection `fd`: its effects and the exception
    that escapes it. `live`, `pack` and `writeOk` are as for Server::send. As
    written, `send` raises a class-not-found Error for a missing connection, which
    the catch of connection-close exceptions does not stop.
   */
  function EndSpec(s: State, w: Wiring, fd: int, live: set<int>, pack: PackEvent -> Bytes, writeOk: bool): (r: (seq<Effect>, Option<Exception>))
    ensures !Sends(s.result) ==> r == ([], None)
    ensures r.1.Some? ==> r.0 == [] && Sends(s.result)
    ensures r.1 == Some(ActionTypeError()) <==> Sends(s.result) && IntParam(s.result["action"]).None?
    ensures Sends(s.result) && IntParam(s.result["action"]).Some? && fd in live ==>
              var ev := PackEvent(s.result["message"], IntParam(s.result["action"]).value);
              r == ([DispatchPack(ev)] + Writes(fd, SendPlan(pack(ev))), None)
    ensures Sends(s.result) && IntParam(s.result["action"]).Some? && fd !in live && w.AsWritten? ==>
              r == ([], Some(ClassNotFound()))
    ensures Sends(s.result) && IntParam(s.result["action"]).Some? && fd !in live && w.Corrected? ==>
              r == ([CloseFd(Fd(fd)), LogException(NotExistError(), Some(s.traceId))], None)
  {
    if !Sends(s.result) then ([], None)
    else match IntParam(s.result["action"])
      case None => ([], Some(ActionTypeError()))
      case Some(action) =>
        if fd !in live then
          if w.AsWritten? then ([], Some(ClassNotFound()))
          else ([CloseFd(Fd(fd)), LogException(NotExistError(), Some(s.traceId))], None)
        else
          var ev := PackEvent(s.result["message"], action);
          ([DispatchPack(ev)] + Writes(fd, SendPlan(pack(ev))), None)
  }

  /**
    As written, a response for a connection that is gone closes nothing, logs
    nothing and lets the class-not-found Error escape `end`; the intended `end` closes
    the connection and logs the connection-close exception, and nothing escapes.
   */
  lemma EndGoneConnectionAsWritten(s: State, fd: int, live: set<int>, pack: PackEvent -> Bytes, writeOk: bool, spanId: string)
    requires Sends(s.result) && IntParam(s.result["action"]).Some? && fd !in live
    ensures EndSpec(s, AsWritten, fd, live, pack, writeOk) == ([], Some(ClassNotFound()))
    ensures TypeOf(ClassNotFound()) != ConnectionCloseException
    ensures EndSpec(s, Corrected(spanId), fd, live, pack, writeOk)
              == ([CloseFd(Fd(fd)), LogException(NotExistError(), Some(s.traceId))], None)
  {
  }

  /** The result the intended `monitor` reports: a message object is replaced by its JSON form. */
  function SerializedResult(result: Response, serialize: nat -> string): (r: Response)
    ensures r.Keys == result.Keys
    ensures forall k :: k in result && k != "message" ==> r[k] == result[k]
    ensures "message" in r ==> !r["message"].Obj?
    ensures "message" in result && result["message"].Obj? ==> r["message"] == Str(serialize(result["message"].id))
  {
    if Isset(result, "message") && result["message"].Obj? then result["message" := Str(serialize(result["message"].id))]
    else result
  }

  /** The result `monitor` reports under a wiring: as written, the result as it is. */
  function ReportedResult(w: Wiring, result: Response, serialize: nat -> string): Response
  {
    if w.AsWritten? then result else SerializedResult(result, serialize)
  }

  /**
    As written, a message object reaches the monitor record unchanged; the intended
    `monitor` reports its JSON form instead.
   */
  lemma MonitorKeepsObjectAsWritten(s: State, ip: string, service: string, serialize: nat -> string, spanId: string)
    requires "message" in s.result && s.result["message"].Obj?
    ensures RecordOf(s.(result := ReportedResult(AsWritten, s.result, serialize)), ip, service).response == s.result["message"]
    ensures RecordOf(s.(result := ReportedResult(Corrected(spanId), s.result, serialize)), ip, service).response
              == Str(serialize(s.result["message"].id))
  {
  }

  /** The non-timing fields of the monitor record for state `s`. */
  function RecordOf(s: State, ip: string, service: string): (m: MonitorRecord)
    ensures m.kind == s.requestType.Name() && m.action == s.action && m.traceId == s.traceId && m.ip == ip
    ensures m.service == service && m.from == service && m.serviceType == "tcp"
    ensures m.trace == s.trace && m.err == s.err
    ensures m.handlerClass == (if Isset(s.result, "class") then s.result["class"] else Str(""))
    ensures m.handlerMethod == (if Isset(s.result, "method") then s.result["method"] else Str(""))
    ensures m.params == (if Isset(s.result, "params") then s.result["params"] else Str(""))
    ensures m.response == (if Isset(s.result, "message") then s.result["message"] else Str(""))
  {
    MonitorRecord(
      s.action,
      Coalesce(s.result, "class", Str("")),
      Coalesce(s.result, "method", Str("")),
      service,
      "tcp",
      s.requestType.Name(),
      Coalesce(s.result, "params", Str("")),
      Coalesce(s.result, "message", Str("")),
      ip,
      s.traceId,
      service,
      s.trace,
      s.err)
  }

  class Receive {
    const packet: Bytes
    const ip: string
    const fd: int
    const service: string

    var traceId: string
    var result: Response
    var trace: string
    var err: string
    var action: int
    var requestType: RequestType

    function St(): State
      reads this
    {
      State(traceId, result, trace, err, action, requestType)
    }

    constructor (packet: Bytes, ip: string, fd: int, service: string)
      ensures this.packet == packet && this.ip == ip && this.fd == fd && this.service == service
    {
      this.packet := packet;
      this.ip := ip;
      this.fd := fd;
      this.service := service;
    }

    /** `begin`; the trace id is an input. */
    method Begin(traceId: string)
      modifies this
      ensures St() == Initial(traceId)
    {
      this.result := map[];
      this.traceId := traceId;
      this.trace := "";
      this.err := "";
      this.requestType := Success;
      this.action := 0;
    }

    /** `run`, with the event wiring `w`. */
    method Run(w: Wiring, unpack: Outcome<Option<Packet>>, handler: HandlerEvent -> Outcome<Response>,
               error: Option<Exception -> Response>) returns (effects: seq<Effect>)
      modifies this
      ensures (St(), effects) == RunSpec(old(St()), packet, fd, ip, w, unpack, handler, error)
    {
      effects := [DispatchUnpack(packet)];
      var close := CloseTarget(w, fd);
      match unpack {
        case Threw(e) =>
          var caught := Catch(e, close, error);
          effects := effects + caught;
        case Returned(None) =>
          effects := effects + [LogError("data is error"), CloseFd(close)];
        case Returned(Some(p)) =>
          action := p.GetAction();
          match BuildEvent(w, p, fd, ip, traceId) {
            case Threw(e) =>
              var caught := Catch(e, close, error);
              effects := effects + caught;
            case Returned(ev) =>
              effects := effects + [DispatchHandler(ev)];
              match handler(ev) {
                case Returned(response) =>
                  result := response;
                case Threw(e) =>
                  var caught := Catch(e, close, error);
                  effects := effects + caught;
              }
          }
      }
    }

    /** The catch blocks of `run`. */
    method Catch(e: Exception, close: FdArg, error: Option<Exception -> Response>) returns (effects: seq<Effect>)
      modifies this
      ensures (St(), effects) == Caught(old(St()), e, close, error)
    {
      match e.kind {
        case CloseConnection =>
          requestType := ConnectionCloseException;
          effects := [CloseFd(close), LogException(e, Some(traceId))];
        case Other =>
          trace := e.trace;
          err := e.message;
          requestType := ErrorException;
          effects := [LogException(e, Some(traceId))];
        case _ =>
          trace := e.trace;
          err := e.message;
          requestType := BusiException;
          if error.Some? {
            effects := [LogBusi(e, Some(traceId)), DispatchError(e)];
            result := error.value(e);
          } else {
            effects := [LogBusi(e, Some(traceId))];
          }
      }
    }

    /** `end`: it reads the request state and changes none of it. */
    method End(w: Wiring, live: set<int>, pack: PackEvent -> Bytes, writeOk: bool) returns (effects: seq<Effect>, escaped: Option<Exception>)
      ensures (effects, escaped) == EndSpec(St(), w, fd, live, pack, writeOk)
    {
      if |result| == 0 || !Isset(result, "message") || !Isset(result, "action") {
        return [], None;
      }
      var action := IntParam(result["action"]);
      if action.None? {
        return [], Some(ActionTypeError());
      }
      var sent, sendEffects := Send(live, pack, writeOk, result["message"], action.value, fd, w.AsWritten?);
      effects := sendEffects;
      escaped := None;
      if sent.Threw? {
        if sent.error.kind == CloseConnection {
          effects := [CloseFd(Fd(fd)), LogException(sent.error, Some(traceId))];
        } else {
          escaped := Some(sent.error);
        }
      }
    }

    /** `monitor`: under the corrected wiring serialises a message object in the result; then builds the record. */
    method Monitor(w: Wiring, serialize: nat -> string) returns (record: MonitorRecord)
      modifies this
      ensures result == ReportedResult(w, old(result), serialize)
      ensures St() == old(St()).(result := result)
      ensures record == RecordOf(St(), ip, service)
    {
      if w.Corrected? && Isset(result, "message") && result["message"].Obj? {
        result := result["message" := Str(serialize(result["message"].id))];
      }
      record := RecordOf(St(), ip, service);
    }
  }

  /**
    Server::receive: one request through `begin`, `run`, `end` and `monitor`, on a
    fresh Receive: the effects, the exception that escapes, and the monitor record
    when one is sent. As written, the four methods declare the return type
    `Business`, a class of this namespace that Receive is not, so `begin` raises a
    TypeError and the chain stops there. Corrected, the effects are those of `run`
    followed by those of `end`, and an exception escaping `end` ends the chain before
    `monitor`.
   */
  function ReceiveSpec(traceId: string, data: Bytes, ip: string, fd: int, service: string, w: Wiring,
                       unpack: Outcome<Option<Packet>>, handler: HandlerEvent -> Outcome<Response>,
                       error: Option<Exception -> Response>, live: set<int>, pack: PackEvent -> Bytes,
                       writeOk: bool, serialize: nat -> string): (r: (seq<Effect>, Option<Exception>, Option<MonitorRecord>))
    ensures r.2.Some? <==> r.1.None?
  {
    if w.AsWritten? then ([], Some(ReturnTypeError("Business")), None)
    else
      var run := RunSpec(Initial(traceId), data, fd, ip, w, unpack, handler, error);
      var end := EndSpec(run.0, w, fd, live, pack, writeOk);
      (run.1 + end.0, end.1,
       if end.1.Some? then None else Some(RecordOf(run.0.(result := ReportedResult(w, run.0.result, serialize)), ip, service)))
  }

  /**
    As written, every request fails in `begin` with a TypeError that nothing in the
    chain catches: nothing is unpacked, sent or recorded.
   */
  lemma ReceiveStopsAtBeginAsWritten(traceId: string, data: Bytes, ip: string, fd: int, service: string,
                                     unpack: Outcome<Option<Packet>>, handler: HandlerEvent -> Outcome<Response>,
                                     error: Option<Exception -> Response>, live: set<int>, pack: PackEvent -> Bytes,
                                     writeOk: bool, serialize: nat -> string)
    ensures var r := ReceiveSpec(traceId, data, ip, fd, service, AsWritten, unpack, handler, error, live, pack, writeOk, serialize);
            && r == ([], Some(ReturnTypeError("Business")), None)
            && r.1.value.kind == Other
  {
  }

  /**
    Corrected, a request unpacks first, its effects are those of `run` followed by
    those of `end`, and a monitor record is sent exactly when nothing escapes `end`,
    with the fields `run` left and the result `monitor` reports.
   */
  lemma ReceiveCorrected(traceId: string, data: Bytes, ip: string, fd: int, service: string, spanId: string,
                         unpack: Outcome<Option<Packet>>, handler: HandlerEvent -> Outcome<Response>,
                         error: Option<Exception -> Response>, live: set<int>, pack: PackEvent -> Bytes,
                         writeOk: bool, serialize: nat -> string)
    ensures var w := Corrected(spanId);
            var r := ReceiveSpec(traceId, data, ip, fd, service, w, unpack, handler, error, live, pack, writeOk, serialize);
            var run := RunSpec(Initial(traceId), data, fd, ip, w, unpack, handler, error);
            var end := EndSpec(run.0, w, fd, live, pack, writeOk);
            && r.0 == run.1 + end.0 && r.0[0] == DispatchUnpack(data)
            && r.1 == end.1
            && (r.1.None? ==> r.2 == Some(RecordOf(run.0.(result := SerializedResult(run.0.result, serialize)), ip, service)))
            && (r.2.Some? ==> r.2.value.traceId == traceId)
  {
  }

  /** Server::receive, on a fresh Receive. */
  method HandleReceive(data: Bytes, ip: string, fd: int, service: string, traceId: string, w: Wiring,
                       unpack: Outcome<Option<Packet>>, handler: HandlerEvent -> Outcome<Response>,
                       error: Option<Exception -> Response>, live: set<int>, pack: PackEvent -> Bytes,
                       writeOk: bool, serialize: nat -> string)
    returns (effects: seq<Effect>, escaped: Option<Exception>, record: Option<MonitorRecord>)
    ensures (effects, escaped, record) == ReceiveSpec(traceId, data, ip, fd, service, w, unpack, handler, error, live, pack, writeOk, serialize)
  {
    var receive := new Receive(data, ip, fd, service);
    receive.Begin(traceId);
    if w.AsWritten? {
      return [], Some(ReturnTypeError("Business")), None;
    }
    ghost var run := RunSpec(Initial(traceId), data, fd, ip, w, unpack, handler, error);
    var runEffects := receive.Run(w, unpack, handler, error);
    assert receive.St() == run.0 && runEffects == run.1;
    var endEffects;
    endEffects, escaped := receive.End(w, live, pack, writeOk);
    effects := runEffects + endEffects;
    if escaped.None? {
      var r := receive.Monitor(w, serialize);
      record := Some(r);
    } else {
      record := None;
    }
  }
}
