/**
  The connect callback (Server\Connect::connect): dispatch the `connect` event and,
  when its listener throws, close the connection and log by exception class. No
  exception from the listener propagates.
 */
module Connect {
  import opened Php
  import opened Exceptions
  import opened Effects

  /** What a callback does: its effects in order, and the exception that escapes it, if any. */
  datatype Handled = Handled(effects: seq<Effect>, escaped: Option<Exception>)

  /** The close and the log line a listener exception leads to. */
  function OnListenerError(fd: int, e: Exception): (es: seq<Effect>)
    ensures |es| >= 1 && es[0] == CloseFd(Fd(fd))
    ensures forall i :: 1 <= i < |es| ==> !es[i].IsClose()
  {
    match e.kind
    case CloseConnection => [CloseFd(Fd(fd))]
    case Busi => [CloseFd(Fd(fd)), LogBusi(e, None)]
    case _ => [CloseFd(Fd(fd)), LogException(e, None)]
  }

  /**
    `connect` as its authors meant it, returning the Connect object: `thrown` is what
    the connect listener throws, if anything.
   */
  function Connect(fd: int, thrown: Option<Exception>): (h: Handled)
    ensures h.escaped == None
    ensures |h.effects| >= 1 && h.effects[0] == DispatchConnect(fd)
    ensures thrown.None? ==> h.effects == [DispatchConnect(fd)]
    ensures thrown.Some? ==>
              && |h.effects| >= 2 && h.effects[1] == CloseFd(Fd(fd))
              && (forall i :: 0 <= i < |h.effects| && i != 1 ==> !h.effects[i].IsClose())
              && (thrown.value.kind == CloseConnection ==> |h.effects| == 2)
              && (thrown.value.kind == Busi ==> h.effects[2..] == [LogBusi(thrown.value, None)])
              && (thrown.value.kind in {Kovey, Other} ==> h.effects[2..] == [LogException(thrown.value, None)])
  {
    match thrown
    case None => Handled([DispatchConnect(fd)], None)
    case Some(e) => Handled([DispatchConnect(fd)] + OnListenerError(fd, e), None)
  }

  /**
    `connect` as written: the same effects, but the method declares the return type
    Connect and has no `return`, so PHP raises a TypeError when it ends.
   */
  function ConnectAsWritten(fd: int, thrown: Option<Exception>): (h: Handled)
    ensures h.effects == Connect(fd, thrown).effects
    ensures h.escaped == Some(MissingReturn("Kovey\\Tcp\\Server\\Connect"))
  {
    var h := Connect(fd, thrown);
    Handled(h.effects, Some(MissingReturn("Kovey\\Tcp\\Server\\Connect")))
  }

  /** Even a connect listener that completes normally leaves the as-written callback with an escaping error. */
  lemma ConnectAlwaysThrowsAsWritten(fd: int)
    ensures ConnectAsWritten(fd, None).escaped.Some?
    ensures ConnectAsWritten(fd, None).escaped.value.kind == Other
    ensures Connect(fd, None).escaped == None
  {
  }
}
