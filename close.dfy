/**
  The close callback (Server\Close::close): dispatch the `close` event and log
  anything its listener throws. Nothing propagates, and the method returns its own
  object, which has no state.
 */
module Close {
  import opened Php
  import opened Exceptions
  import opened Effects

  /** The effects of `close`; `thrown` is what the close listener throws, if anything. */
  function Close(fd: int, thrown: Option<Exception>): (effects: seq<Effect>)
    ensures |effects| >= 1 && effects[0] == DispatchClose(fd)
    ensures thrown.None? ==> |effects| == 1
    ensures thrown.Some? ==> effects[1..] == [LogException(thrown.value, None)]
    ensures forall i :: 0 <= i < |effects| ==> !effects[i].IsClose() && !effects[i].IsBusiLog()
  {
    [DispatchClose(fd)] + match thrown
      case None => []
      case Some(e) => [LogException(e, None)]
  }
}
