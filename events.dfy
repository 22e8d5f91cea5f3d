/**
  The event payloads the pipeline dispatches on its event bus. Each is an immutable
  record: its fields are set once by the constructor, its getters return them, and
  propagation is always reported as stopped, since one listener serves each kind.
 */
module Events {
  import opened Php
  import opened Protocol

  /** The `handler` event: an unpacked packet with the connection and trace identity of its request. */
  datatype HandlerEvent = HandlerEvent(packet: Packet, fd: int, ip: string, traceId: string, spanId: string)
  {
    function GetPacket(): Packet
    {
      packet
    }

    /**
      The connection id, returned as a string because the getter declares a string
      result: PHP converts the integer to its decimal form, which reads back as the fd.
     */
    function GetFd(): (s: string)
      ensures IsDecimalSyntax(s) && ParseDecimal(s) == fd
    {
      DecimalRoundTrip(fd);
      IntToDecimal(fd)
    }

    function GetIp(): string
    {
      ip
    }

    function GetTraceId(): string
    {
      traceId
    }

    function GetSpanId(): string
    {
      spanId
    }

    function IsPropagationStopped(): (stopped: bool)
      ensures stopped
    {
      true
    }

    function StopPropagation(): (e: HandlerEvent)
      ensures e == this
    {
      this
    }
  }

  /** The getters of a handler event return exactly what it was constructed with. */
  lemma HandlerEventAccessors(p: Packet, fd: int, ip: string, traceId: string, spanId: string)
    ensures var e := HandlerEvent(p, fd, ip, traceId, spanId);
            && e.GetPacket() == p && e.GetIp() == ip && e.GetTraceId() == traceId && e.GetSpanId() == spanId
            && e.GetFd() == IntToDecimal(fd)
            && e.StopPropagation().GetFd() == e.GetFd()
  {
  }

  /** The `pack` event: a response message and the action code to frame it with. */
  datatype PackEvent = PackEvent(packet: Value, action: int)
  {
    function GetPacket(): Value
    {
      packet
    }

    function GetAction(): int
    {
      action
    }

    function IsPropagationStopped(): (stopped: bool)
      ensures stopped
    {
      true
    }

    function StopPropagation(): (e: PackEvent)
      ensures e == this
    {
      this
    }
  }

  /** The getters of a pack event return exactly what it was constructed with. */
  lemma PackEventAccessors(packet: Value, action: int)
    ensures PackEvent(packet, action).GetPacket() == packet
    ensures PackEvent(packet, action).GetAction() == action
  {
  }

  /** The `protobuf` event: wraps a packet and answers for it. */
  datatype ProtobufEvent = ProtobufEvent(packet: Packet)
  {
    function GetMessage(): (m: Bytes)
      ensures m == packet.GetMessage()
    {
      packet.GetMessage()
    }

    function GetAction(): (a: int)
      ensures a == packet.GetAction()
    {
      packet.GetAction()
    }

    function IsPropagationStopped(): (stopped: bool)
      ensures stopped
    {
      true
    }

    function StopPropagation(): (e: ProtobufEvent)
      ensures e == this
    {
      this
    }
  }

  /** A protobuf event built from a body and an action gives that body and action back. */
  lemma ProtobufEventDelegates(body: Bytes, action: int)
    ensures ProtobufEvent(Packet(body, action)).GetMessage() == body
    ensures ProtobufEvent(Packet(body, action)).GetAction() == action
  {
  }
}
