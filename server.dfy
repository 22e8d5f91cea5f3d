/**
  The server's outbound path (Server::send): pack a response through the `pack`
  listener and write it to the connection, in one piece when it fits in the maximum
  package length and in consecutive slices of that length otherwise. Also the
  framing options the server is configured with and the event kinds it supports.
 */
module Server {
  import opened Php
  import opened Exceptions
  import opened Protocol
  import opened Events
  import opened Effects

  // ---------------------------------------------------------------------------
  // Slicing

  function Min(a: int, b: int): int
  {
    if a <= b then a else b
  }

  /** `substr($data, $start, $length)` for a start and length that are not negative. */
  function Substr(data: Bytes, start: nat, length: nat): (s: Bytes)
  {
    if start >= |data| then [] else data[start..Min(|data|, start + length)]
  }

  /** The slices the chunked path writes: consecutive pieces of `MaxLength` bytes, the last one possibly shorter. */
  function Chunks(data: Bytes): (cs: seq<Bytes>)
    decreases |data|
  {
    if |data| == 0 then []
    else if |data| <= MaxLength then [data]
    else [data[..MaxLength]] + Chunks(data[MaxLength..])
  }

  function Concat(cs: seq<Bytes>): Bytes
  {
    if cs == [] then [] else cs[0] + Concat(cs[1..])
  }

  /** Writing the slices in order gives back the data. */
  lemma {:induction false} ChunksConcat(data: Bytes)
    ensures Concat(Chunks(data)) == data
    decreases |data|
  {
    if |data| > MaxLength {
      var cs := Chunks(data);
      assert cs[1..] == Chunks(data[MaxLength..]);
      ChunksConcat(data[MaxLength..]);
      assert data[..MaxLength] + data[MaxLength..] == data;
    }
  }

  /**
    Every slice is non-empty and at most `MaxLength` long, every slice but the last
    is exactly `MaxLength` long, and slice k is the `substr` that starts at
    k * `MaxLength`.
   */
  lemma {:induction false} ChunksShape(data: Bytes)
    ensures var cs := Chunks(data);
            && (forall k :: 0 <= k < |cs| ==> 0 < |cs[k]| <= MaxLength)
            && (forall k :: 0 <= k < |cs| - 1 ==> |cs[k]| == MaxLength)
            && (forall k :: 0 <= k < |cs| ==> cs[k] == Substr(data, k * MaxLength, MaxLength))
    decreases |data|
  {
    var cs := Chunks(data);
    if |data| > MaxLength {
      var rest := data[MaxLength..];
      ChunksShape(rest);
      forall k | 1 <= k < |cs|
        ensures cs[k] == Substr(data, k * MaxLength, MaxLength)
      {
        assert cs[k] == Chunks(rest)[k - 1];
        assert Chunks(rest)[k - 1] == Substr(rest, (k - 1) * MaxLength, MaxLength);
        assert k * MaxLength == (k - 1) * MaxLength + MaxLength;
        SubstrShift(data, (k - 1) * MaxLength);
      }
    }
  }

  /** A `substr` of the data after the first slice is the `substr` one slice further on. */
  lemma SubstrShift(data: Bytes, start: nat)
    requires |data| > MaxLength
    ensures Substr(data[MaxLength..], start, MaxLength) == Substr(data, start + MaxLength, MaxLength)
  {
    var rest := data[MaxLength..];
    if start < |rest| {
      assert rest[start..Min(|rest|, start + MaxLength)] == data[start + MaxLength..Min(|data|, start + MaxLength + MaxLength)];
    }
  }

  /** There are exactly ceil(L / `MaxLength`) slices of data of length L. */
  lemma {:induction false} ChunksCount(data: Bytes)
    ensures |Chunks(data)| == (|data| + MaxLength - 1) / MaxLength
    decreases |data|
  {
    if |data| > MaxLength {
      ChunksCount(data[MaxLength..]);
      assert (|data| + MaxLength - 1) / MaxLength == (|data| - MaxLength + MaxLength - 1) / MaxLength + 1;
    }
  }

  // ---------------------------------------------------------------------------
  // send

  /** One write of each slice to `fd`, in order. */
  function Writes(fd: int, cs: seq<Bytes>): (ws: seq<Effect>)
    ensures |ws| == |cs| && forall i :: 0 <= i < |cs| ==> ws[i] == Write(fd, cs[i])
  {
    seq(|cs|, i requires 0 <= i < |cs| => Write(fd, cs[i]))
  }

  /** The pieces `send` writes for packed data: nothing for falsy data, else the slices. */
  function SendPlan(data: Bytes): seq<Bytes>
  {
    if FalsyBytes(data) then [] else Chunks(data)
  }

  /** The connection-close exception `send` is meant to raise for a connection that no longer exists. */
  function NotExistError(): (e: Exception)
    ensures e.kind == CloseConnection
  {
    Exception(CloseConnection, "connect is not exist", 0, "")
  }

  /**
    `send($packet, $action, $fd)`. `live` is the set of connections the server
    knows, `pack` is what the `pack` listener returns for an event, and `writeOk`
    is what the socket write reports when the data goes out in one piece. With
    `asWritten`, the exception class for a missing connection is resolved as the
    file names it: this namespace imports no CloseConnectionException, so the name
    denotes a class that does not exist and PHP raises a class-not-found Error.
   */
  method Send(live: set<int>, pack: PackEvent -> Bytes, writeOk: bool, packet: Value, action: int, fd: int, asWritten: bool)
    returns (r: Outcome<bool>, effects: seq<Effect>)
    ensures fd !in live && asWritten ==> r == Threw(ClassNotFound()) && effects == []
    ensures fd !in live && !asWritten ==> r == Threw(NotExistError()) && effects == []
    ensures fd in live ==>
              var data := pack(PackEvent(packet, action));
              && effects == [DispatchPack(PackEvent(packet, action))] + Writes(fd, SendPlan(data))
              && r == Returned(if FalsyBytes(data) then false else if |data| <= MaxLength then writeOk else true)
  {
    if fd !in live {
      if asWritten {
        return Threw(ClassNotFound()), [];
      }
      return Threw(NotExistError()), [];
    }
    var ev := PackEvent(packet, action);
    var data := pack(ev);
    effects := [DispatchPack(ev)];
    if FalsyBytes(data) {
      return Returned(false), effects;
    }
    var len := |data|;
    if len <= MaxLength {
      effects := effects + [Write(fd, data)];
      assert Writes(fd, SendPlan(data)) == [Write(fd, data)];
      return Returned(writeOk), effects;
    }
    var writes := WriteChunks(fd, data);
    return Returned(true), effects + writes;
  }

  /** The `substr` loop of `send`: one write per slice, advancing by `MaxLength`. */
  method WriteChunks(fd: int, data: Bytes) returns (effects: seq<Effect>)
    ensures effects == Writes(fd, Chunks(data))
  {
    var len := |data|;
    var sendLen := 0;
    ghost var done: seq<Bytes> := [];
    effects := [];
    while sendLen < len
      invariant sendLen == |done| * MaxLength
      invariant done + Chunks(data[Min(sendLen, len)..]) == Chunks(data)
      invariant effects == Writes(fd, done)
      decreases len - sendLen
    {
      var piece := Substr(data, sendLen, MaxLength);
      ChunksStep(data, sendLen);
      WritesSnoc(fd, done, piece);
      effects := effects + [Write(fd, piece)];
      done := done + [piece];
      sendLen := sendLen + MaxLength;
    }
    assert data[len..] == [];
  }

  /** The slices from `start` on are the `substr` at `start` followed by the slices after it. */
  lemma ChunksStep(data: Bytes, start: nat)
    requires start < |data|
    ensures Chunks(data[start..]) == [Substr(data, start, MaxLength)] + Chunks(data[Min(start + MaxLength, |data|)..])
  {
    var piece := Substr(data, start, MaxLength);
    if |data| - start > MaxLength {
      assert piece == data[start..][..MaxLength];
      assert data[start..][MaxLength..] == data[start + MaxLength..];
    } else {
      assert piece == data[start..];
      assert data[|data|..] == [];
    }
  }

  lemma WritesSnoc(fd: int, cs: seq<Bytes>, c: Bytes)
    ensures Writes(fd, cs + [c]) == Writes(fd, cs) + [Write(fd, c)]
  {
  }

  /** Data of at most `MaxLength` bytes that is not falsy goes out in exactly one write of the whole data. */
  lemma SmallDataOneWrite(data: Bytes)
    requires !FalsyBytes(data) && |data| <= MaxLength
    ensures SendPlan(data) == [data]
  {
  }

  /**
    What the chunked path writes: ceil(L / `MaxLength`) slices that concatenate to the
    data, slice k being the `substr` at k * `MaxLength`.
   */
  lemma LargeDataSlices(data: Bytes)
    requires |data| > MaxLength
    ensures var plan := SendPlan(data);
            && |plan| == (|data| + MaxLength - 1) / MaxLength
            && Concat(plan) == data
            && forall k :: 0 <= k < |plan| ==> plan[k] == Substr(data, k * MaxLength, MaxLength)
  {
    ChunksCount(data);
    ChunksConcat(data);
    ChunksShape(data);
  }

  // ---------------------------------------------------------------------------
  // Configuration

  /** The four framing options the server is configured with; each is a PHP value. */
  datatype FramingOptions = FramingOptions(maxLength: Value, lengthType: Value, lengthOffset: Value, bodyOffset: Value)

  /** The configuration keys of the four framing options. */
  const FramingKeys: set<string> := {"package_max_length", "package_length_type", "package_length_offset", "package_body_offset"}

  /** Each option is the configured value when one is set, otherwise the protocol constant. */
  function Framing(config: map<string, Value>): (o: FramingOptions)
    ensures o.maxLength == if Isset(config, "package_max_length") then config["package_max_length"] else Int(MaxLength)
    ensures o.lengthType == if Isset(config, "package_length_type") then config["package_length_type"] else Str([PackType])
    ensures o.lengthOffset == if Isset(config, "package_length_offset") then config["package_length_offset"] else Int(LengthOffset)
    ensures o.bodyOffset == if Isset(config, "package_body_offset") then config["package_body_offset"] else Int(BodyOffset)
  {
    FramingOptions(
      Coalesce(config, "package_max_length", Int(MaxLength)),
      Coalesce(config, "package_length_type", Str([PackType])),
      Coalesce(config, "package_length_offset", Int(LengthOffset)),
      Coalesce(config, "package_body_offset", Int(BodyOffset)))
  }

  /** With none of the options configured, the server frames exactly as the protocol constants describe. */
  lemma DefaultFraming(config: map<string, Value>)
    requires forall k :: k in config ==> k !in FramingKeys
    ensures Framing(config) == FramingOptions(Int(2097152), Str("N"), Int(4), Int(8))
  {
  }

  /** The event kinds the server's event manager accepts, each with its event class. */
  const SupportEvents: map<string, string> := map[
    "handler" := "Event\\Handler",
    "unpack" := "Event\\Unpack",
    "pack" := "Event\\Pack",
    "connect" := "Event\\Connect",
    "close" := "Event\\Close",
    "error" := "Event\\Error"]

  /** The allow-list holds exactly the six kinds the request pipeline dispatches. */
  lemma SupportEventsExactly()
    ensures SupportEvents.Keys == {"handler", "unpack", "pack", "connect", "close", "error"}
    ensures |SupportEvents| == 6
  {
  }
}
