/**
  The framing contract of the server (ProtocolInterface): an 8-byte header whose
  bytes 4..8 hold the total frame length as an unsigned 32-bit big-endian integer
  (PHP `pack` format 'N'), a body starting right after the header, and a maximum
  package length. A packet built from a body and an action exposes both again.
 */
module Protocol {
  import opened Php

  const PackType: char := 'N'
  const HeaderLength: nat := 8
  const MaxLength: nat := 2097152
  const LengthOffset: nat := 4
  const BodyOffset: nat := 8

  /** Width in bytes of a field packed with format 'N'. */
  const PackTypeWidth: nat := 4

  const TwoTo32: nat := 0x1_0000_0000

  /** The frame layout the constants describe: the length field ends where the header ends and the body begins. */
  lemma HeaderLayout()
    ensures LengthOffset + PackTypeWidth == HeaderLength == BodyOffset
    ensures MaxLength == 0x20_0000 && MaxLength < TwoTo32
  {
  }

  /** `pack('N', n)`: the low 32 bits of `n`, most significant byte first. */
  function EncodeN(n: int): (b: Bytes)
    ensures |b| == PackTypeWidth
  {
    var m0 := n % TwoTo32;
    var m1 := m0 / 0x100;
    var m2 := m1 / 0x100;
    [(m2 / 0x100) as byte, (m2 % 0x100) as byte, (m1 % 0x100) as byte, (m0 % 0x100) as byte]
  }

  /** `unpack('N', b)`. */
  function DecodeN(b: Bytes): (n: nat)
    requires |b| == PackTypeWidth
    ensures n < TwoTo32
  {
    ((b[0] as int * 0x100 + b[1] as int) * 0x100 + b[2] as int) * 0x100 + b[3] as int
  }

  /** Decoding an 'N' field gives back the packed value, reduced to 32 bits. */
  lemma DecodeEncodeN(n: int)
    ensures DecodeN(EncodeN(n)) == n % TwoTo32
  {
    var m0 := n % TwoTo32;
    var m1 := m0 / 0x100;
    var m2 := m1 / 0x100;
    assert m0 == m1 * 0x100 + m0 % 0x100;
    assert m1 == m2 * 0x100 + m1 % 0x100;
    assert m2 == (m2 / 0x100) * 0x100 + m2 % 0x100;
    assert m2 / 0x100 < 0x100;
  }

  /** Every length up to the maximum package length survives the length field unchanged. */
  lemma LengthFieldRoundTrip(n: nat)
    requires n <= MaxLength
    ensures DecodeN(EncodeN(n)) == n
  {
    DecodeEncodeN(n);
  }

  /** The header of a frame whose total length is `total`: four reserved bytes, then the length. */
  function Header(total: nat): (h: Bytes)
    ensures |h| == HeaderLength
  {
    [0, 0, 0, 0] + EncodeN(total)
  }

  /** The total length a frame declares in its header. */
  function DeclaredLength(frame: Bytes): nat
    requires |frame| >= HeaderLength
  {
    DecodeN(frame[LengthOffset..LengthOffset + PackTypeWidth])
  }

  /** A frame of at most `MaxLength` bytes declares its own length, and its body starts at `BodyOffset`. */
  lemma FrameLayout(body: Bytes)
    requires HeaderLength + |body| <= MaxLength
    ensures var frame := Header(HeaderLength + |body|) + body;
            DeclaredLength(frame) == |frame| && frame[BodyOffset..] == body
  {
    var frame := Header(HeaderLength + |body|) + body;
    assert frame[LengthOffset..LengthOffset + PackTypeWidth] == EncodeN(HeaderLength + |body|);
    LengthFieldRoundTrip(HeaderLength + |body|);
  }

  /** A decoded packet (ProtocolInterface): constructed from a body and an action code. */
  datatype Packet = Packet(body: Bytes, action: int)
  {
    function GetMessage(): Bytes
    {
      body
    }

    function GetAction(): int
    {
      action
    }
  }

  /** A packet exposes exactly the body and the action it was built from. */
  lemma PacketAccessors(body: Bytes, action: int)
    ensures Packet(body, action).GetMessage() == body
    ensures Packet(body, action).GetAction() == action
  {
  }

  /**
    A protobuf message object of class `cls`. `data` is the string last given to
    `mergeFromString`, or None when the object was created and never filled. The
    codec itself is a foreign library and the message is otherwise opaque.
   */
  datatype ProtoMessage = ProtoMessage(cls: string, data: Option<Bytes>)
}
