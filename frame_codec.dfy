/**
 * The wire format of a connection: command frames and binary frames.
 *
 * A command frame is the big-endian 16-bit magic 0xEEAF, one unsigned
 * command byte and a 4-byte big-endian float32 throttle.
 * A binary frame is the big-endian magic 0xEEAE followed by the payload as is.
 * The throttle is kept as the four bytes of its big-endian float32 encoding;
 * the conversion between those bytes and a float is not modelled.
 */
module FrameCodec {
  import opened Wrappers

  newtype Byte = b: int | 0 <= b < 0x100

  type Bytes = seq<Byte>

  /** The four big-endian bytes of a float32 throttle value. */
  type Throttle = t: Bytes | |t| == 4 witness [0, 0, 0, 0]

  const CommandMagic: int := 0xEEAF
  const BinaryMagic: int := 0xEEAE

  /** Magic, command and throttle at standard sizes, without padding. */
  const CommandFrameSize: nat := 7

  /** The errors Python's struct module raises while packing or unpacking. */
  datatype StructError =
    | ByteOutOfRange(value: int)                     // an unsigned byte field given a value outside 0..255
    | BufferSizeMismatch(expected: nat, actual: nat)  // unpack given a buffer of the wrong size

  /** What `_handle_data` makes of an incoming frame. */
  datatype Payload =
    | Command(command: Byte, throttle: Throttle)
    | Binary(data: Bytes)
    | Unrecognized(header: int)

  /** A 16-bit unsigned value, most significant byte first. */
  function U16BE(v: int): (r: Bytes)
    requires 0 <= v < 0x10000
    ensures |r| == 2 && ReadU16BE(r) == v
  {
    [(v / 0x100) as Byte, (v % 0x100) as Byte]
  }

  /** The 16-bit unsigned value that two big-endian bytes encode. */
  function ReadU16BE(s: Bytes): (v: int)
    requires |s| == 2
    ensures 0 <= v < 0x10000
  {
    s[0] as int * 0x100 + s[1] as int
  }

  /** Two bytes are determined by the 16-bit value they encode. */
  lemma ReadU16BEInjective(s: Bytes, v: int)
    requires |s| == 2 && 0 <= v < 0x10000
    ensures ReadU16BE(s) == v <==> s == U16BE(v)
  {
    if ReadU16BE(s) == v {
      assert s[0] as int == v / 0x100 && s[1] as int == v % 0x100;
    }
  }

  /** The frame `send_command` builds; a command that is not a byte cannot be packed. */
  function PackCommand(command: int, throttle: Throttle): (r: Result<Bytes, StructError>)
    ensures r.Success? <==> 0 <= command < 0x100
    ensures r.Failure? ==> r.error == ByteOutOfRange(command)
    ensures r.Success? ==>
      && |r.value| == CommandFrameSize
      && ReadU16BE(r.value[..2]) == CommandMagic
      && r.value[2] as int == command
      && r.value[3..] == throttle
  {
    if 0 <= command < 0x100 then
      Success(U16BE(CommandMagic) + [command as Byte] + throttle)
    else
      Failure(ByteOutOfRange(command))
  }

  /** The frame `send_binary_payload` builds. */
  function PackBinary(payload: Bytes): (r: Bytes)
    ensures |r| == 2 + |payload|
    ensures ReadU16BE(r[..2]) == BinaryMagic
    ensures r[2..] == payload
  {
    U16BE(BinaryMagic) + payload
  }

  /**
   * The classification `_handle_data` performs: the first two bytes are
   * unpacked as a big-endian header; a command frame is then unpacked whole
   * (it must be exactly 7 bytes), a binary frame's payload is everything after
   * the header, and any other header is passed over.
   */
  function Decode(frame: Bytes): (r: Result<Payload, StructError>)
    // an unpack error names the buffer size it needed and the size it got
    ensures r.Failure? ==> r.error.BufferSizeMismatch? && r.error.actual == |frame| != r.error.expected
    // a decoded command or binary payload accounts for the whole frame
    ensures r.Success? && r.value.Command? ==> |frame| == CommandFrameSize
    ensures r.Success? && r.value.Binary? ==> |frame| == 2 + |r.value.data|
  {
    if |frame| < 2 then
      Failure(BufferSizeMismatch(2, |frame|))
    else
      var header := ReadU16BE(frame[..2]);
      if header == CommandMagic then
        if |frame| != CommandFrameSize then
          Failure(BufferSizeMismatch(CommandFrameSize, |frame|))
        else
          Success(Command(frame[2], frame[3..7]))
      else if header == BinaryMagic then
        Success(Binary(frame[2..]))
      else
        Success(Unrecognized(header))
  }

  /** Decoding an encoded command frame gives back the same command and throttle bytes. */
  lemma CommandRoundTrip(command: Byte, throttle: Throttle)
    ensures PackCommand(command as int, throttle).Success?
    ensures Decode(PackCommand(command as int, throttle).value) == Success(Command(command, throttle))
  {
    var frame := PackCommand(command as int, throttle).value;
    assert frame[..2] == U16BE(CommandMagic);
    assert frame[3..7] == frame[3..];
  }

  /** Decoding an encoded binary frame gives back exactly its payload, the empty one included. */
  lemma BinaryRoundTrip(payload: Bytes)
    ensures Decode(PackBinary(payload)) == Success(Binary(payload))
  {
    var frame := PackBinary(payload);
    assert frame[..2] == U16BE(BinaryMagic);
  }

  /**
   * Decoding fails exactly for a frame too short to hold a header and for a
   * command-magic frame that is not 7 bytes long; every other frame decodes.
   */
  lemma DecodeFailsExactly(frame: Bytes)
    ensures Decode(frame).Failure? <==>
      (|frame| < 2 || (frame[0] == 0xEE && frame[1] == 0xAF && |frame| != CommandFrameSize))
  {
    if |frame| >= 2 {
      ReadU16BEInjective(frame[..2], CommandMagic);
    }
  }

  /** A header other than the two magics yields neither a command nor a binary payload. */
  lemma UnknownHeaderIsPassedOver(frame: Bytes)
    requires |frame| >= 2
    requires frame[..2] != U16BE(CommandMagic) && frame[..2] != U16BE(BinaryMagic)
    ensures Decode(frame).Success? && Decode(frame).value.Unrecognized?
  {
    ReadU16BEInjective(frame[..2], CommandMagic);
    ReadU16BEInjective(frame[..2], BinaryMagic);
  }

  /**
   * The converse of the round trips: the only frames that decode to a command
   * or a binary payload are the ones the encoders produce for it.
   */
  lemma DecodeIsCanonical(frame: Bytes)
    ensures Decode(frame).Success? && Decode(frame).value.Command? ==>
      PackCommand(Decode(frame).value.command as int, Decode(frame).value.throttle) == Success(frame)
    ensures Decode(frame).Success? && Decode(frame).value.Binary? ==>
      PackBinary(Decode(frame).value.data) == frame
  {
    if |frame| >= 2 {
      var header := ReadU16BE(frame[..2]);
      ReadU16BEInjective(frame[..2], header);
      if header == CommandMagic && |frame| == CommandFrameSize {
        assert frame == frame[..2] + [frame[2]] + frame[3..7];
      } else if header == BinaryMagic {
        assert frame == frame[..2] + frame[2..];
      }
    }
  }
}
