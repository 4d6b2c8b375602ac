/** `DiscordPacket`: the opcode enumeration and the binary frame
    `opcode (LE int32) | payload length (LE int32) | payload bytes`. */
module DiscordPacket {
  import opened JavaInt
  import opened Wrappers
  import opened Nio
  import opened Json

  /** The opcodes in declaration order; the ordinal is the value on the wire,
      so the order must not change. */
  datatype OpCode = HANDSHAKE | MESSAGE | CLOSE

  /** `OpCode.ordinal()` */
  function Ordinal(op: OpCode): (n: int32)
    ensures 0 <= n < 3
  {
    match op
    case HANDSHAKE => 0
    case MESSAGE => 1
    case CLOSE => 2
  }

  /** `OpCode.values()[n]`; `None` where Java throws
      `ArrayIndexOutOfBoundsException`. */
  function FromOrdinal(n: int): (r: Option<OpCode>)
    ensures r.Some? <==> 0 <= n < 3
    ensures r.Some? ==> Ordinal(r.value) == n
  {
    if n == 0 then Some(HANDSHAKE)
    else if n == 1 then Some(MESSAGE)
    else if n == 2 then Some(CLOSE)
    else None
  }

  /** `values()` inverts `ordinal()`. */
  lemma FromOrdinalOfOrdinal(op: OpCode)
    ensures FromOrdinal(Ordinal(op)) == Some(op)
  {
  }

  /** The longest payload whose frame size `jsonSize + 2 * Integer.BYTES`
      still fits a Java `int`. */
  const MAX_PAYLOAD: nat := 0x7FFF_FFFF - 2 * INTEGER_BYTES

  /** The UTF-8 bytes of a serialised JSON object. */
  type JsonText = s: seq<byte> | |s| <= MAX_PAYLOAD

  /** A packet: an opcode and a JSON object; `json` is `None` where Gson
      produced `null` for an incoming payload. */
  datatype Packet = Packet(opCode: OpCode, json: Option<Members>)

  /** The frame of opcode `op` with payload `text`. */
  function Frame(op: OpCode, text: JsonText): (r: seq<byte>)
  {
    LittleEndian(Ordinal(op)) + LittleEndian(|text|) + text
  }

  /** `DiscordPacket.toBytes()`: serialises the object, allocates a buffer of
      exactly `jsonSize + 8` bytes and fills it with `putInt(reverseBytes(
      ordinal))`, `putInt(reverseBytes(jsonSize))` and `put(jsonBytes)`.
      `serialize` stands for `json.toString().getBytes(UTF_8)`. */
  method ToBytes(p: Packet, serialize: Members -> JsonText) returns (bytes: array<byte>)
    requires p.json.Some?
    ensures bytes[..] == Frame(p.opCode, serialize(p.json.value))
  {
    var jsonBytes := serialize(p.json.value);
    var jsonSize: int32 := |jsonBytes|;
    var buffer := new ByteBuffer.Allocate(jsonSize + 2 * INTEGER_BYTES);
    buffer.PutInt(ReverseBytes(Ordinal(p.opCode)));
    buffer.PutInt(ReverseBytes(jsonSize));
    buffer.Put(jsonBytes);
    PutReversedIsLittleEndian(Ordinal(p.opCode));
    PutReversedIsLittleEndian(jsonSize);
    bytes := buffer.hb;
  }

  lemma LittleEndianValue(x: int32)
    requires 0 <= x
    ensures var b := LittleEndian(x);
      b[0] as int + b[1] as int * 0x100 + b[2] as int * 0x1_0000 + b[3] as int * 0x100_0000 == x
  {
    var u: int := x;
    assert u == (u / 0x100) * 0x100 + u % 0x100;
    assert u / 0x100 == ((u / 0x100) / 0x100) * 0x100 + (u / 0x100) % 0x100;
    assert (u / 0x100) / 0x100 == u / 0x1_0000;
    assert u / 0x1_0000 == ((u / 0x1_0000) / 0x100) * 0x100 + (u / 0x1_0000) % 0x100;
    assert (u / 0x1_0000) / 0x100 == u / 0x100_0000;
  }

  /** The layout of a frame: eight header bytes and then the payload; byte 0
      is the opcode ordinal and bytes 1..3 are zero; bytes 4..7 are the
      payload length, least significant first; bytes 8.. are the payload in
      order. */
  lemma FrameLayout(op: OpCode, text: JsonText)
    ensures var f := Frame(op, text);
      && |f| == |text| + 2 * INTEGER_BYTES
      && f[0] == Ordinal(op) && f[1] == 0 && f[2] == 0 && f[3] == 0
      && f[4] as int + f[5] as int * 0x100 + f[6] as int * 0x1_0000 + f[7] as int * 0x100_0000 == |text|
      && f[8..] == text
  {
    LittleEndianOfSmall(Ordinal(op));
    LittleEndianValue(|text|);
  }

  /** Decoding the header of a frame the way both pipes do,
      `reverseBytes(getInt())` twice, gives back the opcode ordinal and the
      payload length, and the payload follows the header. */
  lemma DecodeFrameHeader(op: OpCode, text: JsonText, rest: seq<byte>)
    ensures var f := Frame(op, text) + rest;
      && |f| >= 2 * INTEGER_BYTES
      && ReverseBytes(GetInt(f[0..4])) == Ordinal(op)
      && ReverseBytes(GetInt(f[4..8])) == |text|
      && f[8..8 + |text|] == text
      && f[8 + |text|..] == rest
  {
    var f := Frame(op, text) + rest;
    assert f[0..4] == LittleEndian(Ordinal(op));
    assert f[4..8] == LittleEndian(|text|);
    ReversedGetIntOfLittleEndian(Ordinal(op));
    ReversedGetIntOfLittleEndian(|text|);
  }
}
