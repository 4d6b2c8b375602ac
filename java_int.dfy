/** Java's 32-bit `int`, the octets of a `byte[]`, `Integer.reverseBytes`, and
    the big-endian layout `ByteBuffer.putInt` / `getInt` give an `int`. */
module JavaInt {

  const TWO_TO_THE_32: int := 0x1_0000_0000

  /** A Java `int`. */
  type int32 = x: int | -0x8000_0000 <= x < 0x8000_0000

  /** A Java `long`. */
  type int64 = x: int | -0x8000_0000_0000_0000 <= x < 0x8000_0000_0000_0000

  /** A Java `byte`, seen as the unsigned octet it carries on the wire. */
  type byte = x: int | 0 <= x < 0x100

  /** `Integer.BYTES` */
  const INTEGER_BYTES: nat := 4

  /** The two's complement bit pattern of `x`, read as an unsigned number. */
  function Unsigned(x: int32): (u: nat)
    ensures u < TWO_TO_THE_32
    ensures (u - x) % TWO_TO_THE_32 == 0
  {
    if x < 0 then x + TWO_TO_THE_32 else x
  }

  /** The `int` whose two's complement bit pattern is `u`. */
  function Signed(u: nat): (x: int32)
    requires u < TWO_TO_THE_32
    ensures Unsigned(x) == u
  {
    if u < 0x8000_0000 then u else u - TWO_TO_THE_32
  }

  /** The four octets of `u`, most significant first. */
  function Octets(u: nat): (b: seq<byte>)
    requires u < TWO_TO_THE_32
    ensures |b| == 4
  {
    [u / 0x100_0000, (u / 0x1_0000) % 0x100, (u / 0x100) % 0x100, u % 0x100]
  }

  /** The number whose octets, most significant first, are `b`. */
  function FromOctets(b: seq<byte>): (u: nat)
    requires |b| == 4
    ensures u < TWO_TO_THE_32
  {
    b[0] as int * 0x100_0000 + b[1] as int * 0x1_0000 + b[2] as int * 0x100 + b[3] as int
  }

  /** Dividing by 256 twice is dividing by 65536. */
  lemma DivDiv(u: nat)
    ensures u / 0x100 / 0x100 == u / 0x1_0000
  {
    var q := u / 0x1_0000;
    var r := u % 0x1_0000;
    assert u == q * 0x1_0000 + r && 0 <= r < 0x1_0000;
    assert u == (q * 0x100 + r / 0x100) * 0x100 + r % 0x100;
    assert u / 0x100 == q * 0x100 + r / 0x100;
  }

  lemma FromOctetsOfOctets(u: nat)
    requires u < TWO_TO_THE_32
    ensures FromOctets(Octets(u)) == u
  {
    var q1 := u / 0x100;
    var q2 := q1 / 0x100;
    var q3 := q2 / 0x100;
    DivDiv(u);
    DivDiv(q1);
    assert q2 == u / 0x1_0000;
    assert q3 == u / 0x1_0000 / 0x100;
    assert u / 0x1_0000 / 0x100 == u / 0x100_0000 by {
      var a := u / 0x100_0000;
      var r := u % 0x100_0000;
      assert u == (a * 0x100 + r / 0x1_0000) * 0x1_0000 + r % 0x1_0000;
    }
    assert u == q1 * 0x100 + u % 0x100;
    assert q1 == q2 * 0x100 + q1 % 0x100;
    assert q2 == q3 * 0x100 + q2 % 0x100;
  }

  lemma OctetsOfFromOctets(b: seq<byte>)
    requires |b| == 4
    ensures Octets(FromOctets(b)) == b
  {
    var u := FromOctets(b);
    var (b0, b1, b2, b3) := (b[0] as int, b[1] as int, b[2] as int, b[3] as int);
    DivModOf(u, b0, b1 * 0x1_0000 + b2 * 0x100 + b3, 0x100_0000);
    DivModOf(u, b0 * 0x100 + b1, b2 * 0x100 + b3, 0x1_0000);
    DivModOf(b0 * 0x100 + b1, b0, b1, 0x100);
    DivModOf(u, b0 * 0x1_0000 + b1 * 0x100 + b2, b3, 0x100);
    DivModOf(b0 * 0x1_0000 + b1 * 0x100 + b2, b0 * 0x100 + b1, b2, 0x100);
    assert Octets(u) == [b[0], b[1], b[2], b[3]];
  }

  /** Euclidean division is unique. */
  lemma DivModOf(u: int, q: int, r: int, d: int)
    requires d > 0 && 0 <= r < d && u == q * d + r
    ensures u / d == q && u % d == r
  {
    var k := u / d - q;
    assert k * d == r - u % d;
    if k >= 1 {
      MulAtLeast(k, d);
    } else if k <= -1 {
      MulAtLeast(-k, d);
    }
  }

  lemma MulAtLeast(k: int, d: int)
    requires k >= 1 && d > 0
    ensures k * d >= d
  {
    assert k * d == (k - 1) * d + d;
  }

  /** The four bytes `ByteBuffer.putInt(x)` writes: big-endian. */
  function PutInt(x: int32): (b: seq<byte>)
    ensures |b| == INTEGER_BYTES
  {
    Octets(Unsigned(x))
  }

  /** The value `ByteBuffer.getInt()` reads from four bytes: big-endian. */
  function GetInt(b: seq<byte>): (x: int32)
    requires |b| == INTEGER_BYTES
  {
    Signed(FromOctets(b))
  }

  /** `Integer.reverseBytes`: the value whose two's complement bytes are those
      of `x` in reverse order. */
  function ReverseBytes(x: int32): (r: int32)
  {
    var b := Octets(Unsigned(x));
    Signed(FromOctets([b[3], b[2], b[1], b[0]]))
  }

  /** The little-endian 32-bit encoding of `x`, least significant octet
      first: the layout of an `int` on the Discord IPC wire. */
  function LittleEndian(x: int32): (b: seq<byte>)
    ensures |b| == 4
  {
    var u := Unsigned(x);
    [u % 0x100, (u / 0x100) % 0x100, (u / 0x1_0000) % 0x100, u / 0x100_0000]
  }

  /** The big-endian `getInt` reads back what `putInt` wrote. */
  lemma GetIntOfPutInt(x: int32)
    ensures GetInt(PutInt(x)) == x
  {
    FromOctetsOfOctets(Unsigned(x));
  }

  /** Writing `Integer.reverseBytes(x)` with the big-endian `putInt` lays
      `x` out little-endian. */
  lemma PutReversedIsLittleEndian(x: int32)
    ensures PutInt(ReverseBytes(x)) == LittleEndian(x)
  {
    var b := Octets(Unsigned(x));
    OctetsOfFromOctets([b[3], b[2], b[1], b[0]]);
  }

  /** Reading four bytes with the big-endian `getInt` and reversing them gives
      the little-endian value of those bytes: `reverseBytes(getInt())` is the
      inverse of `putInt(reverseBytes(x))`. */
  lemma ReversedGetIntOfLittleEndian(x: int32)
    ensures ReverseBytes(GetInt(LittleEndian(x))) == x
  {
    PutReversedIsLittleEndian(x);
    GetIntOfPutInt(ReverseBytes(x));
    ReverseBytesInvolution(x);
  }

  /** `Integer.reverseBytes` undoes itself. */
  lemma ReverseBytesInvolution(x: int32)
    ensures ReverseBytes(ReverseBytes(x)) == x
  {
    var b := Octets(Unsigned(x));
    OctetsOfFromOctets([b[3], b[2], b[1], b[0]]);
    FromOctetsOfOctets(Unsigned(x));
  }

  /** An `int` below 256, such as an opcode ordinal, is one octet followed by
      three zero octets. */
  lemma LittleEndianOfSmall(n: int32)
    requires 0 <= n < 0x100
    ensures LittleEndian(n) == [n, 0, 0, 0]
  {
  }
}
