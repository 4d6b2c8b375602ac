/** The part of `java.nio.ByteBuffer` the codec and the Unix pipe use: a
    fixed backing array with a position and a limit, relative big-endian
    `putInt`/`getInt`, bulk `put`, `flip`, and the transfer a channel's
    `read(dst)` performs into it. */
module Nio {
  import opened JavaInt
  import opened Wrappers

  /** The contents of a freshly allocated Java array or buffer. */
  function Zeros(n: nat): (z: seq<byte>)
    ensures |z| == n && forall i :: 0 <= i < n ==> z[i] == 0
  {
    seq(n, _ => 0)
  }

  class ByteBuffer {
    /** The backing array, returned as is by `array()`. */
    const hb: array<byte>
    var position: nat
    var limit: nat

    ghost predicate Valid()
      reads this
    {
      position <= limit <= hb.Length
    }

    /** `ByteBuffer.allocate(capacity)` */
    constructor Allocate(capacity: nat)
      ensures Valid() && fresh(hb)
      ensures hb[..] == Zeros(capacity) && position == 0 && limit == capacity
    {
      hb := new byte[capacity](_ => 0);
      position := 0;
      limit := capacity;
    }

    /** `put(byte[])`: stores `src` at the position and advances it. */
    method Put(src: seq<byte>)
      requires Valid() && |src| <= limit - position
      modifies this, hb
      ensures Valid() && limit == old(limit) && position == old(position) + |src|
      ensures hb[..] == old(hb[..position]) + src + old(hb[position + |src|..])
    {
      var start := position;
      var i := 0;
      while i < |src|
        invariant 0 <= i <= |src| && position == start && limit == old(limit)
        invariant forall k :: 0 <= k < hb.Length ==>
          hb[k] == if start <= k < start + i then src[k - start] else old(hb[k])
      {
        hb[start + i] := src[i];
        i := i + 1;
      }
      position := start + |src|;
      ghost var expected := old(hb[..start]) + src + old(hb[start + |src|..]);
      assert |expected| == hb.Length;
      assert forall k :: 0 <= k < hb.Length ==> hb[..][k] == expected[k];
    }

    /** `putInt(x)`: stores the four big-endian bytes of `x`. */
    method PutInt(x: int32)
      requires Valid() && INTEGER_BYTES <= limit - position
      modifies this, hb
      ensures Valid() && limit == old(limit) && position == old(position) + INTEGER_BYTES
      ensures hb[..] == old(hb[..position]) + JavaInt.PutInt(x) + old(hb[position + INTEGER_BYTES..])
    {
      Put(JavaInt.PutInt(x));
    }

    /** `flip()`: the limit becomes the position and the position zero. */
    method Flip()
      requires Valid()
      modifies this
      ensures Valid() && limit == old(position) && position == 0
    {
      limit := position;
      position := 0;
    }

    /** `getInt()`: reads four big-endian bytes at the position; with fewer
        than four remaining it throws `BufferUnderflowException` (`None`) and
        moves nothing. */
    method GetInt() returns (r: Option<int32>)
      requires Valid()
      modifies this
      ensures Valid() && limit == old(limit)
      ensures old(limit - position) < INTEGER_BYTES ==> r == None && position == old(position)
      ensures old(limit - position) >= INTEGER_BYTES ==>
        && r == Some(JavaInt.GetInt(hb[old(position)..old(position) + INTEGER_BYTES]))
        && position == old(position) + INTEGER_BYTES
    {
      if limit - position < INTEGER_BYTES {
        return None;
      }
      r := Some(JavaInt.GetInt(hb[position..position + INTEGER_BYTES]));
      position := position + INTEGER_BYTES;
    }

    /** What a channel's `read(dst)` does to this buffer when `available`
        holds the bytes the channel can deliver: it transfers as many as the
        buffer has room for and returns their count. */
    method ReadFrom(available: seq<byte>) returns (n: nat)
      requires Valid()
      modifies this, hb
      ensures n == Min(old(limit - position), |available|)
      ensures Valid() && limit == old(limit) && position == old(position) + n
      ensures hb[..] == old(hb[..position]) + available[..n] + old(hb[position + n..])
    {
      n := Min(limit - position, |available|);
      Put(available[..n]);
    }
  }
}
