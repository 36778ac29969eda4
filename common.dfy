/** Shared vocabulary: bytes, the C integer widths the drivers use, errno values,
    little-endian 32-bit words, and an Option type. */
module Common {

  type byte = bv8

  const U32_LIMIT: int := 0x1_0000_0000

  /** A C `u32` / `unsigned int`. */
  type u32 = x: int | 0 <= x < 0x1_0000_0000

  /** A C `u16` / `__u16`. */
  type u16 = x: int | 0 <= x < 0x1_0000

  datatype Option<T> = None | Some(value: T)

  // Linux errno values, returned negated.
  const EFAULT: int := -14
  const ENODEV: int := -19
  const EINVAL: int := -22
  const ENOSPC: int := -28

  /** Conversion of any C integer to `unsigned int`: keeps the low 32 bits. */
  function ToU32(v: int): (r: u32)
    ensures (v - r) % U32_LIMIT == 0
    ensures 0 <= v < U32_LIMIT ==> r == v
  {
    v % U32_LIMIT
  }

  /** Conversion of a wider C integer to a 32-bit `int`: keeps the low 32 bits, two's complement. */
  function ToInt32(v: int): (r: int)
    ensures -0x8000_0000 <= r < 0x8000_0000
    ensures (v - r) % U32_LIMIT == 0
    ensures -0x8000_0000 <= v < 0x8000_0000 ==> r == v
  {
    var low := v % U32_LIMIT;
    if low < 0x8000_0000 then low else low - U32_LIMIT
  }

  /** An `int` stored into a `u32` keeps the low 32 bits of the value it was truncated from. */
  lemma ToU32OfToInt32(v: int)
    ensures ToU32(ToInt32(v)) == ToU32(v)
  {
  }

  /** Two values compare equal as 32-bit `int`s exactly when their low 32 bits agree. */
  lemma ToInt32Agrees(v: int, w: u32)
    ensures ToInt32(v) == ToInt32(w) <==> ToU32(v) == w
  {
  }

  /** The 32-bit word whose little-endian byte image is b0 b1 b2 b3 (b0 lowest). */
  function WordOf(b0: byte, b1: byte, b2: byte, b3: byte): bv32
  {
    (b0 as bv32) | ((b1 as bv32) << 8) | ((b2 as bv32) << 16) | ((b3 as bv32) << 24)
  }

  /** Byte k (0 = lowest order, first in memory) of a little-endian word. */
  function ByteOf(w: bv32, k: nat): byte
    requires k < 4
  {
    if k == 0 then (w & 0xFF) as bv8
    else if k == 1 then ((w >> 8) & 0xFF) as bv8
    else if k == 2 then ((w >> 16) & 0xFF) as bv8
    else ((w >> 24) & 0xFF) as bv8
  }

  /** Storing a word and reading its bytes back gives the bytes it was built from. */
  lemma ByteOfWordOf(b0: byte, b1: byte, b2: byte, b3: byte)
    ensures ByteOf(WordOf(b0, b1, b2, b3), 0) == b0
    ensures ByteOf(WordOf(b0, b1, b2, b3), 1) == b1
    ensures ByteOf(WordOf(b0, b1, b2, b3), 2) == b2
    ensures ByteOf(WordOf(b0, b1, b2, b3), 3) == b3
  {
  }

  /** Splitting a word into bytes and reassembling it gives the word back. */
  lemma WordOfByteOf(w: bv32)
    ensures WordOf(ByteOf(w, 0), ByteOf(w, 1), ByteOf(w, 2), ByteOf(w, 3)) == w
  {
  }

  /** The little-endian 32-bit word stored at s[off..off+4]. */
  function LeWord(s: seq<byte>, off: nat): bv32
    requires off + 4 <= |s|
  {
    WordOf(s[off], s[off + 1], s[off + 2], s[off + 3])
  }

  /** The same word read as an unsigned C integer. */
  function LeU32(s: seq<byte>, off: nat): u32
    requires off + 4 <= |s|
  {
    LeWord(s, off) as int
  }

  /** The four little-endian bytes of a word. */
  function LeBytes(w: bv32): (r: seq<byte>)
    ensures |r| == 4 && LeWord(r, 0) == w
  {
    WordOfByteOf(w);
    [ByteOf(w, 0), ByteOf(w, 1), ByteOf(w, 2), ByteOf(w, 3)]
  }

  /** memcpy(dst, src, n) on values: the first n bytes of dst replaced by those of src. */
  function CopyPrefix<T>(dst: seq<T>, src: seq<T>, n: nat): (r: seq<T>)
    requires n <= |dst| && n <= |src|
    ensures |r| == |dst|
    ensures forall i :: 0 <= i < |r| ==> r[i] == if i < n then src[i] else dst[i]
  {
    src[..n] + dst[n..]
  }
}
