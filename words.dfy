/** Fixed-width words and byte strings shared by the register, the keystream
    generator and the container format. */
module Words {

  /** One byte of a buffer (Python's `bytes` element). */
  type byte = bv8

  /** 2^n, the bound on an n-bit unsigned accumulator. */
  function Pow2(n: nat): (p: nat)
    ensures p >= 1
  {
    if n == 0 then 1 else 2 * Pow2(n - 1)
  }

  /** The 32-bit word stored little-endian in bytes 4*i .. 4*i+3 of `key`
      (one of the three words of `struct.unpack('<III', key)`): the word's
      bytes, from the least significant one up, are key[4*i] .. key[4*i+3]. */
  function LeWord(key: seq<byte>, i: nat): (w: bv32)
    requires 4 * i + 4 <= |key|
    ensures (w & 0xFF) as byte == key[4 * i]
    ensures ((w >> 8) & 0xFF) as byte == key[4 * i + 1]
    ensures ((w >> 16) & 0xFF) as byte == key[4 * i + 2]
    ensures (w >> 24) as byte == key[4 * i + 3]
    ensures w == 0 <==> key[4 * i .. 4 * i + 4] == [0, 0, 0, 0]
  {
    var b0, b1, b2, b3 := key[4 * i] as bv32, key[4 * i + 1] as bv32, key[4 * i + 2] as bv32, key[4 * i + 3] as bv32;
    b0 | (b1 << 8) | (b2 << 16) | (b3 << 24)
  }

  /** The unsigned integer whose binary digits, most significant first, are `bits`
      (the accumulator of `v <<= 1; v |= bit`). */
  function Pack(bits: seq<bool>): (v: nat)
    ensures v < Pow2(|bits|)
  {
    if bits == [] then 0
    else 2 * Pack(bits[..|bits| - 1]) + (if bits[|bits| - 1] then 1 else 0)
  }

  /** Byte-wise exclusive or of two buffers of equal length. */
  function XorBytes(x: seq<byte>, k: seq<byte>): (r: seq<byte>)
    requires |x| == |k|
    ensures |r| == |x|
    ensures forall i :: 0 <= i < |x| ==> r[i] == x[i] ^ k[i]
  {
    seq(|x|, i requires 0 <= i < |x| => x[i] ^ k[i])
  }

  /** Applying the same keystream twice gives the input back. */
  lemma XorTwice(x: seq<byte>, k: seq<byte>)
    requires |x| == |k|
    ensures XorBytes(XorBytes(x, k), k) == x
  {
    var y := XorBytes(XorBytes(x, k), k);
    forall i | 0 <= i < |x| ensures y[i] == x[i] {
      assert y[i] == (x[i] ^ k[i]) ^ k[i];
    }
  }

  /** Extending both buffers by one byte extends their exclusive or by one byte. */
  lemma XorSnoc(x: seq<byte>, k: seq<byte>, a: byte, b: byte)
    requires |x| == |k|
    ensures XorBytes(x + [a], k + [b]) == XorBytes(x, k) + [a ^ b]
  {
    XorAppend(x, k, [a], [b]);
    assert XorBytes([a], [b]) == [a ^ b];
  }

  /** The exclusive or of two concatenations is the concatenation of the parts. */
  lemma XorAppend(x: seq<byte>, k: seq<byte>, y: seq<byte>, m: seq<byte>)
    requires |x| == |k| && |y| == |m|
    ensures XorBytes(x + y, k + m) == XorBytes(x, k) + XorBytes(y, m)
  {
    var l, r := XorBytes(x + y, k + m), XorBytes(x, k) + XorBytes(y, m);
    assert |l| == |r|;
    forall i | 0 <= i < |l| ensures l[i] == r[i] {
      if i < |x| {
        assert (x + y)[i] == x[i] && (k + m)[i] == k[i];
      } else {
        assert (x + y)[i] == y[i - |x|] && (k + m)[i] == m[i - |x|];
      }
    }
  }
}
