/** The three-register keystream generator `Crypter` of crypt.py. */
module Keystream {
  import opened Words
  import opened Lfsr

  /** Default seeds, feedback masks and refill constants of registers A, B, C. */
  const SEED_A: bv32 := 0x1357_9bdf
  const SEED_B: bv32 := 0x2468_ace0
  const SEED_C: bv32 := 0xFDB9_7531
  const MASK_A: bv32 := 0x8000_0062
  const MASK_B: bv32 := 0x4000_0020
  const MASK_C: bv32 := 0x1000_0002
  const ROT_A: bv32 := 0x7FFF_FFFF
  const ROT_B: bv32 := 0x3FFF_FFFF
  const ROT_C: bv32 := 0x0FFF_FFFF

  /** The state of a generator: its three registers. */
  datatype Gen = Gen(a: Reg, b: Reg, c: Reg)

  /** `word or default`: a zero key word is replaced by the register's default seed. */
  function SeedOr(w: bv32, default: bv32): (s: bv32)
    requires default != 0
    ensures s != 0
    ensures w != 0 ==> s == w
    ensures w == 0 ==> s == default
  {
    if w == 0 then default else w
  }

  /** The generator built from a 12-byte key: the key's three little-endian
      words seed A, B and C, each zero word replaced by that register's
      default, so every register starts nonzero. */
  function Seed(key: seq<byte>): (g: Gen)
    requires |key| == 12
    ensures g.a == Reg(SeedOr(LeWord(key, 0), SEED_A), MASK_A, ROT_A)
    ensures g.b == Reg(SeedOr(LeWord(key, 1), SEED_B), MASK_B, ROT_B)
    ensures g.c == Reg(SeedOr(LeWord(key, 2), SEED_C), MASK_C, ROT_C)
    ensures g.a.value != 0 && g.b.value != 0 && g.c.value != 0
  {
    Gen(Reg(SeedOr(LeWord(key, 0), SEED_A), MASK_A, ROT_A),
        Reg(SeedOr(LeWord(key, 1), SEED_B), MASK_B, ROT_B),
        Reg(SeedOr(LeWord(key, 2), SEED_C), MASK_C, ROT_C))
  }

  /** An all-zero key (the container's key-encryption-key among them) seeds
      every register with its default. */
  lemma ZeroKeySeedsDefaults(key: seq<byte>)
    requires key == [0, 0, 0, 0, 0, 0, 0, 0, 0, 0, 0, 0]
    ensures Seed(key) == Gen(Reg(SEED_A, MASK_A, ROT_A), Reg(SEED_B, MASK_B, ROT_B), Reg(SEED_C, MASK_C, ROT_C))
  {
    assert key[0..4] == [0, 0, 0, 0] && key[4..8] == [0, 0, 0, 0] && key[8..12] == [0, 0, 0, 0];
  }

  /** The loop state of `next(n)`: the generator together with the locals b
      and c, the sampled outputs of B and C. */
  datatype Round = Round(gen: Gen, b: bool, c: bool)

  /** Entering `next(n)`: b and c are sampled with `peek()`. */
  function Start(g: Gen): Round {
    Round(g, g.b.Peek(), g.c.Peek())
  }

  /** One iteration of the loop of `next(n)`: A is clocked; if it returned
      true, B is clocked and b becomes the flag B's clock returned, otherwise
      the same for C and c. The register not clocked keeps its state and its
      sampled bit. */
  function Step(s: Round): (t: Round)
    ensures t.gen.a == s.gen.a.Next().0
    ensures s.gen.a.Peek() ==> t.gen.b == s.gen.b.Next().0 && t.gen.c == s.gen.c
                               && t.b == s.gen.b.Peek() && t.c == s.c
    ensures !s.gen.a.Peek() ==> t.gen.c == s.gen.c.Next().0 && t.gen.b == s.gen.b
                                && t.c == s.gen.c.Peek() && t.b == s.b
  {
    var clockA := s.gen.a.Next();
    if clockA.1 then
      var clockB := s.gen.b.Next();
      Round(Gen(clockA.0, clockB.0, s.gen.c), clockB.1, s.c)
    else
      var clockC := s.gen.c.Next();
      Round(Gen(clockA.0, s.gen.b, clockC.0), s.b, clockC.1)
  }

  /** The keystream bit of an iteration: `b ^ c`. */
  predicate Output(s: Round) {
    s.b != s.c
  }

  /** The loop state after `i` iterations. */
  function Steps(s: Round, i: nat): Round {
    if i == 0 then s else Step(Steps(s, i - 1))
  }

  /** The bits produced by the first `i` iterations, in order. */
  function Bits(s: Round, i: nat): (bits: seq<bool>)
    ensures |bits| == i
  {
    if i == 0 then [] else Bits(s, i - 1) + [Output(Steps(s, i))]
  }

  /** The state of the generator after `next(n)`. */
  function Advance(g: Gen, n: nat): Gen {
    Steps(Start(g), n).gen
  }

  /** The value `next(n)` returns: its n bits packed most significant first. */
  function Value(g: Gen, n: nat): (v: nat)
    ensures v < Pow2(n)
  {
    Pack(Bits(Start(g), n))
  }

  /** In i iterations A is clocked i times. */
  lemma {:induction false} StepsClockA(s: Round, i: nat)
    ensures Steps(s, i).gen.a == Run(s.gen.a, i)
  {
    if i > 0 {
      StepsClockA(s, i - 1);
    }
  }

  /** In i iterations B is clocked once for every clock of A that returned
      true. */
  lemma {:induction false} StepsClockB(s: Round, i: nat)
    ensures Steps(s, i).gen.b == Run(s.gen.b, Taken(s.gen.a, i))
  {
    if i > 0 {
      StepsClockA(s, i - 1);
      StepsClockB(s, i - 1);
      var p, t := Steps(s, i - 1), Taken(s.gen.a, i - 1);
      if p.gen.a.Peek() {
        assert Taken(s.gen.a, i) == t + 1;
        assert Run(s.gen.b, t + 1) == Run(s.gen.b, t).Next().0;
      } else {
        assert Taken(s.gen.a, i) == t;
      }
    }
  }

  /** In i iterations C is clocked once for every clock of A that returned
      false. */
  lemma {:induction false} StepsClockC(s: Round, i: nat)
    ensures Steps(s, i).gen.c == Run(s.gen.c, Passed(s.gen.a, i))
  {
    if i > 0 {
      StepsClockA(s, i - 1);
      StepsClockC(s, i - 1);
      var p, t := Steps(s, i - 1), Passed(s.gen.a, i - 1);
      if p.gen.a.Peek() {
        assert Passed(s.gen.a, i) == t;
      } else {
        assert Passed(s.gen.a, i) == t + 1;
        assert Run(s.gen.c, t + 1) == Run(s.gen.c, t).Next().0;
      }
    }
  }

  /** `next(n)` clocks A n times, B as often as A returned true and C as
      often as A returned false, so B and C together n times. */
  lemma NextClocks(g: Gen, n: nat)
    ensures Advance(g, n) == Gen(Run(g.a, n), Run(g.b, Taken(g.a, n)), Run(g.c, Passed(g.a, n)))
    ensures Taken(g.a, n) + Passed(g.a, n) == n
  {
    var s := Start(g);
    assert s.gen == g;
    StepsClockA(s, n);
    StepsClockB(s, n);
    StepsClockC(s, n);
    TakenPassed(g.a, n);
  }

  /** The 8 bits `crypt_block` asks `next` for. */
  const BYTE_BITS: nat := 8

  /** One keystream byte: `next(8)`. */
  function KeyByte(g: Gen): byte {
    assert Pow2(BYTE_BITS) == 256;
    Value(g, BYTE_BITS) as byte
  }

  /** The generator after `k` calls of `crypt_block`. */
  function After(g: Gen, k: nat): Gen {
    if k == 0 then g else Advance(After(g, k - 1), 8)
  }

  /** The first `n` keystream bytes: byte k is `next(8)` on the generator as
      the first k calls of `crypt_block` left it, whatever `n` is. */
  function Stream(g: Gen, n: nat): (ks: seq<byte>)
    ensures |ks| == n
  {
    seq(n, k requires 0 <= k => KeyByte(After(g, k)))
  }

  /** Running m bytes and then n more is running m + n bytes. */
  lemma {:induction false} AfterAdd(g: Gen, m: nat, n: nat)
    ensures After(After(g, m), n) == After(g, m + n)
  {
    if n > 0 {
      AfterAdd(g, m, n - 1);
    }
  }

  /** The keystream for m + n bytes is the first m bytes followed by the
      keystream of the generator those m bytes left behind: consecutive
      `crypt` calls on one object continue a single keystream. */
  lemma StreamAdd(g: Gen, m: nat, n: nat)
    ensures Stream(g, m + n) == Stream(g, m) + Stream(After(g, m), n)
  {
    var l, r := Stream(g, m + n), Stream(g, m) + Stream(After(g, m), n);
    forall k | 0 <= k < m + n ensures l[k] == r[k] {
      if k >= m {
        AfterAdd(g, m, k - m);
      }
    }
  }

  /** One more keystream byte. */
  lemma StreamSnoc(g: Gen, n: nat)
    ensures Stream(g, n + 1) == Stream(g, n) + [KeyByte(After(g, n))]
  {
    var l, r := Stream(g, n + 1), Stream(g, n) + [KeyByte(After(g, n))];
    forall k | 0 <= k < n + 1 ensures l[k] == r[k] {
      if k < n {
        assert r[k] == Stream(g, n)[k];
      }
    }
    assert l == r;
  }

  /** A longer keystream extends a shorter one. */
  lemma StreamPrefix(g: Gen, m: nat, n: nat)
    requires m <= n
    ensures Stream(g, n)[..m] == Stream(g, m)
  {
  }

  /** `Crypter(key).crypt(data)` on a fresh generator: each byte XORed with the
      keystream byte of its position. */
  function Crypt(key: seq<byte>, data: seq<byte>): (r: seq<byte>)
    requires |key| == 12
    ensures |r| == |data|
  {
    XorBytes(data, Stream(Seed(key), |data|))
  }

  /** Output byte i of `crypt` is input byte i XORed with keystream byte i,
      and keystream byte i depends only on the key and i, never on the data. */
  lemma CryptAt(key: seq<byte>, data: seq<byte>, i: nat)
    requires |key| == 12 && i < |data|
    ensures Crypt(key, data)[i] == data[i] ^ KeyByte(After(Seed(key), i))
  {
  }

  /** For fresh generators on the same key, `crypt` undoes itself. */
  lemma CryptInvolution(key: seq<byte>, data: seq<byte>)
    requires |key| == 12
    ensures Crypt(key, Crypt(key, data)) == data
  {
    XorTwice(data, Stream(Seed(key), |data|));
  }

  /** Crypting x ++ y on a fresh generator is crypting x and then crypting y
      with the generator x left behind: state is shared and never reset. */
  lemma CryptConcat(key: seq<byte>, x: seq<byte>, y: seq<byte>)
    requires |key| == 12
    ensures Crypt(key, x + y) == Crypt(key, x) + XorBytes(y, Stream(After(Seed(key), |x|), |y|))
  {
    XorStreamConcat(Seed(key), x, y);
  }

  /** XORing a concatenation with the stream of `g` XORs the first part with
      the stream's prefix and the second with the stream from there on. */
  lemma XorStreamConcat(g: Gen, x: seq<byte>, y: seq<byte>)
    ensures XorBytes(x + y, Stream(g, |x + y|))
         == XorBytes(x, Stream(g, |x|)) + XorBytes(y, Stream(After(g, |x|), |y|))
  {
    StreamAdd(g, |x|, |y|);
    XorAppend(x, Stream(g, |x|), y, Stream(After(g, |x|), |y|));
  }

  /** One more byte of `crypt`: the buffer so far, extended by the next byte
      XORed with the next keystream byte, is the crypt of one more input byte;
      and one more `crypt_block` leaves the generator one byte further on. */
  lemma CryptStep(g: Gen, data: seq<byte>, i: nat, out: seq<byte>)
    requires i < |data|
    requires out == XorBytes(data[..i], Stream(g, i))
    ensures out + [data[i] ^ KeyByte(After(g, i))] == XorBytes(data[..i + 1], Stream(g, i + 1))
    ensures After(After(g, i), 1) == After(g, i + 1)
  {
    var k := KeyByte(After(g, i));
    StreamSnoc(g, i);
    XorSnoc(data[..i], Stream(g, i), data[i], k);
    assert data[..i + 1] == data[..i] + [data[i]];
  }

  /** The generator object: three register objects, clocked in place. */
  class Crypter {
    const a: LFSR
    const b: LFSR
    const c: LFSR

    /** The three registers are distinct objects. */
    ghost predicate Valid()
      reads this
    {
      a != b && b != c && a != c
    }

    /** The generator's state as a value. */
    function State(): Gen
      reads this, a, b, c
    {
      Gen(a.State(), b.State(), c.State())
    }

    /** `Crypter(key)`: key must be 12 bytes (three `u32` words). */
    constructor (key: seq<byte>)
      requires |key| == 12
      ensures Valid() && fresh(a) && fresh(b) && fresh(c)
      ensures State() == Seed(key)
    {
      var w0, w1, w2 := LeWord(key, 0), LeWord(key, 1), LeWord(key, 2);
      a := new LFSR(SeedOr(w0, SEED_A), MASK_A, ROT_A);
      b := new LFSR(SeedOr(w1, SEED_B), MASK_B, ROT_B);
      c := new LFSR(SeedOr(w2, SEED_C), MASK_C, ROT_C);
    }

    /** `next(n)`: n output bits, packed most significant first. */
    method Next(n: nat) returns (v: nat)
      requires Valid()
      modifies a, b, c
      ensures State() == Advance(old(State()), n)
      ensures v == Value(old(State()), n)
    {
      ghost var s0 := Start(State());
      v := 0;
      var bBit := b.Peek();
      var cBit := c.Peek();
      for i := 0 to n
        invariant Round(State(), bBit, cBit) == Steps(s0, i)
        invariant v == Pack(Bits(s0, i))
      {
        var took := a.Next();
        if took {
          bBit := b.Next();
        } else {
          cBit := c.Next();
        }
        v := 2 * v + (if bBit != cBit then 1 else 0);
        assert Bits(s0, i + 1)[..i] == Bits(s0, i);
      }
    }

    /** `crypt_block(block)`: the byte XORed with the next keystream byte. */
    method CryptBlock(block: byte) returns (r: byte)
      requires Valid()
      modifies a, b, c
      ensures State() == After(old(State()), 1)
      ensures r == block ^ KeyByte(old(State()))
    {
      var v := Next(8);
      assert Pow2(8) == 256;
      r := block ^ (v as byte);
    }

    /** `crypt(data)`: `crypt_block` over the bytes in order, sharing one
        advancing generator state. */
    method Crypt(data: seq<byte>) returns (out: seq<byte>)
      requires Valid()
      modifies a, b, c
      ensures State() == After(old(State()), |data|)
      ensures out == XorBytes(data, Stream(old(State()), |data|))
    {
      ghost var g0 := State();
      out := [];
      for i := 0 to |data|
        invariant State() == After(g0, i)
        invariant out == XorBytes(data[..i], Stream(g0, i))
      {
        var x := CryptBlock(data[i]);
        CryptStep(g0, data, i, out);
        out := out + [x];
      }
      assert data[..|data|] == data;
    }
  }
}
