/** The clocked 32-bit shift register `LFSR` of crypt.py. */
module Lfsr {

  /** The state of one register: the evolving `value` and its two constants,
      the feedback polynomial `mask` and the refill constant `rot`. Holding
      them in a `bv32` is what makes the register 32 bits wide: every
      operation of `next()` maps 32-bit operands to a 32-bit result. */
  datatype Reg = Reg(value: bv32, mask: bv32, rot: bv32) {

    /** `peek()`: the low bit of `value`, without clocking. */
    predicate Peek() {
      value & 1 == 1
    }

    /** `next()`: one clock. With the low bit set, `mask` is XORed in, the
        value shifted right and the bits outside `rot` set; otherwise the value
        is shifted right and the bits outside `rot` cleared. The flag returned
        is the low bit before the clock. */
    function Next(): (res: (Reg, bool))
      ensures res.0.mask == mask && res.0.rot == rot
      ensures res.1 <==> Peek()
    {
      if Peek() then
        (this.(value := ((value ^ mask) >> 1) | !rot), true)
      else
        (this.(value := (value >> 1) & rot), false)
    }
  }

  /** The refill policy of one clock: with the flag set, every bit outside
      `rot` is 1 afterwards; with it clear, every such bit is 0. */
  lemma Refill(r: Reg)
    ensures r.Next().1 ==> r.Next().0.value & !r.rot == !r.rot
    ensures !r.Next().1 ==> r.Next().0.value & !r.rot == 0
  {
  }

  /** The register after `n` clocks. */
  function Run(r: Reg, n: nat): (q: Reg)
    ensures q.mask == r.mask && q.rot == r.rot
  {
    if n == 0 then r else Run(r, n - 1).Next().0
  }

  /** The flags returned by the first `n` clocks, in order. */
  function Flags(r: Reg, n: nat): (fs: seq<bool>)
    ensures |fs| == n
  {
    if n == 0 then [] else Flags(r, n - 1) + [Run(r, n - 1).Next().1]
  }

  /** How many of the first `n` clocks returned true. */
  function Taken(r: Reg, n: nat): (k: nat)
    ensures k <= n
  {
    if n == 0 then 0 else Taken(r, n - 1) + (if Run(r, n - 1).Next().1 then 1 else 0)
  }

  /** How many of the first `n` clocks returned false. */
  function Passed(r: Reg, n: nat): (k: nat)
    ensures k <= n
  {
    if n == 0 then 0 else Passed(r, n - 1) + (if Run(r, n - 1).Next().1 then 0 else 1)
  }

  /** Every clock returns either true or false: the two counts add up to n. */
  lemma {:induction false} TakenPassed(r: Reg, n: nat)
    ensures Taken(r, n) + Passed(r, n) == n
  {
    if n > 0 {
      TakenPassed(r, n - 1);
    }
  }

  /** Flag k of a run is the low bit of the register after k clocks: the flag
      `next()` returns is what `peek()` said just before it. */
  lemma {:induction false} FlagIsPeek(r: Reg, n: nat, k: nat)
    requires k < n
    ensures Flags(r, n)[k] == Run(r, k).Peek()
  {
    if k < n - 1 {
      FlagIsPeek(r, n - 1, k);
    }
  }

  /** A register holding 0 is a fixed point: it stays 0 and every clock
      returns false, whatever its constants. */
  lemma {:induction false} ZeroStaysZero(r: Reg, n: nat)
    requires r.value == 0
    ensures Run(r, n).value == 0
    ensures forall k :: 0 <= k < n ==> !Flags(r, n)[k]
  {
    if n > 0 {
      ZeroStaysZero(r, n - 1);
      assert Flags(r, n) == Flags(r, n - 1) + [Run(r, n - 1).Next().1];
    }
  }

  /** With a refill constant whose top bit is clear (register A's 0x7FFFFFFF),
      a nonzero register never reaches 0. */
  lemma {:induction false} NonzeroStaysNonzero(r: Reg, n: nat)
    requires r.value != 0 && r.rot == 0x7FFF_FFFF
    ensures Run(r, n).value != 0
  {
    if n > 0 {
      NonzeroStaysNonzero(r, n - 1);
    }
  }

  /** A register whose first clock leaves 0 is 0 after every later clock too. */
  lemma {:induction false} DeadAfterFirstClock(r: Reg, n: nat)
    requires n >= 1 && r.Next().0.value == 0
    ensures Run(r, n).value == 0
  {
    assert Run(r, 1) == r.Next().0;
    RunShift(r, n - 1);
    ZeroStaysZero(Run(r, 1), n - 1);
  }

  /** A narrower refill constant does not protect a nonzero seed: register B
      (rot 0x3FFFFFFF) seeded 0x80000000 is 0 after its first clock and then
      stays 0 for good. */
  lemma NarrowRotCollapses(mask: bv32, n: nat)
    requires n >= 1
    ensures Run(Reg(0x8000_0000, mask, 0x3FFF_FFFF), n).value == 0
  {
    DeadAfterFirstClock(Reg(0x8000_0000, mask, 0x3FFF_FFFF), n);
  }

  /** The same holds for register C (rot 0x0FFFFFFF) seeded 0x20000000. */
  lemma NarrowRotCollapsesC(mask: bv32, n: nat)
    requires n >= 1
    ensures Run(Reg(0x2000_0000, mask, 0x0FFF_FFFF), n).value == 0
  {
    DeadAfterFirstClock(Reg(0x2000_0000, mask, 0x0FFF_FFFF), n);
  }

  /** Clocking once and then k times is clocking k + 1 times. */
  lemma {:induction false} RunShift(r: Reg, k: nat)
    ensures Run(Run(r, 1), k) == Run(r, k + 1)
  {
    if k > 0 {
      RunShift(r, k - 1);
    }
  }

  /** The register object of crypt.py: `value` changes in place, `mask` and
      `rot` are fixed at construction. */
  class LFSR {
    var value: bv32
    const mask: bv32
    const rot: bv32

    /** The register's state as a value. */
    function State(): Reg
      reads this
    {
      Reg(value, mask, rot)
    }

    constructor (seed: bv32, mask: bv32, rot: bv32)
      ensures State() == Reg(seed, mask, rot)
    {
      this.value := seed;
      this.mask := mask;
      this.rot := rot;
    }

    /** `peek()`. */
    function Peek(): bool
      reads this
    {
      State().Peek()
    }

    /** `next()`: updates `value` in place and returns true exactly when the
        low bit was set before the clock. */
    method Next() returns (took: bool)
      modifies this
      ensures (State(), took) == old(State()).Next()
      ensures took == old(State()).Peek()
    {
      if value & 1 == 1 {
        value := value ^ mask;
        value := value >> 1;
        value := value | !rot;
        took := true;
      } else {
        value := value >> 1;
        value := value & rot;
        took := false;
      }
    }
  }
}
