/** Fixed-width unsigned integers of the emulator and the bit operations it uses. */
module Bits {

  /** Rust's u8. */
  type u8 = x: int | 0 <= x < 0x100

  /** Rust's u16. */
  type u16 = x: int | 0 <= x < 0x1_0000

  /** A 12-bit address field `nnn` of an opcode. */
  type Addr = x: int | 0 <= x < 0x1000

  /** One 4-bit field of an opcode. */
  type Nibble = x: int | 0 <= x < 0x10

  /** 2 to the power `w`. */
  function Pow2(w: nat): (r: nat)
    ensures r >= 1
  {
    if w == 0 then 1 else 2 * Pow2(w - 1)
  }

  /** Bit `i` of `a`, bit 0 being the least significant. */
  function Bit(a: nat, i: nat): (r: nat)
    ensures r <= 1
  {
    if i == 0 then a % 2 else Bit(a / 2, i - 1)
  }

  /** Every bit of 0 is clear. */
  lemma {:induction false} ZeroBit(i: nat)
    ensures Bit(0, i) == 0
  {
    if i > 0 {
      ZeroBit(i - 1);
    }
  }

  /** A number below `2^w` has no bit at `w` or above. */
  lemma {:induction false} HighBitsClear(a: nat, w: nat, i: nat)
    requires a < Pow2(w) && w <= i
    ensures Bit(a, i) == 0
  {
    if w == 0 {
      ZeroBit(i);
    } else {
      HighBitsClear(a / 2, w - 1, i - 1);
    }
  }

  /** `a | b` on the low `w` bits, from the least significant one. */
  function OrBits(a: nat, b: nat, w: nat): (r: nat)
    ensures r < Pow2(w)
  {
    if w == 0 then 0
    else 2 * OrBits(a / 2, b / 2, w - 1) + (if a % 2 == 1 || b % 2 == 1 then 1 else 0)
  }

  /** Bit `i` of `OrBits(a, b, w)` is set iff `i < w` and `a` or `b` has bit `i`. */
  lemma {:induction false} OrBitsBit(a: nat, b: nat, w: nat, i: nat)
    ensures Bit(OrBits(a, b, w), i) == if i < w && (Bit(a, i) == 1 || Bit(b, i) == 1) then 1 else 0
  {
    if w == 0 {
      ZeroBit(i);
    } else if i > 0 {
      OrBitsBit(a / 2, b / 2, w - 1, i - 1);
    }
  }

  /** `a | b` on u8. */
  function BitOr(a: u8, b: u8): (r: u8)
  {
    OrBits(a, b, 8)
  }

  /** A bit of `a | b` is set exactly where `a` or `b` has it. */
  lemma BitOrBit(a: u8, b: u8, i: nat)
    ensures Bit(BitOr(a, b), i) == if Bit(a, i) == 1 || Bit(b, i) == 1 then 1 else 0
  {
    OrBitsBit(a, b, 8, i);
    if i >= 8 {
      HighBitsClear(a, 8, i);
      HighBitsClear(b, 8, i);
    }
  }

  /** Or-ing in the same `b` again changes nothing. */
  lemma {:induction false} OrBitsTwice(a: nat, b: nat, w: nat)
    ensures OrBits(OrBits(a, b, w), b, w) == OrBits(a, b, w)
  {
    if w > 0 {
      OrBitsTwice(a / 2, b / 2, w - 1);
      var r := OrBits(a, b, w);
      assert r / 2 == OrBits(a / 2, b / 2, w - 1);
    }
  }

  /**
    * `a & b` on u8, bit by bit from the least significant one. A bit of the result is
    * set only where both operands have it, so the result is at most either operand.
    */
  function BitAnd(a: u8, b: u8): (r: u8)
    ensures r <= a && r <= b
    decreases a
  {
    if a == 0 || b == 0 then 0
    else 2 * BitAnd(a / 2, b / 2) + (if a % 2 == 1 && b % 2 == 1 then 1 else 0)
  }

  /** A bit of `a & b` is set exactly where both `a` and `b` have it. */
  lemma {:induction false} BitAndBit(a: u8, b: u8, i: nat)
    ensures Bit(BitAnd(a, b), i) == if Bit(a, i) == 1 && Bit(b, i) == 1 then 1 else 0
    decreases a
  {
    if a == 0 || b == 0 {
      ZeroBit(i);
    } else if i > 0 {
      BitAndBit(a / 2, b / 2, i - 1);
    }
  }

  /** Masking with `b` twice is masking once: `a & b` has no bit outside `b`. */
  lemma {:induction false} BitAndWithinMask(a: u8, b: u8)
    ensures BitAnd(BitAnd(a, b), b) == BitAnd(a, b)
    decreases a
  {
    if a != 0 && b != 0 {
      BitAndWithinMask(a / 2, b / 2);
      var r := BitAnd(a, b);
      assert r / 2 == BitAnd(a / 2, b / 2) && r % 2 == (if a % 2 == 1 && b % 2 == 1 then 1 else 0);
    }
  }

  /** `a ^ b` on the low `w` bits, from the least significant one. */
  function XorBits(a: nat, b: nat, w: nat): (r: nat)
    ensures r < Pow2(w)
  {
    if w == 0 then 0
    else 2 * XorBits(a / 2, b / 2, w - 1) + (if a % 2 != b % 2 then 1 else 0)
  }

  /** Bit `i` of `XorBits(a, b, w)` is set iff `i < w` and exactly one of `a` and `b` has bit `i`. */
  lemma {:induction false} XorBitsBit(a: nat, b: nat, w: nat, i: nat)
    ensures Bit(XorBits(a, b, w), i) == if i < w && Bit(a, i) != Bit(b, i) then 1 else 0
  {
    if w == 0 {
      ZeroBit(i);
    } else if i > 0 {
      XorBitsBit(a / 2, b / 2, w - 1, i - 1);
    }
  }

  /** `a ^ b` on u8. */
  function BitXor(a: u8, b: u8): (r: u8)
  {
    XorBits(a, b, 8)
  }

  /** A bit of `a ^ b` is set exactly where `a` and `b` differ. */
  lemma BitXorBit(a: u8, b: u8, i: nat)
    ensures Bit(BitXor(a, b), i) == if Bit(a, i) != Bit(b, i) then 1 else 0
  {
    XorBitsBit(a, b, 8, i);
    if i >= 8 {
      HighBitsClear(a, 8, i);
      HighBitsClear(b, 8, i);
    }
  }

  /** Xor-ing a `w`-bit number with the same `b` twice gives it back. */
  lemma {:induction false} XorBitsTwice(a: nat, b: nat, w: nat)
    requires a < Pow2(w)
    ensures XorBits(XorBits(a, b, w), b, w) == a
  {
    if w > 0 {
      XorBitsTwice(a / 2, b / 2, w - 1);
      var r := XorBits(a, b, w);
      assert r / 2 == XorBits(a / 2, b / 2, w - 1) && r % 2 == (if a % 2 != b % 2 then 1 else 0);
    }
  }

  /** `(a ^ b) ^ b == a` on u8. */
  lemma XorTwice(a: u8, b: u8)
    ensures BitXor(BitXor(a, b), b) == a
  {
    XorBitsTwice(a, b, 8);
  }

  /** Bit `i` of a sprite row, counted from the most significant bit: `row & (0b1000_0000 >> i) != 0`. */
  predicate SpriteBit(row: u8, i: int)
    requires 0 <= i < 8
  {
    (row as bv8) & ((0x80 as bv8) >> i) != 0
  }
}
