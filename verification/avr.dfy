/**
 * Machine types of the AVR C compiler the firmware is built with: 8-bit
 * counters and samples, the signed 8-bit counter `_freq`, the 16-bit `int`
 * in which the drawing arithmetic is evaluated, and single bits of an I/O
 * register byte.
 */
module Avr {

  /** A `uint8_t`: loop counters, sample values, cursors. */
  type Byte = x: int | 0 <= x <= 255

  /** An `int8_t`. */
  type SByte = x: int | -128 <= x <= 127

  /** The largest value of the compiler's 16-bit `int`. */
  const IntMax := 32767

  /** `1 << b` as a register byte, spelled out (see `BitMaskIsShift`). */
  function BitMask(b: nat): bv8
    requires b < 8
  {
    if b == 0 then 0x01 else if b == 1 then 0x02 else if b == 2 then 0x04 else if b == 3 then 0x08
    else if b == 4 then 0x10 else if b == 5 then 0x20 else if b == 6 then 0x40 else 0x80
  }

  lemma BitMaskIsShift(b: nat)
    requires b < 8
    ensures BitMask(b) == (1 as bv8) << b
  {
  }

  /** Bit `b` of register byte `x` is one. */
  predicate IsSet(x: bv8, b: nat)
    requires b < 8
  {
    x & BitMask(b) != 0
  }

  /** `1 << v` has exactly bit `v` set. */
  lemma MaskBit(v: nat, b: nat)
    requires v < 8 && b < 8
    ensures IsSet(BitMask(v), b) == (v == b)
  {
  }

  /** `|` sets a bit when either operand has it. */
  lemma OrBit(x: bv8, y: bv8, b: nat)
    requires b < 8
    ensures IsSet(x | y, b) == (IsSet(x, b) || IsSet(y, b))
  {
  }

  /** `& ~y` keeps a bit of `x` exactly when `y` does not have it. */
  lemma AndNotBit(x: bv8, y: bv8, b: nat)
    requires b < 8
    ensures IsSet(x & !y, b) == (IsSet(x, b) && !IsSet(y, b))
  {
  }

  /** Bit `b` after `ddr |= (1 << v1) | (1 << v2) | (1 << v3)`. */
  lemma SetThreeBit(v1: nat, v2: nat, v3: nat, ddr: bv8, b: nat)
    requires v1 < 8 && v2 < 8 && v3 < 8 && b < 8
    ensures IsSet(ddr | (BitMask(v1) | BitMask(v2) | BitMask(v3)), b)
            == (IsSet(ddr, b) || b == v1 || b == v2 || b == v3)
  {
    var m1, m2, m3 := BitMask(v1), BitMask(v2), BitMask(v3);
    MaskBit(v1, b); MaskBit(v2, b); MaskBit(v3, b);
    OrBit(m1, m2, b); OrBit(m1 | m2, m3, b); OrBit(ddr, m1 | m2 | m3, b);
  }

  lemma SetThreeBits(v1: nat, v2: nat, v3: nat, ddr: bv8)
    requires v1 < 8 && v2 < 8 && v3 < 8
    ensures forall b: nat :: b < 8 ==>
      (IsSet(ddr | (BitMask(v1) | BitMask(v2) | BitMask(v3)), b)
       == (IsSet(ddr, b) || b == v1 || b == v2 || b == v3))
  {
    forall b: nat | b < 8
      ensures IsSet(ddr | (BitMask(v1) | BitMask(v2) | BitMask(v3)), b)
              == (IsSet(ddr, b) || b == v1 || b == v2 || b == v3)
    {
      SetThreeBit(v1, v2, v3, ddr, b);
    }
  }

  /** Bit `b` after `port |= 1 << v1` followed by `port &= ~((1 << v2) | (1 << v3))`. */
  lemma SetOneClearTwoBit(v1: nat, v2: nat, v3: nat, port: bv8, b: nat)
    requires v1 < 8 && v2 < 8 && v3 < 8 && b < 8
    ensures IsSet((port | BitMask(v1)) & !(BitMask(v2) | BitMask(v3)), b)
            == (b != v2 && b != v3 && (b == v1 || IsSet(port, b)))
  {
    var m1, m2, m3 := BitMask(v1), BitMask(v2), BitMask(v3);
    MaskBit(v1, b); MaskBit(v2, b); MaskBit(v3, b);
    OrBit(port, m1, b); OrBit(m2, m3, b); AndNotBit(port | m1, m2 | m3, b);
  }

  lemma SetOneClearTwoBits(v1: nat, v2: nat, v3: nat, port: bv8)
    requires v1 < 8 && v2 < 8 && v3 < 8
    ensures forall b: nat :: b < 8 ==>
      (IsSet((port | BitMask(v1)) & !(BitMask(v2) | BitMask(v3)), b)
       == (b != v2 && b != v3 && (b == v1 || IsSet(port, b))))
  {
    forall b: nat | b < 8
      ensures IsSet((port | BitMask(v1)) & !(BitMask(v2) | BitMask(v3)), b)
              == (b != v2 && b != v3 && (b == v1 || IsSet(port, b)))
    {
      SetOneClearTwoBit(v1, v2, v3, port, b);
    }
  }
}
