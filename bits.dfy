/**
 * Python's arbitrary-precision integer operations used by the canonical
 * encoding: `x << n`, `x | y` and `len(bin(x)) - 2`, on non-negative
 * integers.
 */
module Bits {

  /** 2 to the power n. */
  function Pow2(n: nat): (r: nat)
    ensures r >= 1
  {
    if n == 0 then 1 else 2 * Pow2(n - 1)
  }

  /** `x << n` on a non-negative Python integer: n doublings. */
  function Shl(x: nat, n: nat): nat
  {
    if n == 0 then x else 2 * Shl(x, n - 1)
  }

  /** Shifting left by n multiplies by 2 to the n. */
  lemma {:induction false} ShlIs(x: nat, n: nat)
    ensures Shl(x, n) == x * Pow2(n)
  {
    if n > 0 {
      ShlIs(x, n - 1);
      Doubled(x, Pow2(n - 1));
    }
  }

  /** `len(bin(x)) - 2`: the number of binary digits of x (one for zero). */
  function BitLength(x: nat): (r: nat)
    ensures r >= 1
  {
    if x < 2 then 1 else 1 + BitLength(x / 2)
  }

  /** `x | y` on non-negative Python integers, bit by bit from the lowest. */
  function BitOr(x: nat, y: nat): nat
    decreases x + y
  {
    if x == 0 then y
    else if y == 0 then x
    else 2 * BitOr(x / 2, y / 2) + (if x % 2 == 1 || y % 2 == 1 then 1 else 0)
  }

  /** BitLength(x) is the least width that holds x. */
  lemma {:induction false} BitLengthBounds(x: nat)
    ensures x < Pow2(BitLength(x))
    ensures x >= 2 ==> Pow2(BitLength(x) - 1) <= x
  {
    if x >= 2 {
      BitLengthBounds(x / 2);
    }
  }

  /**
   * OR-ing a value shifted by n into a number whose low n bits are `lo`
   * leaves `lo` alone and ORs the shifted value into the high part.
   */
  lemma {:induction false} OrShifted(lo: nat, hi: nat, y: nat, n: nat, x: nat, z: nat)
    requires lo < Pow2(n) && x == lo + hi * Pow2(n) && z == y * Pow2(n)
    ensures BitOr(x, z) == lo + BitOr(hi, y) * Pow2(n)
  {
    if n == 0 || x == 0 || y == 0 {
      OrShiftedBase(lo, hi, y, n, x, z);
    } else {
      var p := Pow2(n - 1);
      OrShiftedHalves(lo, hi, y, n, x, z, p);
      OrShifted(lo / 2, hi, y, n - 1, lo / 2 + hi * p, y * p);
      OrShiftedStep(lo, hi, y, n, x, z, p);
    }
  }

  /** OrShifted with no shift, nothing below the shift, or nothing shifted. */
  lemma OrShiftedBase(lo: nat, hi: nat, y: nat, n: nat, x: nat, z: nat)
    requires lo < Pow2(n) && x == lo + hi * Pow2(n) && z == y * Pow2(n)
    requires n == 0 || x == 0 || y == 0
    ensures BitOr(x, z) == lo + BitOr(hi, y) * Pow2(n)
  {
    if n == 0 {
      assert lo == 0 && x == hi && z == y;
    } else if x == 0 {
      NothingBelow(hi, Pow2(n));
      assert BitOr(0, y) == y;
    } else {
      assert z == 0 && BitOr(hi, 0) == hi;
    }
  }

  lemma NothingBelow(hi: nat, p: nat)
    requires p >= 1 && hi * p == 0
    ensures hi == 0
  {
  }

  /** The operands of OrShifted one bit narrower. */
  lemma OrShiftedHalves(lo: nat, hi: nat, y: nat, n: nat, x: nat, z: nat, p: nat)
    requires n > 0 && p == Pow2(n - 1)
    requires lo < Pow2(n) && x == lo + hi * Pow2(n) && z == y * Pow2(n)
    ensures lo / 2 < p && x == lo + 2 * (hi * p) && z == 2 * (y * p)
  {
    Doubled(hi, p);
    Doubled(y, p);
  }

  /** The inductive step of OrShifted, given the claim one bit narrower. */
  lemma OrShiftedStep(lo: nat, hi: nat, y: nat, n: nat, x: nat, z: nat, p: nat)
    requires n > 0 && p == Pow2(n - 1) && lo < Pow2(n) && x > 0 && y > 0
    requires x == lo + 2 * (hi * p) && z == 2 * (y * p)
    requires BitOr(lo / 2 + hi * p, y * p) == lo / 2 + BitOr(hi, y) * p
    ensures BitOr(x, z) == lo + BitOr(hi, y) * Pow2(n)
  {
    var b := BitOr(hi, y);
    Doubled(b, p);
    OrOfHalves(x, z, lo / 2 + hi * p, lo % 2, y * p);
  }

  /** One step of BitOr: the lowest bit, then the halves. */
  lemma OrOfHalves(x: nat, z: nat, q: nat, r: nat, h: nat)
    requires x > 0 && z > 0 && r < 2
    requires x == 2 * q + r && z == 2 * h
    ensures BitOr(x, z) == 2 * BitOr(q, h) + r
  {
  }

  /** Pow2(n + 1) doubles Pow2(n) inside a product. */
  lemma Doubled(a: nat, p: nat)
    ensures a * (2 * p) == 2 * (a * p)
  {
  }

  /** OR-ing a shifted value into a number narrower than the shift adds it. */
  lemma OrDisjoint(lo: nat, y: nat, n: nat)
    requires lo < Pow2(n)
    ensures BitOr(lo, y * Pow2(n)) == lo + y * Pow2(n)
  {
    OrShifted(lo, 0, y, n, lo, y * Pow2(n));
    assert BitOr(0, y) == y;
  }

  /** OR of two single bits is their maximum. */
  lemma OrOfBits(x: nat, y: nat)
    requires x <= 1 && y <= 1
    ensures BitOr(x, y) == if x == 1 || y == 1 then 1 else 0
  {
    if x == 1 && y == 1 {
      assert BitOr(1, 1) == 2 * BitOr(0, 0) + 1;
    }
  }

  /** A digit below `base` plus a multiple of `base` splits in one way only. */
  lemma SplitUnique(lo1: nat, hi1: nat, lo2: nat, hi2: nat, base: nat)
    requires lo1 < base && lo2 < base
    requires lo1 + base * hi1 == lo2 + base * hi2
    ensures lo1 == lo2 && hi1 == hi2
  {
    if hi1 < hi2 {
      MultipleGap(base, hi1, hi2);
    } else if hi2 < hi1 {
      MultipleGap(base, hi2, hi1);
    }
  }

  lemma MultipleGap(base: nat, lo: nat, hi: nat)
    requires lo < hi
    ensures base * lo + base <= base * hi
    decreases hi - lo
  {
    assert base * (lo + 1) == base * lo + base;
    if lo + 1 < hi {
      MultipleGap(base, lo + 1, hi);
    }
  }

  /** Fields to pack, lowest first: each value with the width it is given. */
  datatype Layout = End | Field(value: nat, width: nat, rest: Layout)

  /**
   * The packing loop `h |= value << offset; offset += width`, field after
   * field, from accumulator h and bit offset `offset`.
   */
  function Pack(fields: Layout, h: nat, offset: nat): nat
  {
    match fields
    case End => h
    case Field(v, w, rest) => Pack(rest, BitOr(h, Shl(v, offset)), offset + w)
  }

  /** A field packed above everything packed so far is added at its offset. */
  lemma PackAbove(v: nat, w: nat, rest: Layout, h: nat, offset: nat, p: nat, h': nat, offset': nat)
    requires Pow2(offset) == p && h < p
    requires h' == h + p * v && offset' == offset + w
    ensures Pack(Field(v, w, rest), h, offset) == Pack(rest, h', offset')
  {
    OrDisjoint(h, v, offset);
    ShlIs(v, offset);
  }

  /** A one-bit field packed onto a bit that already holds d is OR'd with it. */
  lemma PackOverlap(v: nat, w: nat, rest: Layout, h: nat, offset: nat, p: nat, lo: nat, d: nat, h': nat, offset': nat)
    requires Pow2(offset) == p && lo < p && h == lo + p * d && d <= 1 && v <= 1
    requires h' == lo + p * (if d == 1 || v == 1 then 1 else 0) && offset' == offset + w
    ensures Pack(Field(v, w, rest), h, offset) == Pack(rest, h', offset')
  {
    ShlIs(v, offset);
    OrShifted(lo, d, v, offset, h, v * p);
    OrOfBits(d, v);
  }

  /** The fields read as one positional number, each field `width` binary digits wide. */
  function Digits(fields: Layout): nat
  {
    match fields
    case End => 0
    case Field(v, w, rest) => v + Shl(Digits(rest), w)
  }

  /** Digits and Fits one field at a time, with 2 to the field's width given as p. */
  lemma DigitsField(v: nat, w: nat, rest: Layout, p: nat)
    requires Pow2(w) == p
    ensures Digits(Field(v, w, rest)) == v + p * Digits(rest)
    ensures Fits(Field(v, w, rest)) <==> rest == End || (v < p && Fits(rest))
  {
    hide Pow2, BitOr, Pack;
    ShlIs(Digits(rest), w);
  }

  /** Every field but the last holds a value below 2 to its width. */
  predicate Fits(fields: Layout)
  {
    match fields
    case End => true
    case Field(v, w, rest) => rest == End || (v < Pow2(w) && Fits(rest))
  }

  /** Pow2 turns a sum of exponents into a product. */
  lemma {:induction false} Pow2Add(m: nat, n: nat)
    ensures Pow2(m + n) == Pow2(m) * Pow2(n)
  {
    if n > 0 {
      Pow2Add(m, n - 1);
      assert Pow2(m) * Pow2(n) == Pow2(m) * (2 * Pow2(n - 1)) == 2 * (Pow2(m) * Pow2(n - 1));
    }
  }

  /** A digit below `w` on top of a remainder below `p` stays below their product. */
  lemma DigitBelow(h: nat, p: nat, v: nat, w: nat)
    requires h < p && v < w
    ensures h + p * v < p * w
  {
    MultipleGap(p, v, w);
  }

  /** Packing fields that fit their widths above a narrower accumulator adds their digits at the offset. */
  lemma {:induction false} PackDigits(fields: Layout, h: nat, offset: nat, p: nat)
    requires Pow2(offset) == p && h < p && Fits(fields)
    ensures Pack(fields, h, offset) == h + p * Digits(fields)
    decreases fields
  {
    assert Digits(End) == 0;
    hide Digits, Fits, Shl, BitOr, Pow2;
    match fields
    case End =>
    case Field(v, w, rest) =>
      var h' := h + p * v;
      PackAbove(v, w, rest, h, offset, p, h', offset + w);
      var q := Pow2(w);
      DigitsField(v, w, rest, q);
      if rest != End {
        Pow2Add(offset, w);
        DigitBelow(h, p, v, q);
        PackDigits(rest, h', offset + w, p * q);
        DigitsStep(h, p, v, q, Digits(rest));
      }
  }

  lemma DigitsStep(h: nat, p: nat, v: nat, q: nat, d: nat)
    ensures h + p * v + (p * q) * d == h + p * (v + q * d)
  {
  }
}
