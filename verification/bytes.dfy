/** Unsigned 8- and 16-bit values, little-endian words, single bits and the
    sign extension used for relative branches. Values are bounded integers, so
    every wrap-around is written out with `%`. */
module Bytes {
  type u8 = x: int | 0 <= x < 0x100
  type u16 = x: int | 0 <= x < 0x1_0000

  /** 2 to the power k, for the eight bit positions of a byte. */
  function BitValue(k: nat): (v: u8)
    requires k < 8
  {
    match k
    case 0 => 1 case 1 => 2 case 2 => 4 case 3 => 8
    case 4 => 16 case 5 => 32 case 6 => 64 case _ => 128
  }

  /** 2 to the power k, up to a whole byte's worth of bits. */
  function Pow2(k: nat): (p: nat)
    requires k <= 8
    ensures p > 0
  {
    if k == 8 then 0x100 else BitValue(k)
  }

  /** Bit k of v (bit 0 is the least significant). */
  predicate Bit(v: u8, k: nat)
    requires k < 8
  {
    match k
    case 0 => v % 2 == 1
    case 1 => v / 2 % 2 == 1
    case 2 => v / 4 % 2 == 1
    case 3 => v / 8 % 2 == 1
    case 4 => v / 16 % 2 == 1
    case 5 => v / 32 % 2 == 1
    case 6 => v / 64 % 2 == 1
    case _ => v / 128 % 2 == 1
  }

  /** The eight bits of v, least significant first. */
  function BitsOf(v: u8): (bs: seq<bool>)
    ensures |bs| == 8
    ensures forall k :: 0 <= k < 8 ==> bs[k] == Bit(v, k)
  {
    var bs := [Bit(v, 0), Bit(v, 1), Bit(v, 2), Bit(v, 3), Bit(v, 4), Bit(v, 5), Bit(v, 6), Bit(v, 7)];
    BitsAgree(v, bs);
    bs
  }

  /** 1 for a set bit, 0 for a clear one. */
  function Digit(b: bool): (d: nat)
    ensures d < 2
  {
    if b then 1 else 0
  }

  /** The byte whose bit k is bs[k]. */
  function ByteOf(bs: seq<bool>): u8
    requires |bs| == 8
  {
    Digit(bs[0]) + 2 * Digit(bs[1]) + 4 * Digit(bs[2]) + 8 * Digit(bs[3])
    + 16 * Digit(bs[4]) + 32 * Digit(bs[5]) + 64 * Digit(bs[6]) + 128 * Digit(bs[7])
  }

  /** A byte is the sum of its bits' values. */
  lemma Decompose(v: u8)
    ensures v == v % 2 + 2 * (v / 2 % 2) + 4 * (v / 4 % 2) + 8 * (v / 8 % 2) + 16 * (v / 16 % 2)
                 + 32 * (v / 32 % 2) + 64 * (v / 64 % 2) + 128 * (v / 128)
  {
    assert v / 4 == v / 2 / 2;
    assert v / 8 == v / 4 / 2;
    assert v / 16 == v / 8 / 2;
    assert v / 32 == v / 16 / 2;
    assert v / 64 == v / 32 / 2;
    assert v / 128 == v / 64 / 2;
  }

  /** A byte assembled from bits whose digits are d0..d7 is their weighted sum. */
  lemma ByteOfDigits(bs: seq<bool>, d0: int, d1: int, d2: int, d3: int, d4: int, d5: int, d6: int, d7: int)
    requires |bs| == 8
    requires Digit(bs[0]) == d0 && Digit(bs[1]) == d1 && Digit(bs[2]) == d2 && Digit(bs[3]) == d3
    requires Digit(bs[4]) == d4 && Digit(bs[5]) == d5 && Digit(bs[6]) == d6 && Digit(bs[7]) == d7
    ensures ByteOf(bs) == d0 + 2 * d1 + 4 * d2 + 8 * d3 + 16 * d4 + 32 * d5 + 64 * d6 + 128 * d7
  {
  }

  /** The digit of each bit of v is v divided by that bit's value, modulo 2. */
  lemma DigitsOfBits(v: u8)
    ensures var bs := BitsOf(v);
      && Digit(bs[0]) == v % 2 && Digit(bs[1]) == v / 2 % 2 && Digit(bs[2]) == v / 4 % 2
      && Digit(bs[3]) == v / 8 % 2 && Digit(bs[4]) == v / 16 % 2 && Digit(bs[5]) == v / 32 % 2
      && Digit(bs[6]) == v / 64 % 2 && Digit(bs[7]) == v / 128
  {
  }

  /** Reading the bits of a byte and putting them back gives the byte. */
  lemma ByteOfBitsOf(v: u8)
    ensures ByteOf(BitsOf(v)) == v
  {
    DigitsOfBits(v);
    Decompose(v);
    ByteOfDigits(BitsOf(v), v % 2, v / 2 % 2, v / 4 % 2, v / 8 % 2, v / 16 % 2, v / 32 % 2, v / 64 % 2, v / 128);
  }

  /** Any eight bits that agree with v's bits assemble to v. */
  lemma ByteOfSameBits(v: u8, bs: seq<bool>)
    requires |bs| == 8
    requires forall k :: 0 <= k < 8 ==> bs[k] == Bit(v, k)
    ensures ByteOf(bs) == v
  {
    assert bs == BitsOf(v);
    ByteOfBitsOf(v);
  }

  /** The bits of a sum of distinct bit values are read back by division. */
  lemma Compose(v: int, b0: int, b1: int, b2: int, b3: int, b4: int, b5: int, b6: int, b7: int)
    requires 0 <= b0 < 2 && 0 <= b1 < 2 && 0 <= b2 < 2 && 0 <= b3 < 2
    requires 0 <= b4 < 2 && 0 <= b5 < 2 && 0 <= b6 < 2 && 0 <= b7 < 2
    requires v == b0 + 2 * b1 + 4 * b2 + 8 * b3 + 16 * b4 + 32 * b5 + 64 * b6 + 128 * b7
    ensures 0 <= v < 0x100
    ensures Bit(v, 0) == (b0 == 1) && Bit(v, 1) == (b1 == 1) && Bit(v, 2) == (b2 == 1) && Bit(v, 3) == (b3 == 1)
    ensures Bit(v, 4) == (b4 == 1) && Bit(v, 5) == (b5 == 1) && Bit(v, 6) == (b6 == 1) && Bit(v, 7) == (b7 == 1)
  {
    assert v / 2 == b1 + 2 * b2 + 4 * b3 + 8 * b4 + 16 * b5 + 32 * b6 + 64 * b7;
    assert v / 4 == b2 + 2 * b3 + 4 * b4 + 8 * b5 + 16 * b6 + 32 * b7;
    assert v / 8 == b3 + 2 * b4 + 4 * b5 + 8 * b6 + 16 * b7;
    assert v / 16 == b4 + 2 * b5 + 4 * b6 + 8 * b7;
    assert v / 32 == b5 + 2 * b6 + 4 * b7;
    assert v / 64 == b6 + 2 * b7;
    assert v / 128 == b7;
  }

  /** Bit k of an assembled byte is bs[k]. */
  lemma BitOfByteOf(bs: seq<bool>)
    requires |bs| == 8
    ensures forall k :: 0 <= k < 8 ==> Bit(ByteOf(bs), k) == bs[k]
  {
    var v := ByteOf(bs);
    ByteOfDigits(bs, Digit(bs[0]), Digit(bs[1]), Digit(bs[2]), Digit(bs[3]),
                 Digit(bs[4]), Digit(bs[5]), Digit(bs[6]), Digit(bs[7]));
    Compose(v, Digit(bs[0]), Digit(bs[1]), Digit(bs[2]), Digit(bs[3]),
            Digit(bs[4]), Digit(bs[5]), Digit(bs[6]), Digit(bs[7]));
    BitsAgree(v, bs);
  }

  /** Eight bit-by-bit equalities give the quantified one. */
  lemma BitsAgree(v: u8, bs: seq<bool>)
    requires |bs| == 8
    requires Bit(v, 0) == bs[0] && Bit(v, 1) == bs[1] && Bit(v, 2) == bs[2] && Bit(v, 3) == bs[3]
    requires Bit(v, 4) == bs[4] && Bit(v, 5) == bs[5] && Bit(v, 6) == bs[6] && Bit(v, 7) == bs[7]
    ensures forall k :: 0 <= k < 8 ==> Bit(v, k) == bs[k]
  {
    forall k | 0 <= k < 8
      ensures Bit(v, k) == bs[k]
    {
      if k == 0 {} else if k == 1 {} else if k == 2 {} else if k == 3 {}
      else if k == 4 {} else if k == 5 {} else if k == 6 {} else {}
    }
  }

  /** Assembling a byte from bits and reading them back gives the bits. */
  lemma BitsOfByteOf(bs: seq<bool>)
    requires |bs| == 8
    ensures BitsOf(ByteOf(bs)) == bs
  {
    BitOfByteOf(bs);
  }

  /** The only bit of 2^c is bit c. */
  lemma BitOfBitValue(c: nat, k: nat)
    requires c < 8 && k < 8
    ensures Bit(BitValue(c), k) <==> c == k
  {
  }

  /** A byte is zero exactly when none of its bits is set. */
  lemma ZeroIffNoBits(v: u8)
    ensures v == 0 <==> forall k :: 0 <= k < 8 ==> !Bit(v, k)
  {
    Decompose(v);
    if v != 0 {
      assert Bit(v, 0) || Bit(v, 1) || Bit(v, 2) || Bit(v, 3) || Bit(v, 4) || Bit(v, 5) || Bit(v, 6) || Bit(v, 7);
    }
  }

  /** Bitwise AND, OR and exclusive OR, bit by bit. */
  function And(a: u8, b: u8): (r: u8)
    ensures forall k :: 0 <= k < 8 ==> Bit(r, k) == (Bit(a, k) && Bit(b, k))
  {
    var bs := seq(8, k requires 0 <= k < 8 => Bit(a, k) && Bit(b, k));
    BitOfByteOf(bs);
    ByteOf(bs)
  }

  function Or(a: u8, b: u8): (r: u8)
    ensures forall k :: 0 <= k < 8 ==> Bit(r, k) == (Bit(a, k) || Bit(b, k))
  {
    var bs := seq(8, k requires 0 <= k < 8 => Bit(a, k) || Bit(b, k));
    BitOfByteOf(bs);
    ByteOf(bs)
  }

  function Xor(a: u8, b: u8): (r: u8)
    ensures forall k :: 0 <= k < 8 ==> Bit(r, k) == (Bit(a, k) != Bit(b, k))
  {
    var bs := seq(8, k requires 0 <= k < 8 => Bit(a, k) != Bit(b, k));
    BitOfByteOf(bs);
    ByteOf(bs)
  }

  /** Bitwise complement (Rust `!v` on a `u8`); as a number it is 255 - v. */
  function Not(v: u8): (r: u8)
    ensures forall k :: 0 <= k < 8 ==> Bit(r, k) == !Bit(v, k)
    ensures r == 0xFF - v
  {
    var bs := seq(8, k requires 0 <= k < 8 => !Bit(v, k));
    BitOfByteOf(bs);
    ComplementSum(BitsOf(v), bs);
    ByteOfBitsOf(v);
    ByteOf(bs)
  }

  /** Two complementary bit patterns add up to 0xFF. */
  lemma ComplementSum(bs: seq<bool>, cs: seq<bool>)
    requires |bs| == 8 && |cs| == 8
    requires forall k :: 0 <= k < 8 ==> cs[k] == !bs[k]
    ensures ByteOf(bs) + ByteOf(cs) == 0xFF
  {
    ByteOfDigits(bs, Digit(bs[0]), Digit(bs[1]), Digit(bs[2]), Digit(bs[3]),
                 Digit(bs[4]), Digit(bs[5]), Digit(bs[6]), Digit(bs[7]));
    ByteOfDigits(cs, 1 - Digit(bs[0]), 1 - Digit(bs[1]), 1 - Digit(bs[2]), 1 - Digit(bs[3]),
                 1 - Digit(bs[4]), 1 - Digit(bs[5]), 1 - Digit(bs[6]), 1 - Digit(bs[7]));
  }

  /** The low byte of a word. */
  function Low(w: u16): u8 { w % 0x100 }

  /** The high byte of a word. */
  function High(w: u16): u8 { w / 0x100 }

  /** The word with the given high and low bytes. */
  function Word(high: u8, low: u8): (w: u16)
  {
    high * 0x100 + low
  }

  /** The bytes a word is put together from are its low and high bytes. */
  lemma BytesOfWord(high: u8, low: u8)
    ensures Low(Word(high, low)) == low && High(Word(high, low)) == high
  {
  }

  /** A word is its high and low bytes put back together. */
  lemma WordOfBytes(w: u16)
    ensures Word(High(w), Low(w)) == w
  {
  }

  /** A byte read as a two's-complement signed value (Rust `as i8`). */
  function Signed(v: u8): (s: int)
    ensures -128 <= s < 128
    ensures s % 0x100 == v
  {
    if v < 0x80 then v else v - 0x100
  }
}
