/** The standard joypad: eight button flags read out one bit per access
    through a serial shift register whose position is a free-running clock. */
module Controller {
  import opened Bytes

  /** The ControllerFlags bits, in the order the shift register reports them. */
  const A: u8 := 0x01
  const B: u8 := 0x02
  const SELECT: u8 := 0x04
  const START: u8 := 0x08
  const UP: u8 := 0x10
  const DOWN: u8 := 0x20
  const LEFT: u8 := 0x40
  const RIGHT: u8 := 0x80

  /** The flag reported at serial position k (0 = A ... 7 = RIGHT). */
  function ButtonAt(k: nat): u8
    requires k < 8
  {
    [A, B, SELECT, START, UP, DOWN, LEFT, RIGHT][k]
  }

  /** The serial output for a given clock: whether bit `clock % 8` of the
      flags is set, as 1 or 0. */
  function SerialBit(flags: u8, clock: nat): (v: u8)
    ensures v == 0 || v == 1
    ensures v == 1 <==> Bit(flags, clock % 8)
  {
    MaskIsBit(flags, clock % 8);
    if And(flags, BitValue(clock % 8)) != 0 then 1 else 0
  }

  /** Masking with 2^c leaves something exactly when bit c is set. */
  lemma MaskIsBit(flags: u8, c: nat)
    requires c < 8
    ensures And(flags, BitValue(c)) != 0 <==> Bit(flags, c)
  {
    forall k | 0 <= k < 8 ensures Bit(BitValue(c), k) <==> c == k {
      BitOfBitValue(c, k);
    }
    ZeroIffNoBits(And(flags, BitValue(c)));
  }

  /** Serial position k reports flag 2^k. */
  lemma ButtonAtIsBitValue(k: nat)
    requires k < 8
    ensures ButtonAt(k) == BitValue(k)
  {
  }

  /** The second port's device: always reads 0. */
  function NoControllerRead(): u8
  {
    0
  }

  /** The second port reads like a controller with nothing pressed, at any
      clock. */
  lemma NoControllerUnpressed(clock: nat)
    ensures NoControllerRead() == SerialBit(0, clock)
  {
    MaskIsBit(0, clock % 8);
  }

  class GenericController {
    var clock: nat
    var flags: u8

    /** The default controller: clock 0, nothing pressed. */
    constructor ()
      ensures clock == 0 && flags == 0
    {
      clock := 0;
      flags := 0;
    }

    /** Replaces every flag; the clock is untouched. */
    method Press(newFlags: u8)
      modifies this
      ensures flags == newFlags && clock == old(clock)
    {
      flags := newFlags;
    }

    /** Sets (or clears) the bits of `flag`, leaving every other bit and the
        clock as they were. */
    method Set(flag: u8, value: bool)
      modifies this
      ensures clock == old(clock)
      ensures forall k :: 0 <= k < 8 ==>
        Bit(flags, k) == (if Bit(flag, k) then value else Bit(old(flags), k))
    {
      if value {
        flags := Or(flags, flag);
      } else {
        flags := And(flags, Not(flag));
      }
    }

    /** Reports the current serial bit and advances the clock by one. */
    method Read() returns (v: u8)
      modifies this
      ensures v == SerialBit(old(flags), old(clock))
      ensures clock == old(clock) + 1 && flags == old(flags)
    {
      var position := clock % 8;
      var pressed := And(flags, BitValue(position)) != 0;
      clock := clock + 1;
      v := if pressed then 1 else 0;
    }
  }

  /** What n reads in a row report, starting at a given clock. */
  function Reads(flags: u8, clock: nat, n: nat): (out: seq<u8>)
    ensures |out| == n
    ensures forall i :: 0 <= i < n ==> out[i] == SerialBit(flags, clock + i)
  {
    var out := seq<u8>(n, i requires 0 <= i < n => SerialBit(flags, clock + i));
    out
  }

  /** The serial output repeats every eight reads. */
  lemma SerialPeriod(flags: u8, clock: nat)
    ensures SerialBit(flags, clock + 8) == SerialBit(flags, clock)
  {
    assert (clock + 8) % 8 == clock % 8;
  }

  lemma SamePosition(clock: nat, k: nat)
    requires clock % 8 == 0 && k < 8
    ensures (clock + k) % 8 == k
  {
  }

  /** Eight reads from a clock that is a multiple of 8 report A, B, SELECT,
      START, UP, DOWN, LEFT, RIGHT in that order. */
  lemma EightReadsInOrder(flags: u8, clock: nat)
    requires clock % 8 == 0
    ensures forall k :: 0 <= k < 8 ==>
      (Reads(flags, clock, 8)[k] == 1 <==> And(flags, ButtonAt(k)) != 0)
  {
    var out := Reads(flags, clock, 8);
    forall k | 0 <= k < 8
      ensures out[k] == 1 <==> And(flags, ButtonAt(k)) != 0
    {
      SamePosition(clock, k);
      ButtonAtIsBitValue(k);
      MaskIsBit(flags, k);
    }
  }

  /** Putting those eight reported bits back together gives exactly the
      pressed flags. */
  lemma EightReadsRecoverFlags(flags: u8, clock: nat)
    requires clock % 8 == 0
    ensures ByteOf(seq(8, k requires 0 <= k < 8 => Reads(flags, clock, 8)[k] == 1)) == flags
  {
    var out := Reads(flags, clock, 8);
    var bits := seq(8, k requires 0 <= k < 8 => out[k] == 1);
    forall k | 0 <= k < 8 ensures bits[k] == Bit(flags, k) {
      SamePosition(clock, k);
    }
    ByteOfSameBits(flags, bits);
  }
}
