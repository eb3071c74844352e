/** The 6502 register file: the status flags, the registers at reset and
    the three interrupt vectors read from the top of the address space. */
module Processor {
  import opened Wrappers
  import opened Bytes
  import opened Memory

  // Bit positions of the status flags in `p`.
  const CARRY: nat := 0
  const ZERO: nat := 1
  const INTERRUPT: nat := 2
  const DECIMAL: nat := 3
  const BREAK: nat := 4
  const ENABLED: nat := 5
  const OVERFLOW: nat := 6
  const NEGATIVE: nat := 7

  /** The status flags are the single bits 0x01 through 0x80, carry lowest
      and negative highest. */
  lemma FlagMasks()
    ensures BitValue(CARRY) == 0x01 && BitValue(ZERO) == 0x02
    ensures BitValue(INTERRUPT) == 0x04 && BitValue(DECIMAL) == 0x08
    ensures BitValue(BREAK) == 0x10 && BitValue(ENABLED) == 0x20
    ensures BitValue(OVERFLOW) == 0x40 && BitValue(NEGATIVE) == 0x80
  {
  }

  /** `p.set(flag, on)`: flag k becomes `on`, every other bit is kept. */
  function SetFlag(p: u8, k: nat, on: bool): (r: u8)
    requires k < 8
    ensures forall j :: 0 <= j < 8 ==> Bit(r, j) == if j == k then on else Bit(p, j)
  {
    BitOfByteOf(BitsOf(p)[k := on]);
    ByteOf(BitsOf(p)[k := on])
  }

  /** The registers; `p` holds the raw status byte. */
  datatype Registers = Registers(pc: u16, a: u8, x: u8, y: u8, p: u8, sp: u8)

  /** Registers::new: everything cleared except the stack pointer, which
      starts at 0xFD, and the status byte, which has ENABLED and INTERRUPT. */
  function NewRegisters(pc: u16): (r: Registers)
    ensures r.pc == pc && r.a == 0 && r.x == 0 && r.y == 0 && r.sp == 0xFD
    ensures forall k :: 0 <= k < 8 ==> (Bit(r.p, k) <==> k == ENABLED || k == INTERRUPT)
    ensures r.p == 0x24
  {
    Registers(pc, 0, 0, 0, 0x24, 0xFD)
  }

  datatype Vectors = Vectors(nmi: u16, reset: u16, interrupt: u16)

  /** The vector used when its read fails. */
  const DEFAULT_VECTOR: u16 := 0x8000

  /** `get_short(..).unwrap_or(DEFAULT)`: a failed read gives the default;
      a read that aborts the program aborts it here too. */
  function VectorOr(r: Result<u16, MemoryError>): (v: Result<u16, Panic>)
    ensures r.Ok? ==> v == Ok(r.value)
    ensures r.Err? && !r.error.Aborted? ==> v == Ok(DEFAULT_VECTOR)
    ensures v.Err? <==> r.Err? && r.error.Aborted?
  {
    match r
    case Ok(w) => Ok(w)
    case Err(Aborted(p)) => Err(p)
    case Err(_) => Ok(DEFAULT_VECTOR)
  }

  /** Vectors::new: the words at 0xFFFA, 0xFFFC and 0xFFFE, in that order. */
  function VectorsSpec(b: Bus, prg: seq<u8>, chr: seq<u8>): (out: (Result<Vectors, Panic>, Bus))
    requires BusShape(b)
    ensures BusShape(out.1)
  {
    var (nmi, b1) := GetShortSpec(b, prg, chr, 0xFFFA);
    var (reset, b2) := GetShortSpec(b1, prg, chr, 0xFFFC);
    var (interrupt, b3) := GetShortSpec(b2, prg, chr, 0xFFFE);
    match (VectorOr(nmi), VectorOr(reset), VectorOr(interrupt))
    case (Ok(n), Ok(r), Ok(i)) => (Ok(Vectors(n, r, i)), b3)
    case (Err(p), _, _) => (Err(p), b3)
    case (_, Err(p), _) => (Err(p), b3)
    case (_, _, Err(p)) => (Err(p), b3)
  }

  /** The little-endian word of program ROM at a CPU address of 0x8000 or
      more, the ROM mirrored over the upper half of the address space. */
  function PrgWord(prg: seq<u8>, address: u16): u16
    requires |prg| > 0 && 0x8000 <= address < 0xFFFF
  {
    Word(prg[(address + 1 - 0x8000) % |prg|], prg[(address - 0x8000) % |prg|])
  }

  /** With a program ROM the vectors are its last three words, the default
      is never used, and the reads cost six cycles and change nothing else. */
  lemma VectorsFromRom(b: Bus, prg: seq<u8>, chr: seq<u8>)
    requires BusShape(b) && |prg| > 0
    ensures VectorsSpec(b, prg, chr) ==
      (Ok(Vectors(PrgWord(prg, 0xFFFA), PrgWord(prg, 0xFFFC), PrgWord(prg, 0xFFFE))), b.(cycles := b.cycles + 6))
  {
    GetShortLittleEndian(b, prg, chr, 0xFFFA);
    var b1 := b.(cycles := b.cycles + 2);
    GetShortLittleEndian(b1, prg, chr, 0xFFFC);
    var b2 := b.(cycles := b.cycles + 4);
    GetShortLittleEndian(b2, prg, chr, 0xFFFE);
  }

  /** Without a program ROM the first vector read aborts (a remainder by
      zero), so Cpu::new cannot complete. */
  lemma VectorsWithoutRom(b: Bus, prg: seq<u8>, chr: seq<u8>)
    requires BusShape(b) && |prg| == 0
    ensures VectorsSpec(b, prg, chr).0 == Err(DivisionByZero)
  {
    assert ReadTargetOf(0xFFFA) == ReadPrg(0x7FFA);
    assert GetShortSpec(b, prg, chr, 0xFFFA).0 == Err(MemoryError.Aborted(DivisionByZero));
  }
}
