/** The 6502 interpreter: the arithmetic and shift units with their flags,
    the addressing helpers, the stack, branches and interrupts, every
    operation of the instruction set and the fetch-decode-execute step, all
    driving the bus and its cycle counter. */
module Interpreter {
  import opened Wrappers
  import opened Bytes
  import Rom
  import opened Memory
  import opened Processor
  import opened Decoder
  import Disassembler
  import Controller

  datatype CpuError =
    | InvalidOp(op: u8)
    | MemoryFailure(error: MemoryError)
    | Break
    | Stop
      /** The Rust code panics here instead of returning an error. */
    | Aborted(reason: Panic)

  /** The `?` conversion from a memory error. A memory access that panics
      ends the program, so it stays a panic. */
  function Lift(e: MemoryError): (c: CpuError)
    ensures c.Aborted? <==> e.Aborted?
    ensures !e.Aborted? ==> c == MemoryFailure(e)
  {
    match e
    case Aborted(p) => CpuError.Aborted(p)
    case _ => MemoryFailure(e)
  }

  // ---------------------------------------------------------------------
  // Flags and the arithmetic unit

  /** set_flags: ZERO says the value is 0, NEGATIVE copies its top bit, and
      no other flag changes. */
  function SetFlags(p: u8, value: u8): (r: u8)
    ensures Bit(r, ZERO) <==> value == 0
    ensures Bit(r, NEGATIVE) <==> value >= 0x80
    ensures forall k :: 0 <= k < 8 && k != ZERO && k != NEGATIVE ==> Bit(r, k) == Bit(p, k)
  {
    SetFlag(SetFlag(p, ZERO, value == 0), NEGATIVE, Bit(value, 7))
  }

  /** What `add` computes besides the flags it takes from the result. */
  datatype Sum = Sum(value: u8, carry: bool, overflow: bool)

  /** add(a, b) with carry in `c`: the result and the carry out are those
      of the nine-bit sum a + b + c. */
  function Add(a: u8, b: u8, c: bool): (s: Sum)
    ensures s.value == (a + b + Digit(c)) % 0x100
    ensures s.carry <==> a + b + Digit(c) >= 0x100
  {
    var result := (a + b) % 0x100;
    var carry := a + b >= 0x100;
    var overflow := !(-128 <= Signed(a) + Signed(b) < 128);
    if c then Sum((result + 1) % 0x100, carry || result == 0xFF, overflow || Signed(result) == 127)
    else Sum(result, carry, overflow)
  }

  /** The overflow flag is set when the signed sum a + b + c leaves
      [-128, 128), and also, with carry in, when the signed a + b alone is
      -129: its wrapped intermediate is 127, which is what the code tests,
      although the true signed sum, -128, fits. */
  lemma AddOverflow(a: u8, b: u8, c: bool)
    ensures Add(a, b, c).overflow <==>
      !(-128 <= Signed(a) + Signed(b) + Digit(c) < 128) || (c && Signed(a) + Signed(b) == -129)
  {
    var t := Signed(a) + Signed(b);
    var result := (a + b) % 0x100;
    assert (t - (a + b)) % 0x100 == 0;
    assert Signed(result) == 127 <==> t == 127 || t == -129 by {
      assert (Signed(result) - t) % 0x100 == 0;
    }
  }

  /** The registers after `add`: A holds the sum, C and V come from it, Z
      and N from the result. */
  function AddTo(r: Registers, value: u8): (r': Registers)
    ensures var s := Add(r.a, value, Bit(r.p, CARRY));
      r'.a == s.value && Bit(r'.p, CARRY) == s.carry && Bit(r'.p, OVERFLOW) == s.overflow
    ensures Bit(r'.p, ZERO) <==> r'.a == 0
    ensures Bit(r'.p, NEGATIVE) <==> r'.a >= 0x80
    ensures r'.x == r.x && r'.y == r.y && r'.sp == r.sp && r'.pc == r.pc
  {
    var s := Add(r.a, value, Bit(r.p, CARRY));
    r.(a := s.value, p := SetFlag(SetFlag(SetFlags(r.p, s.value), CARRY, s.carry), OVERFLOW, s.overflow))
  }

  /** `sub` is `add` of the complement: A - value - (1 - C) modulo 256, with
      the carry set exactly when nothing was borrowed. */
  function SubFrom(r: Registers, value: u8): (r': Registers)
    ensures r'.a == (r.a - value - (1 - Digit(Bit(r.p, CARRY)))) % 0x100
    ensures Bit(r'.p, CARRY) <==> r.a >= value + 1 - Digit(Bit(r.p, CARRY))
    ensures r'.x == r.x && r'.y == r.y && r'.sp == r.sp && r'.pc == r.pc
  {
    SubArithmetic(r, value);
    AddTo(r, Not(value))
  }

  /** Adding the complement subtracts, borrowing when the carry is clear. */
  lemma SubArithmetic(r: Registers, v: u8)
    ensures AddTo(r, Not(v)).a == (r.a - v - (1 - Digit(Bit(r.p, CARRY)))) % 0x100
    ensures Bit(AddTo(r, Not(v)).p, CARRY) <==> r.a >= v + 1 - Digit(Bit(r.p, CARRY))
  {
    assert Not(v) == 0xFF - v;
    ComplementSum(r.a, v, Digit(Bit(r.p, CARRY)));
  }

  /** The nine-bit sum of a, the complement of v and c is a - v - (1 - c)
      modulo 256, and carries exactly when nothing is borrowed. */
  lemma ComplementSum(a: u8, v: u8, c: nat)
    requires c <= 1
    ensures (a + (0xFF - v) + c) % 0x100 == (a - v - (1 - c)) % 0x100
    ensures a + (0xFF - v) + c >= 0x100 <==> a >= v + 1 - c
  {
    assert a + (0xFF - v) + c == (a - v - (1 - c)) + 0x100;
  }

  /** cmp: the flags of reg - value; C says reg >= value, Z says they are
      equal, N is the top bit of the difference, and nothing else changes. */
  function Compare(p: u8, reg: u8, value: u8): (r: u8)
    ensures Bit(r, CARRY) <==> reg >= value
    ensures Bit(r, ZERO) <==> reg == value
    ensures Bit(r, NEGATIVE) <==> (reg - value) % 0x100 >= 0x80
    ensures forall k :: 0 <= k < 8 && k != CARRY && k != ZERO && k != NEGATIVE ==> Bit(r, k) == Bit(p, k)
  {
    var d := (reg - value) % 0x100;
    assert d == 0 <==> reg == value;
    var q := SetFlags(p, d);
    SetFlag(q, CARRY, reg >= value)
  }

  /** bit: Z from A & value, N and V copied from bits 7 and 6 of the value. */
  function BitTest(p: u8, a: u8, value: u8): (r: u8)
    ensures Bit(r, ZERO) <==> forall k :: 0 <= k < 8 ==> !(Bit(a, k) && Bit(value, k))
    ensures Bit(r, NEGATIVE) == Bit(value, 7) && Bit(r, OVERFLOW) == Bit(value, 6)
    ensures forall k :: 0 <= k < 8 && k != ZERO && k != NEGATIVE && k != OVERFLOW ==> Bit(r, k) == Bit(p, k)
  {
    BitsOfZero(And(a, value));
    SetFlag(SetFlag(SetFlag(p, ZERO, And(a, value) == 0), NEGATIVE, Bit(value, 7)), OVERFLOW, Bit(value, 6))
  }

  /** A byte is zero exactly when none of its bits is set. */
  lemma BitsOfZero(v: u8)
    ensures v == 0 <==> forall k :: 0 <= k < 8 ==> !Bit(v, k)
  {
    if v != 0 {
      assert Bit(v, 0) || Bit(v, 1) || Bit(v, 2) || Bit(v, 3) || Bit(v, 4) || Bit(v, 5) || Bit(v, 6) || Bit(v, 7);
    }
  }

  // ---------------------------------------------------------------------
  // Shifts and rotates

  /** A shifted byte and the bit shifted out of it. */
  datatype Shifted = Shifted(value: u8, carry: bool)

  /** asl: the nine bits carry:value are the input doubled. */
  function Asl(v: u8): (s: Shifted)
    ensures s.value + 0x100 * Digit(s.carry) == 2 * v
  {
    Shifted((2 * v) % 0x100, Bit(v, 7))
  }

  /** lsr: the input is twice the result plus the bit shifted out. */
  function Lsr(v: u8): (s: Shifted)
    ensures 2 * s.value + Digit(s.carry) == v
  {
    Shifted(v / 2, Bit(v, 0))
  }

  /** rol: carry:value is the input doubled plus the old carry. */
  function Rol(v: u8, c: bool): (s: Shifted)
    ensures s.value + 0x100 * Digit(s.carry) == 2 * v + Digit(c)
  {
    Shifted((2 * v) % 0x100 + Digit(c), Bit(v, 7))
  }

  /** ror: old carry:input is twice the result plus the bit shifted out. */
  function Ror(v: u8, c: bool): (s: Shifted)
    ensures 2 * s.value + Digit(s.carry) == v + 0x100 * Digit(c)
  {
    Shifted(v / 2 + 0x80 * Digit(c), Bit(v, 0))
  }

  /** ror undoes rol, value and carry. */
  lemma RorAfterRol(v: u8, c: bool)
    ensures var s := Rol(v, c); Ror(s.value, s.carry) == Shifted(v, c)
  {
    var s := Rol(v, c);
    var t := Ror(s.value, s.carry);
    assert 2 * t.value + Digit(t.carry) == 2 * v + Digit(c);
    assert t.carry == c by {
      assert (2 * t.value + Digit(t.carry)) % 2 == Digit(t.carry);
      assert (2 * v + Digit(c)) % 2 == Digit(c);
    }
  }

  /** rol undoes ror, value and carry. */
  lemma RolAfterRor(v: u8, c: bool)
    ensures var s := Ror(v, c); Rol(s.value, s.carry) == Shifted(v, c)
  {
    var s := Ror(v, c);
    var t := Rol(s.value, s.carry);
    assert t.value + 0x100 * Digit(t.carry) == v + 0x100 * Digit(c);
  }

  /** The shift an operation performs. */
  function ShiftBy(m: Mnemonic, v: u8, c: bool): Shifted
  {
    match m
    case ASL => Asl(v)
    case LSR => Lsr(v)
    case ROL => Rol(v, c)
    case _ => Ror(v, c)
  }

  // ---------------------------------------------------------------------
  // The status byte on the stack

  /** What php and interrupt push: p with ENABLED and BREAK set. */
  function PushedStatus(p: u8): (v: u8)
    ensures forall k :: 0 <= k < 8 ==> Bit(v, k) == (k == ENABLED || k == BREAK || Bit(p, k))
  {
    SetFlag(SetFlag(p, ENABLED, true), BREAK, true)
  }

  /** What plp and rti make of a pulled byte: ENABLED forced on, BREAK
      forced off, every other flag as pulled. */
  function PulledStatus(v: u8): (p: u8)
    ensures forall k :: 0 <= k < 8 ==> Bit(p, k) == (k == ENABLED || (k != BREAK && Bit(v, k)))
  {
    SetFlag(SetFlag(v, ENABLED, true), BREAK, false)
  }

  /** Pushing and pulling the status gives back every flag but BREAK, which
      comes back clear, and ENABLED, which comes back set. */
  lemma {:induction false} StatusRoundTrip(p: u8)
    ensures PulledStatus(PushedStatus(p)) == SetFlag(SetFlag(p, ENABLED, true), BREAK, false)
  {
    var q := PulledStatus(PushedStatus(p));
    var r := SetFlag(SetFlag(p, ENABLED, true), BREAK, false);
    SameBits(q, r);
  }

  /** Two bytes with the same bits are equal. */
  lemma SameBits(u: u8, v: u8)
    requires forall k :: 0 <= k < 8 ==> Bit(u, k) == Bit(v, k)
    ensures u == v
  {
    ByteOfBitsOf(u);
    ByteOfBitsOf(v);
    assert BitsOf(u) == BitsOf(v);
  }

  // ---------------------------------------------------------------------
  // Branches

  /** branch's new pc: (pc as i16).wrapping_add(rel as i8 as i16) as u16. */
  function BranchTarget(pc: u16, rel: u8): (t: u16)
    ensures t == (pc + Signed(rel)) % 0x1_0000
  {
    var s := Disassembler.SignedWord(pc);
    assert (s - pc) % 0x1_0000 == 0;
    Disassembler.WrappingAddI16(s, Signed(rel)) % 0x1_0000
  }

  /** The disassembler prints the address a taken branch jumps to: from a
      branch at `at`, the CPU branches from at + 2 to compute_target's
      answer. */
  lemma BranchMatchesDisassembly(at: u16, rel: u8)
    ensures BranchTarget((at + 2) % 0x1_0000, rel) == Disassembler.ComputeTarget(rel, at)
  {
    Disassembler.TargetArithmetic(rel, at);
  }

  /** Whether a branch is taken, from its flag test. */
  predicate Taken(m: Mnemonic, p: u8)
  {
    match m
    case BPL => !Bit(p, NEGATIVE)
    case BMI => Bit(p, NEGATIVE)
    case BVC => !Bit(p, OVERFLOW)
    case BVS => Bit(p, OVERFLOW)
    case BCC => !Bit(p, CARRY)
    case BCS => Bit(p, CARRY)
    case BNE => !Bit(p, ZERO)
    case _ => Bit(p, ZERO)
  }

  // ---------------------------------------------------------------------
  // The machine: the registers and the bus behind them

  datatype Machine = Machine(registers: Registers, bus: Bus)

  /** memory.cycle() and memory.cycle_many(n). */
  function Tick(s: Machine, n: nat): (t: Machine)
    requires BusShape(s.bus)
    ensures BusShape(t.bus) && t.registers == s.registers
  {
    s.(bus := s.bus.(cycles := s.bus.cycles + n))
  }

  /** The machine after the extra cycle an indexed access spends when
      address + offset leaves the address's page, if it does. */
  function CrossWait(s: Machine, address: u16, offset: u8): (t: Machine)
    requires BusShape(s.bus)
    ensures BusShape(t.bus) && t.registers == s.registers
  {
    if Crosses(address, offset) then Tick(s, 1) else s
  }

  /** memory.get as the CPU sees it: the registers stay as they are. */
  function BusGet(s: Machine, rom: Rom.Rom, address: u16): (out: (Result<u8, MemoryError>, Machine))
    requires BusShape(s.bus)
    ensures BusShape(out.1.bus) && out.1.registers == s.registers
  {
    var (r, b) := GetSpec(s.bus, rom.prg_rom, rom.chr_rom, address);
    (r, Machine(s.registers, b))
  }

  /** memory.set as the CPU sees it. */
  function BusSet(s: Machine, rom: Rom.Rom, address: u16, value: u8): (out: (Result<(), MemoryError>, Machine))
    requires BusShape(s.bus)
    ensures BusShape(out.1.bus) && out.1.registers == s.registers
  {
    var (r, b) := SetSpec(s.bus, rom.prg_rom, rom.chr_rom, address, value);
    (r, Machine(s.registers, b))
  }

  // ---------------------------------------------------------------------
  // Addressing helpers

  /** get_ptr: a pointer stored in page zero, its high byte at the next
      address of page zero. */
  function GetPtrSpec(s: Machine, rom: Rom.Rom, offset: u8): (out: (Result<u16, MemoryError>, Machine))
    requires BusShape(s.bus)
    ensures BusShape(out.1.bus) && out.1.registers == s.registers
  {
    var (low, s1) := BusGet(s, rom, offset);
    match low
    case Err(e) => (Err(e), s1)
    case Ok(lo) =>
      var (high, s2) := BusGet(s1, rom, (offset + 1) % 0x100);
      match high
      case Err(e) => (Err(e), s2)
      case Ok(hi) => (Ok(Word(hi, lo)), s2)
  }

  /** The address get_ptr_a reads the high byte from: the low byte plus one,
      wrapping inside the page. */
  function PageNext(address: u16): (n: u16)
    ensures High(n) == High(address) && Low(n) == (Low(address) + 1) % 0x100
  {
    Word(High(address), (Low(address) + 1) % 0x100)
  }

  /** get_ptr_a: the pointer of jmp (ind). */
  function GetPtrASpec(s: Machine, rom: Rom.Rom, address: u16): (out: (Result<u16, MemoryError>, Machine))
    requires BusShape(s.bus)
    ensures BusShape(out.1.bus) && out.1.registers == s.registers
  {
    var (low, s1) := BusGet(s, rom, address);
    match low
    case Err(e) => (Err(e), s1)
    case Ok(lo) =>
      var (high, s2) := BusGet(s1, rom, PageNext(address));
      match high
      case Err(e) => (Err(e), s2)
      case Ok(hi) => (Ok(Word(hi, lo)), s2)
  }

  /** get_zpo: a cycle, then the byte at offset + register in page zero. */
  function GetZpoSpec(s: Machine, rom: Rom.Rom, offset: u8, register: u8): (out: (Result<u8, MemoryError>, Machine))
    requires BusShape(s.bus)
    ensures BusShape(out.1.bus) && out.1.registers == s.registers
  {
    BusGet(Tick(s, 1), rom, (offset + register) % 0x100)
  }

  /** Whether adding the index to the address's low byte carries into the
      high byte: the page-crossing penalty. */
  predicate Crosses(address: u16, offset: u8)
  {
    Low(address) + offset > 0xFF
  }

  /** get_ao: a cycle if the index crosses a page, then the byte at
      address + offset, wrapping at 0xFFFF. */
  function GetAoSpec(s: Machine, rom: Rom.Rom, address: u16, offset: u8): (out: (Result<u8, MemoryError>, Machine))
    requires BusShape(s.bus)
    ensures BusShape(out.1.bus) && out.1.registers == s.registers
  {
    IndexedGet(s, rom, address, offset)
  }

  /** The indexed read shared by get_ao and get_do: a cycle if the index
      crosses a page, then the byte at address + index, wrapping. */
  function IndexedGet(s: Machine, rom: Rom.Rom, address: u16, index: u8): (out: (Result<u8, MemoryError>, Machine))
    requires BusShape(s.bus)
    ensures BusShape(out.1.bus) && out.1.registers == s.registers
  {
    BusGet(CrossWait(s, address, index), rom, (address + index) % 0x1_0000)
  }

  /** get_di, (zp,X): the pointer at offset + register in page zero, a
      cycle, then the byte it points at. */
  function GetDiSpec(s: Machine, rom: Rom.Rom, offset: u8, register: u8): (out: (Result<u8, MemoryError>, Machine))
    requires BusShape(s.bus)
    ensures BusShape(out.1.bus) && out.1.registers == s.registers
  {
    var (pointer, s1) := GetPtrSpec(s, rom, (offset + register) % 0x100);
    match pointer
    case Err(e) => (Err(e), s1)
    case Ok(p) => BusGet(Tick(s1, 1), rom, p)
  }

  /** get_do, (zp),Y: the pointer at offset, a cycle if the index crosses
      a page, then the byte at pointer + register, wrapping. */
  function GetDoSpec(s: Machine, rom: Rom.Rom, offset: u8, register: u8): (out: (Result<u8, MemoryError>, Machine))
    requires BusShape(s.bus)
    ensures BusShape(out.1.bus) && out.1.registers == s.registers
  {
    var (pointer, s1) := GetPtrSpec(s, rom, offset);
    match pointer
    case Err(e) => (Err(e), s1)
    case Ok(p) => IndexedGet(s1, rom, p, register)
  }

  /** When the pointer read succeeds, get_do reads at the pointer plus the
      index, a cycle later if that crosses a page. */
  lemma GetDoOk(s: Machine, rom: Rom.Rom, offset: u8, register: u8, p: u16, s1: Machine)
    requires BusShape(s.bus) && GetPtrSpec(s, rom, offset) == (Ok(p), s1)
    ensures GetDoSpec(s, rom, offset, register) == IndexedGet(s1, rom, p, register)
  {
    var (pointer, t1) := GetPtrSpec(s, rom, offset);
    assert pointer == Ok(p) && t1 == s1;
  }

  /** set_di: as get_di, ending in a write. */
  function SetDiSpec(s: Machine, rom: Rom.Rom, offset: u8, register: u8, value: u8): (out: (Result<(), MemoryError>, Machine))
    requires BusShape(s.bus)
    ensures BusShape(out.1.bus) && out.1.registers == s.registers
  {
    var (pointer, s1) := GetPtrSpec(s, rom, (offset + register) % 0x100);
    match pointer
    case Err(e) => (Err(e), s1)
    case Ok(p) => BusSet(Tick(s1, 1), rom, p, value)
  }

  /** set_do: as get_do, ending in a write; the sum pointer + register is
      not wrapped, so past 0xFFFF it panics. */
  function SetDoSpec(s: Machine, rom: Rom.Rom, offset: u8, register: u8, value: u8): (out: (Result<(), MemoryError>, Machine))
    requires BusShape(s.bus)
    ensures BusShape(out.1.bus) && out.1.registers == s.registers
  {
    var (pointer, s1) := GetPtrSpec(s, rom, offset);
    match pointer
    case Err(e) => (Err(e), s1)
    case Ok(p) =>
      var s2 := CrossWait(s1, p, register);
      if p + register > 0xFFFF then (Err(MemoryError.Aborted(ArithmeticOverflow)), s2)
      else BusSet(s2, rom, p + register, value)
  }

  /** When the pointer read succeeds, set_do fails on an index past 0xFFFF
      and otherwise writes at the pointer plus the index. */
  lemma SetDoOk(s: Machine, rom: Rom.Rom, offset: u8, register: u8, value: u8, p: u16, s1: Machine)
    requires BusShape(s.bus) && GetPtrSpec(s, rom, offset) == (Ok(p), s1)
    ensures SetDoSpec(s, rom, offset, register, value) ==
      if p + register > 0xFFFF then (Err(MemoryError.Aborted(ArithmeticOverflow)), CrossWait(s1, p, register))
      else BusSet(CrossWait(s1, p, register), rom, p + register, value)
  {
    var (pointer, t1) := GetPtrSpec(s, rom, offset);
    assert pointer == Ok(p) && t1 == s1;
  }

  // ---------------------------------------------------------------------
  // The stack, in page one

  /** push: write at 0x100 + sp, then sp := sp - 1, wrapping. */
  function PushSpec(s: Machine, rom: Rom.Rom, value: u8): (out: (Result<(), MemoryError>, Machine))
    requires BusShape(s.bus)
    ensures BusShape(out.1.bus)
  {
    var (r, s1) := BusSet(s, rom, 0x100 + s.registers.sp, value);
    match r
    case Err(e) => (Err(e), s1)
    case Ok(_) => (Ok(()), s1.(registers := s1.registers.(sp := (s1.registers.sp + 0xFF) % 0x100)))
  }

  /** push_address: the high byte first, then the low byte. */
  function PushAddressSpec(s: Machine, rom: Rom.Rom, address: u16): (out: (Result<(), MemoryError>, Machine))
    requires BusShape(s.bus)
    ensures BusShape(out.1.bus)
  {
    var (r, s1) := PushSpec(s, rom, High(address));
    match r
    case Err(e) => (Err(e), s1)
    case Ok(_) => PushSpec(s1, rom, Low(address))
  }

  /** pop: sp := sp + 1, wrapping, then read at 0x100 + sp. */
  function PopSpec(s: Machine, rom: Rom.Rom): (out: (Result<u8, MemoryError>, Machine))
    requires BusShape(s.bus)
    ensures BusShape(out.1.bus)
  {
    var s1 := s.(registers := s.registers.(sp := (s.registers.sp + 1) % 0x100));
    BusGet(s1, rom, 0x100 + s1.registers.sp)
  }

  /** pop_address: the low byte first, then the high byte. */
  function PopAddressSpec(s: Machine, rom: Rom.Rom): (out: (Result<u16, MemoryError>, Machine))
    requires BusShape(s.bus)
    ensures BusShape(out.1.bus)
  {
    var (low, s1) := PopSpec(s, rom);
    match low
    case Err(e) => (Err(e), s1)
    case Ok(lo) =>
      var (high, s2) := PopSpec(s1, rom);
      match high
      case Err(e) => (Err(e), s2)
      case Ok(hi) => (Ok(Word(hi, lo)), s2)
  }

  /** interrupt: push pc and the status with ENABLED and BREAK set, then
      continue at `pc`. No cycles of its own beyond the three writes. */
  function InterruptSpec(s: Machine, rom: Rom.Rom, pc: u16): (out: (Result<(), MemoryError>, Machine))
    requires BusShape(s.bus)
    ensures BusShape(out.1.bus)
  {
    var (r1, s1) := PushAddressSpec(s, rom, s.registers.pc);
    match r1
    case Err(e) => (Err(e), s1)
    case Ok(_) =>
      var (r2, s2) := PushSpec(s1, rom, PushedStatus(s1.registers.p));
      match r2
      case Err(e) => (Err(e), s2)
      case Ok(_) => (Ok(()), s2.(registers := s2.registers.(pc := pc)))
  }

  // ---------------------------------------------------------------------
  // The operations, family by family

  /** A memory error ends the operation; otherwise `extra` cycles follow. */
  function Finish(out: (Result<(), MemoryError>, Machine), extra: nat): (r: (Result<(), CpuError>, Machine))
    requires BusShape(out.1.bus)
    ensures BusShape(r.1.bus)
  {
    match out.0
    case Err(e) => (Err(Lift(e)), out.1)
    case Ok(_) => (Ok(()), Tick(out.1, extra))
  }

  /** The operand of a reading operation: the immediate byte or the byte
      at the address its mode computes. */
  function ReadSpec(s: Machine, rom: Rom.Rom, mode: Mode, operand: u16): (out: (Result<u8, MemoryError>, Machine))
    requires BusShape(s.bus)
    ensures BusShape(out.1.bus) && out.1.registers == s.registers
  {
    var r := s.registers;
    match mode
    case Immediate => (Ok(Low(operand)), s)
    case ZeroPage => BusGet(s, rom, Low(operand))
    case ZeroPageX => GetZpoSpec(s, rom, Low(operand), r.x)
    case ZeroPageY => GetZpoSpec(s, rom, Low(operand), r.y)
    case Absolute => BusGet(s, rom, operand)
    case AbsoluteX => GetAoSpec(s, rom, operand, r.x)
    case AbsoluteY => GetAoSpec(s, rom, operand, r.y)
    case IndirectX => GetDiSpec(s, rom, Low(operand), r.x)
    case IndirectY => GetDoSpec(s, rom, Low(operand), r.y)
    // The decoder pairs no reading operation with the other modes.
    case _ => (Ok(0), s)
  }

  /** The registers after a reading operation got the value `v`. */
  function Combine(m: Mnemonic, r: Registers, v: u8): Registers
  {
    match m
    case LDA => r.(a := v, p := SetFlags(r.p, v))
    case LDX => r.(x := v, p := SetFlags(r.p, v))
    case LDY => r.(y := v, p := SetFlags(r.p, v))
    case ORA => r.(a := Or(r.a, v), p := SetFlags(r.p, Or(r.a, v)))
    case AND => r.(a := And(r.a, v), p := SetFlags(r.p, And(r.a, v)))
    case EOR => r.(a := Xor(r.a, v), p := SetFlags(r.p, Xor(r.a, v)))
    case ADC => AddTo(r, v)
    case SBC => SubFrom(r, v)
    case CMP => r.(p := Compare(r.p, r.a, v))
    case CPX => r.(p := Compare(r.p, r.x, v))
    case CPY => r.(p := Compare(r.p, r.y, v))
    case BIT => r.(p := BitTest(r.p, r.a, v))
    case _ => r
  }

  /** lda, ldx, ldy, ora, and, eor, adc, sbc, cmp, cpx, cpy and bit: read the
      operand, then update the registers; a failed read changes no
      register. */
  function ReadOpSpec(s: Machine, rom: Rom.Rom, i: Instruction): (out: (Result<(), CpuError>, Machine))
    requires BusShape(s.bus)
    ensures BusShape(out.1.bus)
  {
    var (v, s1) := ReadSpec(s, rom, i.code.mode, i.operand);
    match v
    case Err(e) => (Err(Lift(e)), s1)
    case Ok(x) => (Ok(()), s1.(registers := Combine(i.code.mnemonic, s1.registers, x)))
  }

  /** The register a store writes. */
  function StoredValue(m: Mnemonic, r: Registers): u8
  {
    match m
    case STX => r.x
    case STY => r.y
    case _ => r.a
  }

  /** The address and the extra cycles of a store that needs no pointer. */
  function StoreTarget(mode: Mode, o: u16, r: Registers): (u16, nat)
  {
    match mode
    case ZeroPageX => ((Low(o) + r.x) % 0x100, 1)
    case ZeroPageY => ((Low(o) + r.y) % 0x100, 1)
    case Absolute => (o, 0)
    case AbsoluteX => ((o + r.x) % 0x1_0000, 1)
    case AbsoluteY => ((o + r.y) % 0x1_0000, 1)
    case _ => (Low(o), 0)
  }

  /** sta, stx and sty: the write by mode, and the extra cycle of the
      indexed modes and of (zp),Y. */
  function StoreOpSpec(s: Machine, rom: Rom.Rom, i: Instruction): (out: (Result<(), CpuError>, Machine))
    requires BusShape(s.bus)
    ensures BusShape(out.1.bus)
  {
    var r := s.registers;
    var v := StoredValue(i.code.mnemonic, r);
    match i.code.mode
    case ZeroPage | ZeroPageX | ZeroPageY | Absolute | AbsoluteX | AbsoluteY =>
      var (address, extra) := StoreTarget(i.code.mode, i.operand, r);
      Finish(BusSet(s, rom, address, v), extra)
    case IndirectX => Finish(SetDiSpec(s, rom, Low(i.operand), r.x, v), 0)
    case IndirectY => Finish(SetDoSpec(s, rom, Low(i.operand), r.y, v), 1)
    // The decoder pairs no store with the other modes.
    case _ => (Ok(()), s)
  }

  /** The asl, lsr, rol and ror helpers: Z and N from the result, the bit
      shifted out into C, then a cycle. */
  function ShiftSpec(s: Machine, m: Mnemonic, v: u8): (out: (u8, Machine))
    requires BusShape(s.bus)
    ensures BusShape(out.1.bus)
  {
    var r := s.registers;
    var sh := ShiftBy(m, v, Bit(r.p, CARRY));
    (sh.value, Tick(s.(registers := r.(p := SetFlag(SetFlags(r.p, sh.value), CARRY, sh.carry))), 1))
  }

  /** The memory forms of a shift: the shift of what `read` got, written
      back to `address`, and `extra` cycles after the write. */
  function ShiftAt(read: (Result<u8, MemoryError>, Machine), rom: Rom.Rom, m: Mnemonic, address: u16, extra: nat): (out: (Result<(), CpuError>, Machine))
    requires BusShape(read.1.bus)
    ensures BusShape(out.1.bus)
  {
    match read.0
    case Err(e) => (Err(Lift(e)), read.1)
    case Ok(input) =>
      var (value, s1) := ShiftSpec(read.1, m, input);
      Finish(BusSet(s1, rom, address, value), extra)
  }

  /** The address a memory shift writes back to, and its extra cycles. */
  function ShiftTarget(mode: Mode, o: u16, x: u8): (u16, nat)
  {
    match mode
    case ZeroPageX => ((Low(o) + x) % 0x100, 0)
    case Absolute => (o, 0)
    case AbsoluteX => ((o + x) % 0x1_0000, 1)
    case _ => (Low(o), 0)
  }

  /** asl, lsr, rol and ror: on A, or read as the reading operations do,
      shift and write back. */
  function ShiftOpSpec(s: Machine, rom: Rom.Rom, i: Instruction): (out: (Result<(), CpuError>, Machine))
    requires BusShape(s.bus)
    ensures BusShape(out.1.bus)
  {
    var m := i.code.mnemonic;
    match i.code.mode
    case Accumulator =>
      var (value, s1) := ShiftSpec(s, m, s.registers.a);
      (Ok(()), s1.(registers := s1.registers.(a := value)))
    case ZeroPage | ZeroPageX | Absolute | AbsoluteX =>
      var (address, extra) := ShiftTarget(i.code.mode, i.operand, s.registers.x);
      ShiftAt(ReadSpec(s, rom, i.code.mode, i.operand), rom, m, address, extra)
    // The decoder pairs no shift with the other modes.
    case _ => (Ok(()), s)
  }

  /** inc and dec at an address: read, add or subtract one with
      wrap-around, Z and N from the result, `cycles` cycles, write back. */
  function CountAt(s: Machine, rom: Rom.Rom, m: Mnemonic, address: u16, cycles: nat): (out: (Result<(), CpuError>, Machine))
    requires BusShape(s.bus)
    ensures BusShape(out.1.bus)
  {
    WriteCount(BusGet(s, rom, address), rom, m, address, cycles)
  }

  /** The second half of inc and dec, given what the read got: the new
      value, Z and N from it, `cycles` cycles, and the write. */
  function WriteCount(read: (Result<u8, MemoryError>, Machine), rom: Rom.Rom, m: Mnemonic, address: u16, cycles: nat): (out: (Result<(), CpuError>, Machine))
    requires BusShape(read.1.bus)
    ensures BusShape(out.1.bus)
  {
    match read.0
    case Err(e) => (Err(Lift(e)), read.1)
    case Ok(v) => WriteCounted(read.1, rom, Stepped(m, v), address, cycles)
  }

  /** The value inc and dec write back: one more or one less, wrapping. */
  function Stepped(m: Mnemonic, v: u8): u8
  {
    if m == INC then (v + 1) % 0x100 else (v + 0xFF) % 0x100
  }

  /** The write of inc and dec once the new value `w` is known. */
  function WriteCounted(s: Machine, rom: Rom.Rom, w: u8, address: u16, cycles: nat): (out: (Result<(), CpuError>, Machine))
    requires BusShape(s.bus)
    ensures BusShape(out.1.bus)
  {
    Finish(BusSet(Tick(s.(registers := s.registers.(p := SetFlags(s.registers.p, w))), cycles), rom, address, w), 0)
  }

  /** The address inc and dec work on, and their cycles before the write. */
  function CountTarget(mode: Mode, o: u16, x: u8): (u16, nat)
  {
    match mode
    case ZeroPageX => (if Low(o) + x > 0xFF then 0 else Low(o) + x, 2)
    case Absolute => (o, 1)
    case AbsoluteX => ((o + x) % 0x1_0000, 2)
    case _ => (Low(o), 1)
  }

  /** inc and dec. The zero-page indexed form adds X without wrapping, so
      past 0xFF it panics. */
  function CountOpSpec(s: Machine, rom: Rom.Rom, i: Instruction): (out: (Result<(), CpuError>, Machine))
    requires BusShape(s.bus)
    ensures BusShape(out.1.bus)
  {
    var x := s.registers.x;
    match i.code.mode
    case ZeroPage | ZeroPageX | Absolute | AbsoluteX =>
      if i.code.mode == ZeroPageX && Low(i.operand) + x > 0xFF then (Err(CpuError.Aborted(ArithmeticOverflow)), s)
      else
        var (address, cycles) := CountTarget(i.code.mode, i.operand, x);
        CountAt(s, rom, i.code.mnemonic, address, cycles)
    // The decoder pairs inc and dec with no other mode.
    case _ => (Ok(()), s)
  }

  /** The register-only operations: increments and decrements of X and Y,
      the transfers, and the flag instructions. */
  function Transfer(m: Mnemonic, r: Registers): Registers
  {
    match m
    case INX => var x := (r.x + 1) % 0x100; r.(x := x, p := SetFlags(r.p, x))
    case INY => var y := (r.y + 1) % 0x100; r.(y := y, p := SetFlags(r.p, y))
    case DEX => var x := (r.x + 0xFF) % 0x100; r.(x := x, p := SetFlags(r.p, x))
    case DEY => var y := (r.y + 0xFF) % 0x100; r.(y := y, p := SetFlags(r.p, y))
    case TAX => r.(x := r.a, p := SetFlags(r.p, r.a))
    case TAY => r.(y := r.a, p := SetFlags(r.p, r.a))
    case TXA => r.(a := r.x, p := SetFlags(r.p, r.x))
    case TYA => r.(a := r.y, p := SetFlags(r.p, r.y))
    case TSX => r.(x := r.sp, p := SetFlags(r.p, r.sp))
    case TXS => r.(sp := r.x)
    case CLC => r.(p := SetFlag(r.p, CARRY, false))
    case SEC => r.(p := SetFlag(r.p, CARRY, true))
    case CLI => r.(p := SetFlag(r.p, INTERRUPT, false))
    case SEI => r.(p := SetFlag(r.p, INTERRUPT, true))
    case CLV => r.(p := SetFlag(r.p, OVERFLOW, false))
    case CLD => r.(p := SetFlag(r.p, DECIMAL, false))
    case SED => r.(p := SetFlag(r.p, DECIMAL, true))
    case _ => r
  }

  /** A register-only operation and its one cycle. */
  function TransferOpSpec(s: Machine, i: Instruction): (out: (Result<(), CpuError>, Machine))
    requires BusShape(s.bus)
    ensures BusShape(out.1.bus)
  {
    (Ok(()), Tick(s.(registers := Transfer(i.code.mnemonic, s.registers)), 1))
  }

  /** The nop forms: cycles only, never a bus access. */
  function NopSpec(s: Machine, i: Instruction): (out: (Result<(), CpuError>, Machine))
    requires BusShape(s.bus)
    ensures BusShape(out.1.bus)
  {
    match i.code.mode
    case Implied => (Ok(()), Tick(s, 1))
    case ZeroPage => (Ok(()), Tick(s, 1))
    case ZeroPageX => (Ok(()), Tick(s, 2))
    case Absolute => (Ok(()), Tick(s, 1))
    case AbsoluteX => (Ok(()), Tick(s, if Crosses(i.operand, s.registers.x) then 2 else 1))
    case _ => (Ok(()), s)
  }

  /** pla and plp: pull a byte, give it to A (with Z and N) or to the
      status (ENABLED on, BREAK off), then two cycles. */
  function PullSpec(s: Machine, rom: Rom.Rom, toStatus: bool): (out: (Result<(), CpuError>, Machine))
    requires BusShape(s.bus)
    ensures BusShape(out.1.bus)
  {
    var (v, s1) := PopSpec(s, rom);
    match v
    case Err(e) => (Err(Lift(e)), s1)
    case Ok(b) => (Ok(()), Tick(s1.(registers := Pulled(s1.registers, b, toStatus)), 2))
  }

  /** The registers after plp or pla pulled `b`: the status, or A with Z
      and N from it. */
  function Pulled(r: Registers, b: u8, toStatus: bool): Registers
  {
    if toStatus then r.(p := PulledStatus(b)) else r.(a := b, p := SetFlags(r.p, b))
  }

  /** pha and php: push a byte, then a cycle. */
  function PushOpSpec(s: Machine, rom: Rom.Rom, v: u8): (out: (Result<(), CpuError>, Machine))
    requires BusShape(s.bus)
    ensures BusShape(out.1.bus)
  {
    Finish(PushSpec(s, rom, v), 1)
  }

  /** pha, php, pla and plp. */
  function StackOpSpec(s: Machine, rom: Rom.Rom, i: Instruction): (out: (Result<(), CpuError>, Machine))
    requires BusShape(s.bus)
    ensures BusShape(out.1.bus)
  {
    var m := i.code.mnemonic;
    if m == PHA || m == PHP then PushOpSpec(s, rom, StackByte(m, s.registers))
    else PullSpec(s, rom, m != PLA)
  }

  /** The byte pha or php pushes: A, or the status as pushed. */
  function StackByte(m: Mnemonic, r: Registers): u8
  {
    if m == PHA then r.a else PushedStatus(r.p)
  }

  /** jmp: straight to the operand, or through the pointer at it; no cycle
      of its own. */
  function JumpSpec(s: Machine, rom: Rom.Rom, mode: Mode, o: u16): (out: (Result<(), CpuError>, Machine))
    requires BusShape(s.bus)
    ensures BusShape(out.1.bus)
  {
    if mode == Indirect then
      var (target, s1) := GetPtrASpec(s, rom, o);
      match target
      case Err(e) => (Err(Lift(e)), s1)
      case Ok(t) => (Ok(()), s1.(registers := s1.registers.(pc := t)))
    else (Ok(()), s.(registers := s.registers.(pc := o)))
  }

  /** jsr: push pc - 1, which panics when pc is 0, jump, one cycle. */
  function CallSpec(s: Machine, rom: Rom.Rom, o: u16): (out: (Result<(), CpuError>, Machine))
    requires BusShape(s.bus)
    ensures BusShape(out.1.bus)
  {
    if s.registers.pc == 0 then (Err(CpuError.Aborted(ArithmeticOverflow)), s)
    else
      var (r, s1) := PushAddressSpec(s, rom, s.registers.pc - 1);
      match r
      case Err(e) => (Err(Lift(e)), s1)
      case Ok(_) => (Ok(()), Tick(s1.(registers := s1.registers.(pc := o)), 1))
  }

  /** rti: pull the status, then pc, then two cycles. */
  function ReturnFromInterruptSpec(s: Machine, rom: Rom.Rom): (out: (Result<(), CpuError>, Machine))
    requires BusShape(s.bus)
    ensures BusShape(out.1.bus)
  {
    var (v, s1) := PopSpec(s, rom);
    match v
    case Err(e) => (Err(Lift(e)), s1)
    case Ok(b) =>
      var (w, s2) := PopAddressSpec(s1.(registers := s1.registers.(p := PulledStatus(b))), rom);
      match w
      case Err(e) => (Err(Lift(e)), s2)
      case Ok(t) => (Ok(()), Tick(s2.(registers := s2.registers.(pc := t)), 2))
  }

  /** rts: pull an address and continue one past it, which panics when the
      address is 0xFFFF; three cycles. */
  function ReturnSpec(s: Machine, rom: Rom.Rom): (out: (Result<(), CpuError>, Machine))
    requires BusShape(s.bus)
    ensures BusShape(out.1.bus)
  {
    var (w, s1) := PopAddressSpec(s, rom);
    match w
    case Err(e) => (Err(Lift(e)), s1)
    case Ok(t) =>
      if t + 1 > 0xFFFF then (Err(CpuError.Aborted(ArithmeticOverflow)), s1)
      else (Ok(()), Tick(s1.(registers := s1.registers.(pc := t + 1)), 3))
  }

  /** brk, stp, jmp, jsr, rti and rts. */
  function ControlOpSpec(s: Machine, rom: Rom.Rom, i: Instruction): (out: (Result<(), CpuError>, Machine))
    requires BusShape(s.bus)
    ensures BusShape(out.1.bus)
  {
    var m := i.code.mnemonic;
    if m == BRK then (Err(Break), s)
    else if m == STP then (Err(Stop), s)
    else if m == JMP || m == JSR then EnterSpec(s, rom, i)
    else LeaveSpec(s, rom, i)
  }

  /** jmp and jsr. */
  function EnterSpec(s: Machine, rom: Rom.Rom, i: Instruction): (out: (Result<(), CpuError>, Machine))
    requires BusShape(s.bus)
    ensures BusShape(out.1.bus)
  {
    if i.code.mnemonic == JMP then JumpSpec(s, rom, i.code.mode, i.operand) else CallSpec(s, rom, i.operand)
  }

  /** rti and rts. */
  function LeaveSpec(s: Machine, rom: Rom.Rom, i: Instruction): (out: (Result<(), CpuError>, Machine))
    requires BusShape(s.bus)
    ensures BusShape(out.1.bus)
  {
    if i.code.mnemonic == RTI then ReturnFromInterruptSpec(s, rom) else ReturnSpec(s, rom)
  }

  /** branch: a cycle, pc moved by the signed offset with wrap-around, and
      one more cycle when the high byte of pc changed. */
  function BranchSpec(s: Machine, rel: u8): (t: Machine)
    requires BusShape(s.bus)
    ensures BusShape(t.bus)
  {
    var s1 := Tick(s, 1);
    var start := s1.registers.pc;
    var pc := BranchTarget(start, rel);
    var s2 := s1.(registers := s1.registers.(pc := pc));
    if High(start) != High(pc) then Tick(s2, 1) else s2
  }

  /** The eight branches: branch when the flag test holds, else nothing. */
  function BranchOpSpec(s: Machine, i: Instruction): (out: (Result<(), CpuError>, Machine))
    requires BusShape(s.bus)
    ensures BusShape(out.1.bus)
  {
    (Ok(()), if Taken(i.code.mnemonic, s.registers.p) then BranchSpec(s, Low(i.operand)) else s)
  }

  /** How the operations group by what they do. */
  datatype Family = Reading | Storing | Shifting | Counting | Transferring | Waiting | Stacking | Controlling | Branching

  function FamilyOf(m: Mnemonic): Family
  {
    match m
    case LDA | LDX | LDY | ORA | AND | EOR | ADC | SBC | CMP | CPX | CPY | BIT => Reading
    case STA | STX | STY => Storing
    case ASL | LSR | ROL | ROR => Shifting
    case INC | DEC => Counting
    case NOP => Waiting
    case PHA | PHP | PLA | PLP => Stacking
    case BRK | STP | JMP | JSR | RTI | RTS => Controlling
    case BPL | BMI | BVC | BVS | BCC | BCS | BNE | BEQ => Branching
    case _ => Transferring
  }

  /** `Decoder<Result<(), CpuError>> for Cpu`: one decoded instruction. */
  function ExecuteSpec(s: Machine, rom: Rom.Rom, i: Instruction): (out: (Result<(), CpuError>, Machine))
    requires BusShape(s.bus)
    ensures BusShape(out.1.bus)
  {
    match FamilyOf(i.code.mnemonic)
    case Reading => ReadOpSpec(s, rom, i)
    case Storing => StoreOpSpec(s, rom, i)
    case Shifting => ShiftOpSpec(s, rom, i)
    case Counting => CountOpSpec(s, rom, i)
    case Transferring => TransferOpSpec(s, i)
    case Waiting => NopSpec(s, i)
    case Stacking => StackOpSpec(s, rom, i)
    case Controlling => ControlOpSpec(s, rom, i)
    case Branching => BranchOpSpec(s, i)
  }

  // ---------------------------------------------------------------------
  // Fetch, decode and step

  /** The `next` closure of step: a read at pc, then pc += 1, which panics
      at 0xFFFF; a failed read is None. */
  function FetchSpec(s: Machine, rom: Rom.Rom): (out: (Result<Option<u8>, Panic>, Machine))
    requires BusShape(s.bus)
    ensures BusShape(out.1.bus)
  {
    var pc := s.registers.pc;
    var (v, s1) := BusGet(s, rom, pc);
    if v.Err? && v.error.Aborted? then (Err(v.error.reason), s1)
    else if pc == 0xFFFF then (Err(ArithmeticOverflow), s1)
    else (Ok(if v.Ok? then Some(v.value) else None), s1.(registers := s1.registers.(pc := pc + 1)))
  }

  /** decode driven by fetches from the bus: the opcode, then as many
      operand bytes as its mode takes, stopping at the first failed read. */
  function DecodeOnBus(s: Machine, rom: Rom.Rom): (out: (Result<Option<Instruction>, Panic>, Machine))
    requires BusShape(s.bus)
    ensures BusShape(out.1.bus)
  {
    var (first, s1) := FetchSpec(s, rom);
    match first
    case Err(p) => (Err(p), s1)
    case Ok(None) => (Ok(None), s1)
    case Ok(Some(op)) =>
      match Lookup(op)
      case None => (Ok(None), s1)
      case Some(code) => OperandOnBus(s1, rom, code)
  }

  /** The operand bytes of a decoded opcode, fetched from the bus. */
  function OperandOnBus(s: Machine, rom: Rom.Rom, code: Opcode): (out: (Result<Option<Instruction>, Panic>, Machine))
    requires BusShape(s.bus)
    ensures BusShape(out.1.bus)
  {
    if OperandBytes(code.mode) == 0 then (Ok(Some(Instruction(code, 0))), s)
    else
      var (second, s2) := FetchSpec(s, rom);
      match second
      case Err(p) => (Err(p), s2)
      case Ok(None) => (Ok(None), s2)
      case Ok(Some(low)) =>
        if OperandBytes(code.mode) == 1 then (Ok(Some(Instruction(code, low))), s2)
        else HighOnBus(s2, rom, code, low)
  }

  /** The high byte of an address operand, fetched from the bus. */
  function HighOnBus(s: Machine, rom: Rom.Rom, code: Opcode, low: u8): (out: (Result<Option<Instruction>, Panic>, Machine))
    requires BusShape(s.bus)
    ensures BusShape(out.1.bus)
  {
    var (third, s3) := FetchSpec(s, rom);
    match third
    case Err(p) => (Err(p), s3)
    case Ok(None) => (Ok(None), s3)
    case Ok(Some(high)) => (Ok(Some(Instruction(code, Word(high, low)))), s3)
  }

  /** step: decode and run one instruction. When decode gives None the
      byte at the original pc is read again: InvalidOp with that byte, or
      the memory error. */
  function StepSpec(s: Machine, rom: Rom.Rom): (out: (Result<(), CpuError>, Machine))
    requires BusShape(s.bus)
    ensures BusShape(out.1.bus)
  {
    var pc := s.registers.pc;
    var (decoded, s1) := DecodeOnBus(s, rom);
    match decoded
    case Err(p) => (Err(CpuError.Aborted(p)), s1)
    case Ok(Some(i)) => ExecuteSpec(s1, rom, i)
    case Ok(None) =>
      var (v, s2) := BusGet(s1, rom, pc);
      match v
      case Ok(op) => (Err(InvalidOp(op)), s2)
      case Err(e) => (Err(Lift(e)), s2)
  }

  // ---------------------------------------------------------------------
  // Stepping through program ROM

  /** The byte program ROM shows at a CPU address from 0x8000 up. */
  function PrgByte(prg: seq<u8>, address: nat): u8
    requires |prg| > 0 && 0x8000 <= address
  {
    prg[(address - 0x8000) % |prg|]
  }

  /** What the fetches of decode get from program ROM at pc and the two
      bytes after it: every read succeeds. */
  function PrgAnswers(prg: seq<u8>, pc: nat): seq<Option<u8>>
    requires |prg| > 0 && 0x8000 <= pc
  {
    [Some(PrgByte(prg, pc)), Some(PrgByte(prg, pc + 1)), Some(PrgByte(prg, pc + 2))]
  }

  /** A fetch from program ROM below 0xFFFF gets the byte, moves pc one
      further and takes one cycle. */
  lemma FetchPrg(s: Machine, rom: Rom.Rom)
    requires BusShape(s.bus) && |rom.prg_rom| > 0 && 0x8000 <= s.registers.pc < 0xFFFF
    ensures FetchSpec(s, rom) ==
      (Ok(Some(PrgByte(rom.prg_rom, s.registers.pc))),
       Machine(s.registers.(pc := s.registers.pc + 1), s.bus.(cycles := s.bus.cycles + 1)))
  {
    GetPrg(s.bus, rom.prg_rom, rom.chr_rom, s.registers.pc);
  }

  /** A fetch at 0xFFFF panics although the read succeeds: pc cannot move
      past the last address. */
  lemma FetchLastPanics(s: Machine, rom: Rom.Rom)
    requires BusShape(s.bus) && |rom.prg_rom| > 0 && s.registers.pc == 0xFFFF
    ensures FetchSpec(s, rom).0 == Err(ArithmeticOverflow)
  {
    GetPrg(s.bus, rom.prg_rom, rom.chr_rom, 0xFFFF);
  }

  /** Decoding from program ROM is the decoder reading the bytes at pc: the
      same instruction, or None for an opcode without an entry, with pc
      moved past the bytes read and one cycle per byte. */
  lemma {:induction false} DecodeFromPrg(s: Machine, rom: Rom.Rom)
    requires BusShape(s.bus) && |rom.prg_rom| > 0 && 0x8000 <= s.registers.pc <= 0xFFFC
    ensures var (d, calls) := Decode(PrgAnswers(rom.prg_rom, s.registers.pc));
      DecodeOnBus(s, rom) ==
        (Ok(d), Machine(s.registers.(pc := s.registers.pc + calls), s.bus.(cycles := s.bus.cycles + calls)))
  {
    var prg := rom.prg_rom;
    var pc := s.registers.pc;
    FetchPrg(s, rom);
    var s1 := Machine(s.registers.(pc := pc + 1), s.bus.(cycles := s.bus.cycles + 1));
    var s2 := Machine(s.registers.(pc := pc + 2), s.bus.(cycles := s.bus.cycles + 2));
    FetchPrg(s1, rom);
    FetchPrg(s2, rom);
  }

  /** step on an opcode without an entry in program ROM: InvalidOp with that
      byte, after its fetch and a second read of it. */
  lemma StepInvalidOp(s: Machine, rom: Rom.Rom)
    requires BusShape(s.bus) && |rom.prg_rom| > 0 && 0x8000 <= s.registers.pc < 0xFFFF
    requires Undefined(PrgByte(rom.prg_rom, s.registers.pc))
    ensures StepSpec(s, rom) ==
      (Err(InvalidOp(PrgByte(rom.prg_rom, s.registers.pc))),
       Machine(s.registers.(pc := s.registers.pc + 1), s.bus.(cycles := s.bus.cycles + 2)))
  {
    var pc := s.registers.pc;
    OpcodeTable(PrgByte(rom.prg_rom, pc));
    FetchPrg(s, rom);
    var s1 := Machine(s.registers.(pc := pc + 1), s.bus.(cycles := s.bus.cycles + 1));
    GetPrg(s1.bus, rom.prg_rom, rom.chr_rom, pc);
  }

  /** step on a decodable instruction in program ROM runs exactly the
      instruction the decoder reads there, from the machine with pc past
      it. */
  lemma StepExecutesDecoded(s: Machine, rom: Rom.Rom)
    requires BusShape(s.bus) && |rom.prg_rom| > 0 && 0x8000 <= s.registers.pc <= 0xFFFC
    ensures var (d, calls) := Decode(PrgAnswers(rom.prg_rom, s.registers.pc));
      d.Some? ==>
        StepSpec(s, rom) ==
          ExecuteSpec(Machine(s.registers.(pc := s.registers.pc + calls), s.bus.(cycles := s.bus.cycles + calls)), rom, d.value)
  {
    DecodeFromPrg(s, rom);
  }

  /** brk, once decoded, changes nothing and reports Break; stp likewise
      reports Stop. */
  lemma ExecuteHalts(s: Machine, rom: Rom.Rom, i: Instruction)
    requires BusShape(s.bus) && (i.code.mnemonic == BRK || i.code.mnemonic == STP)
    ensures ExecuteSpec(s, rom, i) == (if i.code.mnemonic == BRK then Err(Break) else Err(Stop), s)
  {
  }

  // ---------------------------------------------------------------------
  // The stack: what push and pop do, and what they undo

  /** push writes the byte to RAM at 0x100 + sp, moves sp down by one with
      wrap-around, takes one cycle and cannot fail. */
  lemma PushWritesStack(s: Machine, rom: Rom.Rom, v: u8)
    requires BusShape(s.bus)
    ensures PushSpec(s, rom, v) ==
      (Ok(()), Machine(s.registers.(sp := (s.registers.sp + 0xFF) % 0x100),
                       s.bus.(cycles := s.bus.cycles + 1, ram := s.bus.ram[0x100 + s.registers.sp := v])))
  {
    SetRam(s.bus, rom.prg_rom, rom.chr_rom, 0x100 + s.registers.sp, v);
  }

  /** pop moves sp up by one with wrap-around and reads RAM at the new
      0x100 + sp, in one cycle; it cannot fail. */
  lemma PopReadsStack(s: Machine, rom: Rom.Rom)
    requires BusShape(s.bus)
    ensures var sp := (s.registers.sp + 1) % 0x100;
      PopSpec(s, rom) == (Ok(s.bus.ram[0x100 + sp]), Machine(s.registers.(sp := sp), s.bus.(cycles := s.bus.cycles + 1)))
  {
    var sp := (s.registers.sp + 1) % 0x100;
    GetRam(s.bus, rom.prg_rom, rom.chr_rom, 0x100 + sp);
  }

  /** pop after push gives back the byte and the stack pointer, and the
      RAM keeps the byte in the stack slot. */
  lemma PushThenPop(s: Machine, rom: Rom.Rom, v: u8)
    requires BusShape(s.bus)
    ensures var s1 := PushSpec(s, rom, v).1;
      PopSpec(s1, rom) ==
        (Ok(v), Machine(s.registers, s.bus.(cycles := s.bus.cycles + 2, ram := s.bus.ram[0x100 + s.registers.sp := v])))
  {
    PushWritesStack(s, rom, v);
    PopReadsStack(PushSpec(s, rom, v).1, rom);
  }

  /** push_address stores the high byte at 0x100 + sp and the low byte
      just below it, leaving sp two lower, in two cycles. */
  lemma PushAddressWritesStack(s: Machine, rom: Rom.Rom, w: u16)
    requires BusShape(s.bus)
    ensures var sp := s.registers.sp;
      var below := (sp + 0xFF) % 0x100;
      PushAddressSpec(s, rom, w) ==
        (Ok(()), Machine(s.registers.(sp := (sp + 0xFE) % 0x100),
                         s.bus.(cycles := s.bus.cycles + 2, ram := s.bus.ram[0x100 + sp := High(w)][0x100 + below := Low(w)])))
  {
    PushWritesStack(s, rom, High(w));
    PushWritesStack(PushSpec(s, rom, High(w)).1, rom, Low(w));
  }

  /** pop_address reads the low byte just above sp and the high byte above
      that, leaving sp two higher, in two cycles. */
  lemma PopAddressReadsStack(s: Machine, rom: Rom.Rom)
    requires BusShape(s.bus)
    ensures var sp := s.registers.sp;
      var ram := s.bus.ram;
      PopAddressSpec(s, rom) ==
        (Ok(Word(ram[0x100 + (sp + 2) % 0x100], ram[0x100 + (sp + 1) % 0x100])),
         Machine(s.registers.(sp := (sp + 2) % 0x100), s.bus.(cycles := s.bus.cycles + 2)))
  {
    PopReadsStack(s, rom);
    PopReadsStack(PopSpec(s, rom).1, rom);
  }

  /** pop_address after push_address gives back the address and the stack
      pointer. */
  lemma {:induction false} PushAddressThenPopAddress(s: Machine, rom: Rom.Rom, w: u16)
    requires BusShape(s.bus)
    ensures var s1 := PushAddressSpec(s, rom, w).1;
      var (r, s2) := PopAddressSpec(s1, rom);
      r == Ok(w) && s2.registers == s.registers && s2.bus == s1.bus.(cycles := s.bus.cycles + 4)
  {
    var s1 := Machine(s.registers.(sp := (s.registers.sp + 0xFE) % 0x100),
      s.bus.(cycles := s.bus.cycles + 2, ram := s.bus.ram[0x100 + s.registers.sp := High(w)][0x100 + (s.registers.sp + 0xFF) % 0x100 := Low(w)]));
    var w2 := Word(s1.bus.ram[0x100 + (s1.registers.sp + 2) % 0x100], s1.bus.ram[0x100 + (s1.registers.sp + 1) % 0x100]);
    var s2 := Machine(s1.registers.(sp := (s1.registers.sp + 2) % 0x100), s1.bus.(cycles := s1.bus.cycles + 2));
    AddressSlotsRoundTrip(s, w, s1, w2, s2);
    PushAddressWritesStackAt(s, rom, w, s1);
    PopAddressReadsStackAt(s1, rom, w2, s2);
  }

  /** The word two pops read back above the slots two pushes wrote is the
      pushed word, with sp back where it was. */
  lemma AddressSlotsRoundTrip(s: Machine, w: u16, s1: Machine, w2: u16, s2: Machine)
    requires BusShape(s.bus)
    requires s1 == Machine(s.registers.(sp := (s.registers.sp + 0xFE) % 0x100),
      s.bus.(cycles := s.bus.cycles + 2, ram := s.bus.ram[0x100 + s.registers.sp := High(w)][0x100 + (s.registers.sp + 0xFF) % 0x100 := Low(w)]))
    requires w2 == Word(s1.bus.ram[0x100 + (s1.registers.sp + 2) % 0x100], s1.bus.ram[0x100 + (s1.registers.sp + 1) % 0x100])
    requires s2 == Machine(s1.registers.(sp := (s1.registers.sp + 2) % 0x100), s1.bus.(cycles := s1.bus.cycles + 2))
    ensures w2 == w && s2.registers == s.registers && s2.bus == s1.bus.(cycles := s.bus.cycles + 4)
  {
    StackSlots(s.registers.sp);
    WordOfBytes(w);
  }

  /** The slot arithmetic of the stack: two pushes leave sp two below, and
      the slot below sp is another slot. */
  lemma StackSlots(sp: u8)
    ensures ((sp + 0xFF) % 0x100 + 1) % 0x100 == sp
    ensures ((sp + 0xFE) % 0x100 + 1) % 0x100 == (sp + 0xFF) % 0x100
    ensures ((sp + 0xFE) % 0x100 + 2) % 0x100 == sp
    ensures (sp + 0xFF) % 0x100 != sp
  {
  }

  /** The slot arithmetic of three pushes: the three slots are distinct,
      and counting up from three below sp meets them in reverse order. */
  lemma StackSlots3(sp: u8)
    ensures ((sp + 0xFD) % 0x100 + 3) % 0x100 == sp && (sp + 0xFF) % 0x100 != sp
    ensures ((sp + 0xFE) % 0x100 + 0xFF) % 0x100 == (sp + 0xFD) % 0x100
    ensures ((sp + 0xFD) % 0x100 + 2) % 0x100 == (sp + 0xFF) % 0x100
    ensures ((sp + 0xFD) % 0x100 + 1) % 0x100 == (sp + 0xFE) % 0x100
    ensures ((sp + 0xFE) % 0x100 + 1) % 0x100 == (sp + 0xFF) % 0x100
    ensures ((sp + 0xFE) % 0x100 + 2) % 0x100 == sp
    ensures (sp + 0xFE) % 0x100 != sp && (sp + 0xFE) % 0x100 != (sp + 0xFF) % 0x100
  {
  }

  /** The machine after a jsr from a non-zero pc: pc - 1 on the stack,
      high byte first, sp two lower, pc at the target, three cycles. */
  function AfterCall(s: Machine, target: u16): (t: Machine)
    requires BusShape(s.bus) && s.registers.pc != 0
    ensures BusShape(t.bus)
  {
    var r := s.registers;
    var w := r.pc - 1;
    Machine(r.(sp := (r.sp + 0xFE) % 0x100, pc := target),
            s.bus.(cycles := s.bus.cycles + 3, ram := s.bus.ram[0x100 + r.sp := High(w)][0x100 + (r.sp + 0xFF) % 0x100 := Low(w)]))
  }

  /** jsr cannot fail once pc is not 0. */
  lemma CallEffect(s: Machine, rom: Rom.Rom, target: u16)
    requires BusShape(s.bus) && s.registers.pc != 0
    ensures CallSpec(s, rom, target) == (Ok(()), AfterCall(s, target))
  {
    PushAddressWritesStack(s, rom, s.registers.pc - 1);
  }

  /** rts: the address in the two stack slots above sp, low byte first,
      plus one; it panics when that address is 0xFFFF. */
  lemma ReturnEffect(s: Machine, rom: Rom.Rom)
    requires BusShape(s.bus)
    ensures var r := s.registers;
      var w := Word(s.bus.ram[0x100 + (r.sp + 2) % 0x100], s.bus.ram[0x100 + (r.sp + 1) % 0x100]);
      var popped := Machine(r.(sp := (r.sp + 2) % 0x100), s.bus.(cycles := s.bus.cycles + 2));
      ReturnSpec(s, rom) ==
        if w == 0xFFFF then (Err(CpuError.Aborted(ArithmeticOverflow)), popped)
        else (Ok(()), popped.(registers := popped.registers.(pc := w + 1), bus := popped.bus.(cycles := s.bus.cycles + 5)))
  {
    PopAddressReadsStack(s, rom);
  }

  /** What jsr leaves on the stack: the two slots above the new sp hold
      pc - 1, low byte first, and two pops bring sp back. */
  lemma CallLeavesReturnAddress(s: Machine, target: u16)
    requires BusShape(s.bus) && s.registers.pc != 0
    ensures var t := AfterCall(s, target);
      var sp := t.registers.sp;
      && Word(t.bus.ram[0x100 + (sp + 2) % 0x100], t.bus.ram[0x100 + (sp + 1) % 0x100]) == s.registers.pc - 1
      && (sp + 2) % 0x100 == s.registers.sp
  {
    var r := s.registers;
    var w := r.pc - 1;
    var t := AfterCall(s, target);
    var sp: int := t.registers.sp;
    var below: int := (r.sp + 0xFF) % 0x100;
    StackSlots(r.sp);
    assert (sp + 2) % 0x100 == r.sp && (sp + 1) % 0x100 == below;
    var ram := t.bus.ram;
    assert ram == s.bus.ram[0x100 + r.sp := High(w)][0x100 + below := Low(w)];
    assert ram[0x100 + below] == Low(w);
    assert ram[0x100 + r.sp] == High(w);
    WordOfBytes(w);
  }

  /** rts after jsr: the return lands on the pc jsr ran with, which is the
      byte after the jsr instruction; every register is as before, the
      stack bytes stay in RAM, and the pair takes eight cycles besides its
      fetches. */
  lemma CallThenReturn(s: Machine, rom: Rom.Rom, target: u16)
    requires BusShape(s.bus) && s.registers.pc != 0
    ensures var s1 := AfterCall(s, target);
      ReturnSpec(s1, rom) == (Ok(()), Machine(s.registers, s1.bus.(cycles := s.bus.cycles + 8)))
  {
    var s1 := AfterCall(s, target);
    var r1 := s1.registers;
    var ram := s1.bus.ram;
    var w := Word(ram[0x100 + (r1.sp + 2) % 0x100], ram[0x100 + (r1.sp + 1) % 0x100]);
    CallFrameReturns(s, target);
    ReturnLands(s1, rom, w);
  }

  /** rts from a frame whose address is not 0xFFFF lands one past it. */
  lemma ReturnLands(s: Machine, rom: Rom.Rom, w: u16)
    requires BusShape(s.bus)
    requires w == Word(s.bus.ram[0x100 + (s.registers.sp + 2) % 0x100], s.bus.ram[0x100 + (s.registers.sp + 1) % 0x100])
    requires w != 0xFFFF
    ensures ReturnSpec(s, rom) ==
      (Ok(()), Machine(s.registers.(sp := (s.registers.sp + 2) % 0x100, pc := w + 1), s.bus.(cycles := s.bus.cycles + 5)))
  {
    ReturnEffect(s, rom);
  }

  /** The frame jsr leaves is the one rts takes down: the address it holds
      is not 0xFFFF, and sp and pc come back as they were. */
  lemma CallFrameReturns(s: Machine, target: u16)
    requires BusShape(s.bus) && s.registers.pc != 0
    ensures var r1 := AfterCall(s, target).registers;
      var ram := AfterCall(s, target).bus.ram;
      var w := Word(ram[0x100 + (r1.sp + 2) % 0x100], ram[0x100 + (r1.sp + 1) % 0x100]);
      w != 0xFFFF && r1.(sp := (r1.sp + 2) % 0x100).(pc := w + 1) == s.registers
  {
    CallLeavesReturnAddress(s, target);
  }

  /** The machine after an interrupt: pc and then the pushed status on the
      stack, sp three lower, pc at the handler, three cycles. */
  function AfterInterrupt(s: Machine, handler: u16): (t: Machine)
    requires BusShape(s.bus)
    ensures BusShape(t.bus)
  {
    var r := s.registers;
    Machine(r.(sp := (r.sp + 0xFD) % 0x100, pc := handler),
            s.bus.(cycles := s.bus.cycles + 3,
                   ram := s.bus.ram[0x100 + r.sp := High(r.pc)][0x100 + (r.sp + 0xFF) % 0x100 := Low(r.pc)]
                                   [0x100 + (r.sp + 0xFE) % 0x100 := PushedStatus(r.p)]))
  }

  /** interrupt cannot fail: the stack is in RAM. */
  lemma InterruptEffect(s: Machine, rom: Rom.Rom, handler: u16)
    requires BusShape(s.bus)
    ensures InterruptSpec(s, rom, handler) == (Ok(()), AfterInterrupt(s, handler))
  {
    var s1 := Machine(s.registers.(sp := (s.registers.sp + 0xFE) % 0x100),
      s.bus.(cycles := s.bus.cycles + 2, ram := s.bus.ram[0x100 + s.registers.sp := High(s.registers.pc)][0x100 + (s.registers.sp + 0xFF) % 0x100 := Low(s.registers.pc)]));
    var v := PushedStatus(s1.registers.p);
    var s2 := Machine(s1.registers.(sp := (s1.registers.sp + 0xFF) % 0x100),
      s1.bus.(cycles := s1.bus.cycles + 1, ram := s1.bus.ram[0x100 + s1.registers.sp := v]));
    InterruptLands(s, handler, s1, v, s2);
    InterruptPushes(s, rom, handler, s1, v, s2);
  }

  /** The machine the two pushes of an interrupt leave, with pc at the
      handler, is the one AfterInterrupt describes. */
  lemma InterruptLands(s: Machine, handler: u16, s1: Machine, v: u8, s2: Machine)
    requires BusShape(s.bus)
    requires s1 == Machine(s.registers.(sp := (s.registers.sp + 0xFE) % 0x100),
      s.bus.(cycles := s.bus.cycles + 2, ram := s.bus.ram[0x100 + s.registers.sp := High(s.registers.pc)][0x100 + (s.registers.sp + 0xFF) % 0x100 := Low(s.registers.pc)]))
    requires v == PushedStatus(s1.registers.p)
    requires s2 == Machine(s1.registers.(sp := (s1.registers.sp + 0xFF) % 0x100),
      s1.bus.(cycles := s1.bus.cycles + 1, ram := s1.bus.ram[0x100 + s1.registers.sp := v]))
    ensures s2.(registers := s2.registers.(pc := handler)) == AfterInterrupt(s, handler)
  {
    ThirdSlot(s.registers.sp);
    assert s2.registers == s.registers.(sp := (s.registers.sp + 0xFD) % 0x100);
    assert s2.bus == s.bus.(cycles := s.bus.cycles + 3, ram := s1.bus.ram[0x100 + (s.registers.sp + 0xFE) % 0x100 := PushedStatus(s.registers.p)]);
  }

  /** Three pushes: the third lands two below the first and leaves sp three
      below. */
  lemma ThirdSlot(sp: u8)
    ensures ((sp + 0xFE) % 0x100 + 0xFF) % 0x100 == (sp + 0xFD) % 0x100
  {
  }

  /** The pushes of an interrupt write pc and then the status below it. */
  lemma InterruptPushes(s: Machine, rom: Rom.Rom, handler: u16, s1: Machine, v: u8, s2: Machine)
    requires BusShape(s.bus)
    requires s1 == Machine(s.registers.(sp := (s.registers.sp + 0xFE) % 0x100),
      s.bus.(cycles := s.bus.cycles + 2, ram := s.bus.ram[0x100 + s.registers.sp := High(s.registers.pc)][0x100 + (s.registers.sp + 0xFF) % 0x100 := Low(s.registers.pc)]))
    requires v == PushedStatus(s1.registers.p)
    requires s2 == Machine(s1.registers.(sp := (s1.registers.sp + 0xFF) % 0x100),
      s1.bus.(cycles := s1.bus.cycles + 1, ram := s1.bus.ram[0x100 + s1.registers.sp := v]))
    ensures InterruptSpec(s, rom, handler) == (Ok(()), s2.(registers := s2.registers.(pc := handler)))
  {
    PushAddressWritesStackAt(s, rom, s.registers.pc, s1);
    PushWritesStackAt(s1, rom, v, s2);
    InterruptSteps(s, rom, handler, s1, s2);
  }

  /** PushAddressWritesStack with the machine after named. */
  lemma PushAddressWritesStackAt(s: Machine, rom: Rom.Rom, w: u16, t: Machine)
    requires BusShape(s.bus)
    requires t == Machine(s.registers.(sp := (s.registers.sp + 0xFE) % 0x100),
      s.bus.(cycles := s.bus.cycles + 2, ram := s.bus.ram[0x100 + s.registers.sp := High(w)][0x100 + (s.registers.sp + 0xFF) % 0x100 := Low(w)]))
    ensures PushAddressSpec(s, rom, w) == (Ok(()), t)
  {
    PushAddressWritesStack(s, rom, w);
  }

  /** PushWritesStack with the machine after named. */
  lemma PushWritesStackAt(s: Machine, rom: Rom.Rom, v: u8, t: Machine)
    requires BusShape(s.bus)
    requires t == Machine(s.registers.(sp := (s.registers.sp + 0xFF) % 0x100),
      s.bus.(cycles := s.bus.cycles + 1, ram := s.bus.ram[0x100 + s.registers.sp := v]))
    ensures PushSpec(s, rom, v) == (Ok(()), t)
  {
    PushWritesStack(s, rom, v);
  }

  /** An interrupt whose two pushes succeed ends at the handler. */
  lemma InterruptSteps(s: Machine, rom: Rom.Rom, handler: u16, s1: Machine, s2: Machine)
    requires BusShape(s.bus) && BusShape(s1.bus)
    requires PushAddressSpec(s, rom, s.registers.pc) == (Ok(()), s1)
    requires PushSpec(s1, rom, PushedStatus(s1.registers.p)) == (Ok(()), s2)
    ensures InterruptSpec(s, rom, handler) == (Ok(()), s2.(registers := s2.registers.(pc := handler)))
  {
  }

  /** The machine after an rti: the status from the slot above sp, then pc
      from the two slots above that, low byte first; sp three higher, five
      cycles. */
  function AfterReturnFromInterrupt(s: Machine): (t: Machine)
    requires BusShape(s.bus)
    ensures BusShape(t.bus)
  {
    ReturnedTo(s, s.bus.ram[0x100 + (s.registers.sp + 1) % 0x100],
               Word(s.bus.ram[0x100 + (s.registers.sp + 3) % 0x100], s.bus.ram[0x100 + (s.registers.sp + 2) % 0x100]))
  }

  /** The machine an rti leaves once it has pulled the status byte b and
      the word w. */
  function ReturnedTo(s: Machine, b: u8, w: u16): (t: Machine)
    requires BusShape(s.bus)
    ensures BusShape(t.bus)
  {
    Machine(s.registers.(sp := (s.registers.sp + 3) % 0x100, p := PulledStatus(b), pc := w), s.bus.(cycles := s.bus.cycles + 5))
  }

  /** rti cannot fail: the stack is in RAM. */
  lemma ReturnFromInterruptEffect(s: Machine, rom: Rom.Rom)
    requires BusShape(s.bus)
    ensures ReturnFromInterruptSpec(s, rom) == (Ok(()), AfterReturnFromInterrupt(s))
  {
    var b := s.bus.ram[0x100 + (s.registers.sp + 1) % 0x100];
    var popped := Machine(s.registers.(sp := (s.registers.sp + 1) % 0x100), s.bus.(cycles := s.bus.cycles + 1));
    var s1 := popped.(registers := popped.registers.(p := PulledStatus(b)));
    var w := Word(s1.bus.ram[0x100 + (s1.registers.sp + 2) % 0x100], s1.bus.ram[0x100 + (s1.registers.sp + 1) % 0x100]);
    var s2 := Machine(s1.registers.(sp := (s1.registers.sp + 2) % 0x100), s1.bus.(cycles := s1.bus.cycles + 2));
    ReturnFromInterruptLands(s, b, popped, s1, w, s2);
    ReturnFromInterruptPops(s, rom, b, popped, s1, w, s2);
  }

  /** The three pops of an rti read the status byte and then the word
      above it. */
  lemma ReturnFromInterruptPops(s: Machine, rom: Rom.Rom, b: u8, popped: Machine, s1: Machine, w: u16, s2: Machine)
    requires BusShape(s.bus)
    requires b == s.bus.ram[0x100 + (s.registers.sp + 1) % 0x100]
    requires popped == Machine(s.registers.(sp := (s.registers.sp + 1) % 0x100), s.bus.(cycles := s.bus.cycles + 1))
    requires s1 == popped.(registers := popped.registers.(p := PulledStatus(b)))
    requires w == Word(s1.bus.ram[0x100 + (s1.registers.sp + 2) % 0x100], s1.bus.ram[0x100 + (s1.registers.sp + 1) % 0x100])
    requires s2 == Machine(s1.registers.(sp := (s1.registers.sp + 2) % 0x100), s1.bus.(cycles := s1.bus.cycles + 2))
    ensures ReturnFromInterruptSpec(s, rom) == (Ok(()), Tick(s2.(registers := s2.registers.(pc := w)), 2))
  {
    PopReadsStackAt(s, rom, b, popped);
    PopAddressReadsStackAt(s1, rom, w, s2);
    ReturnFromInterruptSteps(s, rom, b, popped, w, s2);
  }

  /** PopReadsStack with the byte and the machine after named. */
  lemma PopReadsStackAt(s: Machine, rom: Rom.Rom, b: u8, t: Machine)
    requires BusShape(s.bus)
    requires b == s.bus.ram[0x100 + (s.registers.sp + 1) % 0x100]
    requires t == Machine(s.registers.(sp := (s.registers.sp + 1) % 0x100), s.bus.(cycles := s.bus.cycles + 1))
    ensures PopSpec(s, rom) == (Ok(b), t)
  {
    PopReadsStack(s, rom);
  }

  /** PopAddressReadsStack with the word and the machine after named. */
  lemma PopAddressReadsStackAt(s: Machine, rom: Rom.Rom, w: u16, t: Machine)
    requires BusShape(s.bus)
    requires w == Word(s.bus.ram[0x100 + (s.registers.sp + 2) % 0x100], s.bus.ram[0x100 + (s.registers.sp + 1) % 0x100])
    requires t == Machine(s.registers.(sp := (s.registers.sp + 2) % 0x100), s.bus.(cycles := s.bus.cycles + 2))
    ensures PopAddressSpec(s, rom) == (Ok(w), t)
  {
    PopAddressReadsStack(s, rom);
  }

  /** The machine the three pops of an rti leave, two cycles later, is the
      one AfterReturnFromInterrupt describes. */
  lemma ReturnFromInterruptLands(s: Machine, b: u8, popped: Machine, s1: Machine, w: u16, s2: Machine)
    requires BusShape(s.bus)
    requires b == s.bus.ram[0x100 + (s.registers.sp + 1) % 0x100]
    requires popped == Machine(s.registers.(sp := (s.registers.sp + 1) % 0x100), s.bus.(cycles := s.bus.cycles + 1))
    requires s1 == popped.(registers := popped.registers.(p := PulledStatus(b)))
    requires w == Word(s1.bus.ram[0x100 + (s1.registers.sp + 2) % 0x100], s1.bus.ram[0x100 + (s1.registers.sp + 1) % 0x100])
    requires s2 == Machine(s1.registers.(sp := (s1.registers.sp + 2) % 0x100), s1.bus.(cycles := s1.bus.cycles + 2))
    ensures Tick(s2.(registers := s2.registers.(pc := w)), 2) == AfterReturnFromInterrupt(s)
  {
    StackSlotsUp(s.registers.sp);
    assert s1.bus.ram == s.bus.ram && s1.registers.sp == (s.registers.sp + 1) % 0x100;
    assert w == Word(s.bus.ram[0x100 + (s.registers.sp + 3) % 0x100], s.bus.ram[0x100 + (s.registers.sp + 2) % 0x100]);
    AfterReturnFromInterruptIs(s);
    assert s2.bus == s.bus.(cycles := s.bus.cycles + 3);
    assert s2.registers == s.registers.(sp := (s.registers.sp + 3) % 0x100, p := PulledStatus(b));
    assert ReturnedTo(s, b, w) == Tick(s2.(registers := s2.registers.(pc := w)), 2);
  }

  /** AfterReturnFromInterrupt is ReturnedTo of the bytes above sp. */
  lemma AfterReturnFromInterruptIs(s: Machine)
    requires BusShape(s.bus)
    ensures AfterReturnFromInterrupt(s) ==
      ReturnedTo(s, s.bus.ram[0x100 + (s.registers.sp + 1) % 0x100],
                 Word(s.bus.ram[0x100 + (s.registers.sp + 3) % 0x100], s.bus.ram[0x100 + (s.registers.sp + 2) % 0x100]))
  {
  }

  /** An rti whose pops succeed continues at the pulled address. */
  lemma ReturnFromInterruptSteps(s: Machine, rom: Rom.Rom, b: u8, popped: Machine, w: u16, s2: Machine)
    requires BusShape(s.bus) && BusShape(popped.bus)
    requires PopSpec(s, rom) == (Ok(b), popped)
    requires PopAddressSpec(popped.(registers := popped.registers.(p := PulledStatus(b))), rom) == (Ok(w), s2)
    ensures ReturnFromInterruptSpec(s, rom) == (Ok(()), Tick(s2.(registers := s2.registers.(pc := w)), 2))
  {
  }

  /** Three pops in a row: one pop then two land where three pops do. */
  lemma StackSlotsUp(sp: u8)
    ensures ((sp + 1) % 0x100 + 2) % 0x100 == (sp + 3) % 0x100
    ensures ((sp + 1) % 0x100 + 1) % 0x100 == (sp + 2) % 0x100
  {
  }

  /** What an interrupt leaves on the stack: the pushed status in the slot
      above the new sp, the interrupted pc in the two above that, and three
      pops bring sp back. */
  lemma InterruptLeavesFrame(s: Machine, handler: u16)
    requires BusShape(s.bus)
    ensures var t := AfterInterrupt(s, handler);
      var sp := t.registers.sp;
      var ram := t.bus.ram;
      && ram[0x100 + (sp + 1) % 0x100] == PushedStatus(s.registers.p)
      && Word(ram[0x100 + (sp + 3) % 0x100], ram[0x100 + (sp + 2) % 0x100]) == s.registers.pc
      && (sp + 3) % 0x100 == s.registers.sp
  {
    var t := AfterInterrupt(s, handler);
    InterruptSlots(s.bus.ram, s.registers.sp, s.registers.pc, PushedStatus(s.registers.p), t.bus.ram, t.registers.sp);
  }

  /** The three stack writes of an interrupt, read back from three slots
      above the final sp. */
  lemma InterruptSlots(ram: seq<u8>, sp: u8, pc: u16, v: u8, ram': seq<u8>, top: u8)
    requires |ram| == 0x800
    requires ram' == ram[0x100 + sp := High(pc)][0x100 + (sp + 0xFF) % 0x100 := Low(pc)][0x100 + (sp + 0xFE) % 0x100 := v]
    requires top == (sp + 0xFD) % 0x100
    ensures ram'[0x100 + (top + 1) % 0x100] == v
    ensures Word(ram'[0x100 + (top + 3) % 0x100], ram'[0x100 + (top + 2) % 0x100]) == pc
    ensures (top + 3) % 0x100 == sp
  {
    var below: int := (sp + 0xFF) % 0x100;
    var status: int := (sp + 0xFE) % 0x100;
    StackSlots3(sp);
    var ram1 := ram[0x100 + sp := High(pc)];
    var ram2 := ram1[0x100 + below := Low(pc)];
    var ram3 := ram2[0x100 + status := v];
    assert ram3[0x100 + status] == v;
    assert ram3[0x100 + below] == Low(pc);
    assert ram3[0x100 + sp] == High(pc);
    WordOfBytes(pc);
  }

  /** rti after an interrupt: back at the interrupted pc with every register
      as before, except that the status comes back through push and pull
      (BREAK clear, ENABLED set); eight cycles in all. */
  lemma InterruptThenReturn(s: Machine, rom: Rom.Rom, handler: u16)
    requires BusShape(s.bus)
    ensures var s1 := AfterInterrupt(s, handler);
      ReturnFromInterruptSpec(s1, rom) ==
        (Ok(()), Machine(s.registers.(p := PulledStatus(PushedStatus(s.registers.p))), s1.bus.(cycles := s.bus.cycles + 8)))
  {
    ReturnFromInterruptEffect(AfterInterrupt(s, handler), rom);
    InterruptFrameReturns(s, handler);
  }

  /** The frame an interrupt leaves is the one rti takes down. */
  lemma InterruptFrameReturns(s: Machine, handler: u16)
    requires BusShape(s.bus)
    ensures var s1 := AfterInterrupt(s, handler);
      AfterReturnFromInterrupt(s1) ==
        Machine(s.registers.(p := PulledStatus(PushedStatus(s.registers.p))), s1.bus.(cycles := s.bus.cycles + 8))
  {
    InterruptLeavesFrame(s, handler);
  }

  /** pha and php: the byte goes to the stack slot, sp moves down, two
      cycles. */
  lemma PushOpEffect(s: Machine, rom: Rom.Rom, v: u8)
    requires BusShape(s.bus)
    ensures var r := s.registers;
      PushOpSpec(s, rom, v) ==
        (Ok(()), Machine(r.(sp := (r.sp + 0xFF) % 0x100),
                         s.bus.(cycles := s.bus.cycles + 2, ram := s.bus.ram[0x100 + r.sp := v])))
  {
    PushWritesStack(s, rom, v);
  }

  /** pla: sp moves up and the byte in its slot goes to A, with Z and N
      set from it; three cycles. */
  lemma PullAEffect(s: Machine, rom: Rom.Rom)
    requires BusShape(s.bus)
    ensures var r := s.registers;
      var sp := (r.sp + 1) % 0x100;
      var v := s.bus.ram[0x100 + sp];
      PullSpec(s, rom, false) ==
        (Ok(()), Machine(r.(sp := sp, a := v, p := SetFlags(r.p, v)), s.bus.(cycles := s.bus.cycles + 3)))
  {
    PopReadsStack(s, rom);
    var sp := (s.registers.sp + 1) % 0x100;
    assert PopSpec(s, rom).0 == Ok(s.bus.ram[0x100 + sp]);
  }

  /** plp: sp moves up and the byte in its slot becomes the status, BREAK
      clear and ENABLED set; three cycles. */
  lemma PullStatusEffect(s: Machine, rom: Rom.Rom)
    requires BusShape(s.bus)
    ensures var r := s.registers;
      var sp := (r.sp + 1) % 0x100;
      PullSpec(s, rom, true) ==
        (Ok(()), Machine(r.(sp := sp, p := PulledStatus(s.bus.ram[0x100 + sp])), s.bus.(cycles := s.bus.cycles + 3)))
  {
    PopReadsStack(s, rom);
    var sp := (s.registers.sp + 1) % 0x100;
    assert PopSpec(s, rom).0 == Ok(s.bus.ram[0x100 + sp]);
  }

  /** php then plp: the status comes back with BREAK clear and ENABLED set,
      everything else as before; five cycles besides the fetches. */
  lemma PushStatusThenPull(s: Machine, rom: Rom.Rom)
    requires BusShape(s.bus)
    ensures var (r1, s1) := PushOpSpec(s, rom, PushedStatus(s.registers.p));
      var (r2, s2) := PullSpec(s1, rom, true);
      && r1 == Ok(()) && r2 == Ok(())
      && s2.registers == s.registers.(p := PulledStatus(PushedStatus(s.registers.p)))
      && s2.bus.cycles == s.bus.cycles + 5
  {
    var r := s.registers;
    var v := PushedStatus(r.p);
    var ram := s.bus.ram[0x100 + r.sp := v];
    var s1 := Machine(r.(sp := (r.sp + 0xFF) % 0x100), s.bus.(cycles := s.bus.cycles + 2, ram := ram));
    PushOpEffect(s, rom, v);
    assert PushOpSpec(s, rom, v) == (Ok(()), s1);
    StackSlots(r.sp);
    assert ram[0x100 + (s1.registers.sp + 1) % 0x100] == v;
    PullStatusEffect(s1, rom);
    assert PullSpec(s1, rom, true) == (Ok(()), Machine(r.(p := PulledStatus(v)), s1.bus.(cycles := s.bus.cycles + 5)));
  }

  /** pha then pla: A comes back, with Z and N set from it; five cycles
      besides the fetches. */
  lemma PushAThenPull(s: Machine, rom: Rom.Rom)
    requires BusShape(s.bus)
    ensures var (r1, s1) := PushOpSpec(s, rom, s.registers.a);
      var (r2, s2) := PullSpec(s1, rom, false);
      && r1 == Ok(()) && r2 == Ok(())
      && s2.registers == s.registers.(p := SetFlags(s.registers.p, s.registers.a))
      && s2.bus.cycles == s.bus.cycles + 5
  {
    var r := s.registers;
    var ram := s.bus.ram[0x100 + r.sp := r.a];
    var s1 := Machine(r.(sp := (r.sp + 0xFF) % 0x100), s.bus.(cycles := s.bus.cycles + 2, ram := ram));
    PushOpEffect(s, rom, r.a);
    assert PushOpSpec(s, rom, r.a) == (Ok(()), s1);
    StackSlots(r.sp);
    assert ram[0x100 + (s1.registers.sp + 1) % 0x100] == r.a;
    PullAEffect(s1, rom);
    assert PullSpec(s1, rom, false) == (Ok(()), Machine(r.(p := SetFlags(r.p, r.a)), s1.bus.(cycles := s.bus.cycles + 5)));
  }

  // ---------------------------------------------------------------------
  // The CPU object: registers updated in place over the bus

  /** Vectors::new: the three vector words, read through the bus. */
  method NewVectors(memory: Memory) returns (v: Result<Vectors, Panic>)
    requires memory.Valid()
    modifies memory, memory.ppu, memory.pad
    ensures memory.Valid()
    ensures (v, memory.State()) == VectorsSpec(old(memory.State()), memory.rom.prg_rom, memory.rom.chr_rom)
  {
    var nmi := memory.GetShort(0xFFFA);
    var reset := memory.GetShort(0xFFFC);
    var interrupt := memory.GetShort(0xFFFE);
    match (VectorOr(nmi), VectorOr(reset), VectorOr(interrupt))
    case (Ok(n), Ok(r), Ok(i)) => v := Ok(Vectors(n, r, i));
    case (Err(p), _, _) => v := Err(p);
    case (_, Err(p), _) => v := Err(p);
    case (_, _, Err(p)) => v := Err(p);
  }

  class Cpu {
    var registers: Registers
    const vectors: Vectors
    const memory: Memory

    ghost predicate Valid()
      reads this, memory, memory.ppu
    {
      memory.Valid()
    }

    /** The registers and the bus as one value. */
    ghost function State(): (m: Machine)
      reads this, memory, memory.ppu, memory.Repr
      requires Valid()
      ensures BusShape(m.bus)
    {
      Machine(registers, memory.State())
    }

    /** Cpu::new: a fresh bus, one cycle, the vectors, and the registers
        at reset with pc from the caller or else from the reset vector.
        Only a cartridge with program ROM can start: without one the
        vector reads panic. */
    constructor (cartridge: Rom.Rom, pc: Option<u16>, controller: Controller.GenericController)
      requires |cartridge.prg_rom| > 0
      modifies controller
      ensures Valid() && fresh(memory) && fresh(memory.ram) && fresh(memory.saved)
      ensures fresh(memory.ppu) && fresh(memory.ppu.oam) && fresh(memory.ppu.names)
      ensures memory.rom == cartridge && memory.pad == controller
      ensures vectors == Vectors(PrgWord(cartridge.prg_rom, 0xFFFA), PrgWord(cartridge.prg_rom, 0xFFFC), PrgWord(cartridge.prg_rom, 0xFFFE))
      ensures registers == NewRegisters(if pc.Some? then pc.value else vectors.reset)
      ensures State().bus == PowerOnBus(old(controller.clock), old(controller.flags)).(cycles := 7)
    {
      var m := new Memory(cartridge, controller);
      m.Cycle();
      ghost var start := m.State();
      VectorsFromRom(start, cartridge.prg_rom, cartridge.chr_rom);
      var read := NewVectors(m);
      var v := read.value;
      memory := m;
      vectors := v;
      registers := NewRegisters(if pc.Some? then pc.value else v.reset);
    }

    /** get_ptr. */
    method GetPtr(offset: u8) returns (r: Result<u16, MemoryError>)
      requires Valid()
      modifies memory, memory.ppu, memory.pad
      ensures Valid()
      ensures (r, State()) == GetPtrSpec(old(State()), memory.rom, offset)
    {
      var low := memory.Get(offset);
      match low
      case Err(e) => r := Err(e);
      case Ok(lo) =>
        var high := memory.Get((offset + 1) % 0x100);
        match high
        case Err(e) => r := Err(e);
        case Ok(hi) => r := Ok(Word(hi, lo));
    }

    /** get_ptr_a. */
    method GetPtrA(address: u16) returns (r: Result<u16, MemoryError>)
      requires Valid()
      modifies memory, memory.ppu, memory.pad
      ensures Valid()
      ensures (r, State()) == GetPtrASpec(old(State()), memory.rom, address)
    {
      var second := PageNext(address);
      var low :- memory.Get(address);
      var high :- memory.Get(second);
      r := Ok(Word(high, low));
    }

    /** get_zpo. */
    method GetZpo(offset: u8, register: u8) returns (r: Result<u8, MemoryError>)
      requires Valid()
      modifies memory, memory.ppu, memory.pad
      ensures Valid()
      ensures (r, State()) == GetZpoSpec(old(State()), memory.rom, offset, register)
    {
      memory.Cycle();
      r := memory.Get((offset + register) % 0x100);
    }

    /** get_ao. */
    method GetAo(address: u16, offset: u8) returns (r: Result<u8, MemoryError>)
      requires Valid()
      modifies memory, memory.ppu, memory.pad
      ensures Valid()
      ensures (r, State()) == GetAoSpec(old(State()), memory.rom, address, offset)
    {
      if Crosses(address, offset) {
        memory.Cycle();
      }
      r := memory.Get((address + offset) % 0x1_0000);
    }

    /** get_di. */
    method GetDi(offset: u8, register: u8) returns (r: Result<u8, MemoryError>)
      requires Valid()
      modifies memory, memory.ppu, memory.pad
      ensures Valid()
      ensures (r, State()) == GetDiSpec(old(State()), memory.rom, offset, register)
    {
      ghost var s0 := State();
      var pointer :- GetPtr((offset + register) % 0x100);
      ghost var s1 := State();
      assert GetPtrSpec(s0, memory.rom, (offset + register) % 0x100) == (Ok(pointer), s1);
      memory.Cycle();
      assert State() == Tick(s1, 1);
      r := memory.Get(pointer);
    }

    /** get_do. */
    method GetDo(offset: u8, register: u8) returns (r: Result<u8, MemoryError>)
      requires Valid()
      modifies memory, memory.ppu, memory.pad
      ensures Valid()
      ensures (r, State()) == GetDoSpec(old(State()), memory.rom, offset, register)
    {
      ghost var s0 := State();
      var pointer :- GetPtr(offset);
      ghost var s1 := State();
      assert GetPtrSpec(s0, memory.rom, offset) == (Ok(pointer), s1);
      r := GetAo(pointer, register);
      GetDoOk(s0, memory.rom, offset, register, pointer, s1);
    }

    /** set_di. */
    method SetDi(offset: u8, register: u8, value: u8) returns (r: Result<(), MemoryError>)
      requires Valid()
      modifies memory.Repr
      ensures Valid()
      ensures (r, State()) == SetDiSpec(old(State()), memory.rom, offset, register, value)
    {
      ghost var s0 := State();
      var pointer :- GetPtr((offset + register) % 0x100);
      ghost var s1 := State();
      assert GetPtrSpec(s0, memory.rom, (offset + register) % 0x100) == (Ok(pointer), s1);
      memory.Cycle();
      assert State() == Tick(s1, 1);
      r := memory.Set(pointer, value);
    }

    /** set_do; the unwrapped sum panics past 0xFFFF. */
    method SetDo(offset: u8, register: u8, value: u8) returns (r: Result<(), MemoryError>)
      requires Valid()
      modifies memory.Repr
      ensures Valid()
      ensures (r, State()) == SetDoSpec(old(State()), memory.rom, offset, register, value)
    {
      ghost var s0 := State();
      var pointer :- GetPtr(offset);
      ghost var s1 := State();
      assert GetPtrSpec(s0, memory.rom, offset) == (Ok(pointer), s1);
      if Crosses(pointer, register) {
        memory.Cycle();
      }
      ghost var s2 := State();
      assert s2 == CrossWait(s1, pointer, register);
      SetDoOk(s0, memory.rom, offset, register, value, pointer, s1);
      if pointer + register > 0xFFFF {
        return Err(MemoryError.Aborted(ArithmeticOverflow));
      }
      r := memory.Set(pointer + register, value);
      assert (r, State()) == BusSet(s2, memory.rom, pointer + register, value);
    }

    /** push. */
    method Push(value: u8) returns (r: Result<(), MemoryError>)
      requires Valid()
      modifies this, memory.Repr
      ensures Valid()
      ensures (r, State()) == PushSpec(old(State()), memory.rom, value)
    {
      var _ :- memory.Set(0x100 + registers.sp, value);
      registers := registers.(sp := (registers.sp + 0xFF) % 0x100);
      r := Ok(());
    }

    /** push_address. */
    method PushAddress(address: u16) returns (r: Result<(), MemoryError>)
      requires Valid()
      modifies this, memory.Repr
      ensures Valid()
      ensures (r, State()) == PushAddressSpec(old(State()), memory.rom, address)
    {
      var _ :- Push(High(address));
      r := Push(Low(address));
    }

    /** pop. */
    method Pop() returns (r: Result<u8, MemoryError>)
      requires Valid()
      modifies this, memory, memory.ppu, memory.pad
      ensures Valid()
      ensures (r, State()) == PopSpec(old(State()), memory.rom)
    {
      registers := registers.(sp := (registers.sp + 1) % 0x100);
      r := memory.Get(0x100 + registers.sp);
    }

    /** pop_address. */
    method PopAddress() returns (r: Result<u16, MemoryError>)
      requires Valid()
      modifies this, memory, memory.ppu, memory.pad
      ensures Valid()
      ensures (r, State()) == PopAddressSpec(old(State()), memory.rom)
    {
      var low :- Pop();
      var high :- Pop();
      r := Ok(Word(high, low));
    }

    /** interrupt. */
    method Interrupt(pc: u16) returns (r: Result<(), MemoryError>)
      requires Valid()
      modifies this, memory.Repr
      ensures Valid()
      ensures (r, State()) == InterruptSpec(old(State()), memory.rom, pc)
    {
      var _ :- PushAddress(registers.pc);
      var _ :- Push(PushedStatus(registers.p));
      registers := registers.(pc := pc);
      r := Ok(());
    }

    /** branch. */
    method Branch(rel: u8)
      requires Valid()
      modifies this, memory
      ensures Valid()
      ensures State() == BranchSpec(old(State()), rel)
    {
      memory.Cycle();
      var start := registers.pc;
      registers := registers.(pc := BranchTarget(start, rel));
      if High(start) != High(registers.pc) {
        memory.Cycle();
      }
    }
  
    /** The operand of a reading operation. */
    method Read(mode: Mode, operand: u16) returns (r: Result<u8, MemoryError>)
      requires Valid()
      modifies memory, memory.ppu, memory.pad
      ensures Valid()
      ensures (r, State()) == ReadSpec(old(State()), memory.rom, mode, operand)
    {
      match mode
      case Immediate => r := Ok(Low(operand));
      case ZeroPage => r := memory.Get(Low(operand));
      case ZeroPageX => r := GetZpo(Low(operand), registers.x);
      case ZeroPageY => r := GetZpo(Low(operand), registers.y);
      case Absolute => r := memory.Get(operand);
      case AbsoluteX => r := GetAo(operand, registers.x);
      case AbsoluteY => r := GetAo(operand, registers.y);
      case IndirectX => r := GetDi(Low(operand), registers.x);
      case IndirectY => r := GetDo(Low(operand), registers.y);
      case _ => r := Ok(0);
    }

    /** lda, ldx, ldy, ora, and, eor, adc, sbc, cmp, cpx, cpy and bit. */
    method ReadOp(i: Instruction) returns (r: Result<(), CpuError>)
      requires Valid()
      modifies this, memory, memory.ppu, memory.pad
      ensures Valid()
      ensures (r, State()) == ReadOpSpec(old(State()), memory.rom, i)
    {
      var v := Read(i.code.mode, i.operand);
      match v
      case Err(e) => r := Err(Lift(e));
      case Ok(x) =>
        registers := Combine(i.code.mnemonic, registers, x);
        r := Ok(());
    }

    /** A store at a computed address, then `extra` cycles. */
    method StoreAt(address: u16, v: u8, extra: nat) returns (r: Result<(), CpuError>)
      requires Valid()
      modifies memory.Repr
      ensures Valid()
      ensures (r, State()) == Finish(BusSet(old(State()), memory.rom, address, v), extra)
    {
      var written := memory.Set(address, v);
      match written
      case Err(e) => r := Err(Lift(e));
      case Ok(_) =>
        memory.CycleMany(extra);
        r := Ok(());
    }

    /** The stores through a pointer: (zp,X) and, with its extra cycle, (zp),Y. */
    method StoreIndirect(byX: bool, offset: u8, v: u8) returns (r: Result<(), CpuError>)
      requires Valid()
      modifies memory.Repr
      ensures Valid()
      ensures (r, State()) ==
        if byX then Finish(SetDiSpec(old(State()), memory.rom, offset, old(registers.x), v), 0)
        else Finish(SetDoSpec(old(State()), memory.rom, offset, old(registers.y), v), 1)
    {
      if byX {
        var written := SetDi(offset, registers.x, v);
        r := Conclude(written, 0);
      } else {
        var written := SetDo(offset, registers.y, v);
        r := Conclude(written, 1);
      }
    }

    /** The end of a write: a failure is passed on, a success takes `extra` cycles. */
    method Conclude(written: Result<(), MemoryError>, extra: nat) returns (r: Result<(), CpuError>)
      requires Valid()
      modifies memory
      ensures Valid()
      ensures (r, State()) == Finish((written, old(State())), extra)
    {
      match written
      case Err(e) => r := Err(Lift(e));
      case Ok(_) =>
        memory.CycleMany(extra);
        r := Ok(());
    }

    /** sta, stx and sty. */
    method StoreOp(i: Instruction) returns (r: Result<(), CpuError>)
      requires Valid()
      modifies memory.Repr
      ensures Valid()
      ensures (r, State()) == StoreOpSpec(old(State()), memory.rom, i)
    {
      var v := StoredValue(i.code.mnemonic, registers);
      match i.code.mode {
      case ZeroPage | ZeroPageX | ZeroPageY | Absolute | AbsoluteX | AbsoluteY =>
        var (address, extra) := StoreTarget(i.code.mode, i.operand, registers);
        r := StoreAt(address, v, extra);
      case IndirectX => r := StoreIndirect(true, Low(i.operand), v);
      case IndirectY => r := StoreIndirect(false, Low(i.operand), v);
      case _ => r := Ok(());
      }
    }

    /** The asl, lsr, rol and ror helpers. */
    method Shift(m: Mnemonic, v: u8) returns (value: u8)
      requires Valid()
      modifies this, memory
      ensures Valid()
      ensures (value, State()) == ShiftSpec(old(State()), m, v)
    {
      var sh := ShiftBy(m, v, Bit(registers.p, CARRY));
      registers := registers.(p := SetFlag(SetFlags(registers.p, sh.value), CARRY, sh.carry));
      memory.Cycle();
      value := sh.value;
    }

    /** The memory forms of a shift once the operand is read. */
    method WriteShifted(m: Mnemonic, read: Result<u8, MemoryError>, address: u16, extra: nat) returns (r: Result<(), CpuError>)
      requires Valid()
      modifies this, memory.Repr
      ensures Valid()
      ensures (r, State()) == ShiftAt((read, old(State())), memory.rom, m, address, extra)
    {
      match read
      case Err(e) => r := Err(Lift(e));
      case Ok(input) =>
        var value := Shift(m, input);
        r := StoreAt(address, value, extra);
    }

    /** asl, lsr, rol and ror. */
    method ShiftOp(i: Instruction) returns (r: Result<(), CpuError>)
      requires Valid()
      modifies this, memory.Repr
      ensures Valid()
      ensures (r, State()) == ShiftOpSpec(old(State()), memory.rom, i)
    {
      match i.code.mode {
      case Accumulator =>
        var value := Shift(i.code.mnemonic, registers.a);
        registers := registers.(a := value);
        r := Ok(());
      case ZeroPage | ZeroPageX | Absolute | AbsoluteX =>
        var (address, extra) := ShiftTarget(i.code.mode, i.operand, registers.x);
        var read := Read(i.code.mode, i.operand);
        r := WriteShifted(i.code.mnemonic, read, address, extra);
      case _ => r := Ok(());
      }
    }

    /** inc and dec once the new value `w` is known: the flags, the
        cycles, the write. */
    method Counted(w: u8, address: u16, cycles: nat) returns (r: Result<(), CpuError>)
      requires Valid()
      modifies this, memory.Repr
      ensures Valid()
      ensures (r, State()) == WriteCounted(old(State()), memory.rom, w, address, cycles)
    {
      ghost var s0 := State();
      registers := registers.(p := SetFlags(registers.p, w));
      memory.CycleMany(cycles);
      assert State() == Tick(s0.(registers := s0.registers.(p := SetFlags(s0.registers.p, w))), cycles);
      r := StoreAt(address, w, 0);
    }

    /** inc and dec at an address. */
    method Count(m: Mnemonic, address: u16, cycles: nat) returns (r: Result<(), CpuError>)
      requires Valid()
      modifies this, memory.Repr
      ensures Valid()
      ensures (r, State()) == CountAt(old(State()), memory.rom, m, address, cycles)
    {
      var read := memory.Get(address);
      r := CountRead(m, read, address, cycles);
    }

    /** inc and dec once the read is done. */
    method CountRead(m: Mnemonic, read: Result<u8, MemoryError>, address: u16, cycles: nat) returns (r: Result<(), CpuError>)
      requires Valid()
      modifies this, memory.Repr
      ensures Valid()
      ensures (r, State()) == WriteCount((read, old(State())), memory.rom, m, address, cycles)
    {
      match read
      case Err(e) =>
        r := Err(Lift(e));
      case Ok(v) =>
        var w := Stepped(m, v);
        r := Counted(w, address, cycles);
    }

    /** inc and dec; the zero-page indexed form panics past 0xFF. */
    method CountOp(i: Instruction) returns (r: Result<(), CpuError>)
      requires Valid()
      modifies this, memory.Repr
      ensures Valid()
      ensures (r, State()) == CountOpSpec(old(State()), memory.rom, i)
    {
      match i.code.mode {
      case ZeroPage | ZeroPageX | Absolute | AbsoluteX =>
        if i.code.mode == ZeroPageX && Low(i.operand) + registers.x > 0xFF {
          r := Err(CpuError.Aborted(ArithmeticOverflow));
        } else {
          var (address, cycles) := CountTarget(i.code.mode, i.operand, registers.x);
          r := Count(i.code.mnemonic, address, cycles);
        }
      case _ => r := Ok(());
      }
    }

    /** The register-only operations. */
    method TransferOp(i: Instruction) returns (r: Result<(), CpuError>)
      requires Valid()
      modifies this, memory
      ensures Valid()
      ensures (r, State()) == TransferOpSpec(old(State()), i)
    {
      registers := Transfer(i.code.mnemonic, registers);
      memory.Cycle();
      r := Ok(());
    }

    /** The nop forms. */
    method Nop(i: Instruction) returns (r: Result<(), CpuError>)
      requires Valid()
      modifies memory
      ensures Valid()
      ensures (r, State()) == NopSpec(old(State()), i)
    {
      match i.code.mode {
      case Implied => memory.Cycle();
      case ZeroPage => memory.Cycle();
      case ZeroPageX => memory.CycleMany(2);
      case Absolute => memory.Cycle();
      case AbsoluteX =>
        memory.Cycle();
        if Crosses(i.operand, registers.x) {
          memory.Cycle();
        }
      case _ =>
      }
      r := Ok(());
    }

    /** pha and php. */
    method PushOp(v: u8) returns (r: Result<(), CpuError>)
      requires Valid()
      modifies this, memory.Repr
      ensures Valid()
      ensures (r, State()) == PushOpSpec(old(State()), memory.rom, v)
    {
      var pushed := Push(v);
      match pushed
      case Err(e) => r := Err(Lift(e));
      case Ok(_) =>
        memory.Cycle();
        r := Ok(());
    }

    /** pla and plp. */
    method Pull(toStatus: bool) returns (r: Result<(), CpuError>)
      requires Valid()
      modifies this, memory, memory.ppu, memory.pad
      ensures Valid()
      ensures (r, State()) == PullSpec(old(State()), memory.rom, toStatus)
    {
      var v := Pop();
      match v
      case Err(e) => r := Err(Lift(e));
      case Ok(b) =>
        registers := Pulled(registers, b, toStatus);
        memory.CycleMany(2);
        r := Ok(());
    }

    /** pha, php, pla and plp. */
    method StackOp(i: Instruction) returns (r: Result<(), CpuError>)
      requires Valid()
      modifies this, memory.Repr
      ensures Valid()
      ensures (r, State()) == StackOpSpec(old(State()), memory.rom, i)
    {
      var m := i.code.mnemonic;
      if m == PHA || m == PHP {
        r := PushOp(StackByte(m, registers));
      } else {
        r := Pull(m != PLA);
      }
    }

    /** jmp. */
    method Jump(mode: Mode, o: u16) returns (r: Result<(), CpuError>)
      requires Valid()
      modifies this, memory, memory.ppu, memory.pad
      ensures Valid()
      ensures (r, State()) == JumpSpec(old(State()), memory.rom, mode, o)
    {
      if mode == Indirect {
        var target := GetPtrA(o);
        match target
        case Err(e) => r := Err(Lift(e));
        case Ok(t) =>
          registers := registers.(pc := t);
          r := Ok(());
      } else {
        registers := registers.(pc := o);
        r := Ok(());
      }
    }

    /** jsr; pc - 1 panics when pc is 0. */
    method Call(o: u16) returns (r: Result<(), CpuError>)
      requires Valid()
      modifies this, memory.Repr
      ensures Valid()
      ensures (r, State()) == CallSpec(old(State()), memory.rom, o)
    {
      if registers.pc == 0 {
        return Err(CpuError.Aborted(ArithmeticOverflow));
      }
      var pushed := PushAddress(registers.pc - 1);
      match pushed
      case Err(e) => r := Err(Lift(e));
      case Ok(_) =>
        registers := registers.(pc := o);
        memory.Cycle();
        r := Ok(());
    }

    /** rti. */
    method ReturnFromInterrupt() returns (r: Result<(), CpuError>)
      requires Valid()
      modifies this, memory, memory.ppu, memory.pad
      ensures Valid()
      ensures (r, State()) == ReturnFromInterruptSpec(old(State()), memory.rom)
    {
      var v := Pop();
      match v
      case Err(e) => r := Err(Lift(e));
      case Ok(b) =>
        registers := registers.(p := PulledStatus(b));
        var w := PopAddress();
        match w
        case Err(e) => r := Err(Lift(e));
        case Ok(t) =>
          registers := registers.(pc := t);
          memory.CycleMany(2);
          r := Ok(());
    }

    /** rts; the address plus one panics past 0xFFFF. */
    method Return() returns (r: Result<(), CpuError>)
      requires Valid()
      modifies this, memory, memory.ppu, memory.pad
      ensures Valid()
      ensures (r, State()) == ReturnSpec(old(State()), memory.rom)
    {
      var w := PopAddress();
      match w
      case Err(e) => r := Err(Lift(e));
      case Ok(t) =>
        if t + 1 > 0xFFFF {
          return Err(CpuError.Aborted(ArithmeticOverflow));
        }
        registers := registers.(pc := t + 1);
        memory.CycleMany(3);
        r := Ok(());
    }

    /** jmp and jsr. */
    method Enter(i: Instruction) returns (r: Result<(), CpuError>)
      requires Valid()
      modifies this, memory.Repr
      ensures Valid()
      ensures (r, State()) == EnterSpec(old(State()), memory.rom, i)
    {
      if i.code.mnemonic == JMP {
        r := Jump(i.code.mode, i.operand);
      } else {
        r := Call(i.operand);
      }
    }

    /** rti and rts. */
    method Leave(i: Instruction) returns (r: Result<(), CpuError>)
      requires Valid()
      modifies this, memory.Repr
      ensures Valid()
      ensures (r, State()) == LeaveSpec(old(State()), memory.rom, i)
    {
      if i.code.mnemonic == RTI {
        r := ReturnFromInterrupt();
      } else {
        r := Return();
      }
    }

    /** brk, stp, jmp, jsr, rti and rts. */
    method ControlOp(i: Instruction) returns (r: Result<(), CpuError>)
      requires Valid()
      modifies this, memory.Repr
      ensures Valid()
      ensures (r, State()) == ControlOpSpec(old(State()), memory.rom, i)
    {
      var m := i.code.mnemonic;
      if m == BRK {
        r := Err(Break);
      } else if m == STP {
        r := Err(Stop);
      } else if m == JMP || m == JSR {
        r := Enter(i);
      } else {
        r := Leave(i);
      }
    }

    /** The eight branches. */
    method BranchOp(i: Instruction) returns (r: Result<(), CpuError>)
      requires Valid()
      modifies this, memory
      ensures Valid()
      ensures (r, State()) == BranchOpSpec(old(State()), i)
    {
      if Taken(i.code.mnemonic, registers.p) {
        Branch(Low(i.operand));
      }
      r := Ok(());
    }

    /** One decoded instruction, by its family. */
    method Execute(i: Instruction) returns (r: Result<(), CpuError>)
      requires Valid()
      modifies this, memory.Repr
      ensures Valid()
      ensures (r, State()) == ExecuteSpec(old(State()), memory.rom, i)
    {
      match FamilyOf(i.code.mnemonic)
      case Reading => r := ReadOp(i);
      case Storing => r := StoreOp(i);
      case Shifting => r := ShiftOp(i);
      case Counting => r := CountOp(i);
      case Transferring => r := TransferOp(i);
      case Waiting => r := Nop(i);
      case Stacking => r := StackOp(i);
      case Controlling => r := ControlOp(i);
      case Branching => r := BranchOp(i);
    }

    /** The `next` closure of step: read at pc, then move pc on. */
    method Fetch() returns (r: Result<Option<u8>, Panic>)
      requires Valid()
      modifies this, memory, memory.ppu, memory.pad
      ensures Valid()
      ensures (r, State()) == FetchSpec(old(State()), memory.rom)
    {
      var pc := registers.pc;
      var value := memory.Get(pc);
      if value.Err? && value.error.Aborted? {
        return Err(value.error.reason);
      }
      if pc == 0xFFFF {
        return Err(ArithmeticOverflow);
      }
      registers := registers.(pc := pc + 1);
      r := Ok(if value.Ok? then Some(value.value) else None);
    }

    /** decode, driven by Fetch. */
    method DecodeNext() returns (r: Result<Option<Instruction>, Panic>)
      requires Valid()
      modifies this, memory, memory.ppu, memory.pad
      ensures Valid()
      ensures (r, State()) == DecodeOnBus(old(State()), memory.rom)
    {
      var first := Fetch();
      match first
      case Err(p) => r := Err(p);
      case Ok(None) => r := Ok(None);
      case Ok(Some(op)) =>
        match Lookup(op)
        case None => r := Ok(None);
        case Some(code) => r := FetchOperand(code);
    }

    /** The operand bytes of a decoded opcode. */
    method FetchOperand(code: Opcode) returns (r: Result<Option<Instruction>, Panic>)
      requires Valid()
      modifies this, memory, memory.ppu, memory.pad
      ensures Valid()
      ensures (r, State()) == OperandOnBus(old(State()), memory.rom, code)
    {
      if OperandBytes(code.mode) == 0 {
        r := Ok(Some(Instruction(code, 0)));
      } else {
        var second := Fetch();
        match second
        case Err(p) => r := Err(p);
        case Ok(None) => r := Ok(None);
        case Ok(Some(low)) =>
          if OperandBytes(code.mode) == 1 {
            r := Ok(Some(Instruction(code, low)));
          } else {
            r := FetchHigh(code, low);
          }
      }
    }

    /** The high byte of an address operand. */
    method FetchHigh(code: Opcode, low: u8) returns (r: Result<Option<Instruction>, Panic>)
      requires Valid()
      modifies this, memory, memory.ppu, memory.pad
      ensures Valid()
      ensures (r, State()) == HighOnBus(old(State()), memory.rom, code, low)
    {
      var third := Fetch();
      match third
      case Err(p) => r := Err(p);
      case Ok(None) => r := Ok(None);
      case Ok(Some(high)) => r := Ok(Some(Instruction(code, Word(high, low))));
    }

    /** step: decode and execute one instruction; when nothing decodes, the
        byte at the starting pc is read again for the error. */
    method Step() returns (r: Result<(), CpuError>)
      requires Valid()
      modifies this, memory.Repr
      ensures Valid()
      ensures (r, State()) == StepSpec(old(State()), memory.rom)
    {
      var pc := registers.pc;
      var decoded := DecodeNext();
      match decoded
      case Err(p) => r := Err(CpuError.Aborted(p));
      case Ok(Some(i)) => r := Execute(i);
      case Ok(None) =>
        var v := memory.Get(pc);
        match v
        case Ok(op) => r := Err(InvalidOp(op));
        case Err(e) => r := Err(Lift(e));
    }
  }
}
