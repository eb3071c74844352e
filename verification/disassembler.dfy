/** The disassembler: each decoded instruction rendered as text, its
    mnemonic in capitals and its operand in 6502 assembler syntax with
    upper-case hexadecimal. Branch operands are shown as the address they
    jump to, computed from the disassembler's `pc`. */
module Disassembler {
  import opened Wrappers
  import opened Bytes
  import opened Decoder

  // ---------------------------------------------------------------------
  // Hexadecimal

  predicate IsHexDigit(c: char)
  {
    '0' <= c <= '9' || 'A' <= c <= 'F'
  }

  /** One upper-case hexadecimal digit. */
  function HexDigit(n: nat): (c: char)
    requires n < 16
    ensures IsHexDigit(c)
  {
    if n < 10 then '0' + n as char else 'A' + (n - 10) as char
  }

  /** The value of a hexadecimal digit. */
  function DigitValue(c: char): (n: Option<nat>)
    ensures n.Some? <==> IsHexDigit(c)
    ensures n.Some? ==> n.value < 16
  {
    if '0' <= c <= '9' then Some(c as nat - '0' as nat)
    else if 'A' <= c <= 'F' then Some(c as nat - 'A' as nat + 10)
    else None
  }

  lemma DigitValueOfHexDigit(n: nat)
    requires n < 16
    ensures DigitValue(HexDigit(n)) == Some(n)
  {
  }

  /** `{:02X}`: exactly two upper-case digits, leading zero kept. */
  function Hex2(v: u8): (s: string)
    ensures |s| == 2 && IsHexDigit(s[0]) && IsHexDigit(s[1])
  {
    [HexDigit(v / 16), HexDigit(v % 16)]
  }

  /** `{:04X}`: exactly four upper-case digits. */
  function Hex4(w: u16): (s: string)
    ensures |s| == 4 && forall k :: 0 <= k < 4 ==> IsHexDigit(s[k])
  {
    Hex2(High(w)) + Hex2(Low(w))
  }

  /** Reads a string of hexadecimal digits, most significant first. */
  function ParseHex(s: string): (r: Option<nat>)
    ensures r.Some? ==> r.value < Power16(|s|)
  {
    if |s| == 0 then Some(0)
    else
      match (ParseHex(s[..|s| - 1]), DigitValue(s[|s| - 1]))
      case (Some(high), Some(low)) => Some(high * 16 + low)
      case _ => None
  }

  function Power16(k: nat): (p: nat)
    ensures p > 0
  {
    if k == 0 then 1 else 16 * Power16(k - 1)
  }

  /** Two digits read back give the byte they were printed from. */
  lemma Hex2RoundTrip(v: u8)
    ensures ParseHex(Hex2(v)) == Some(v)
  {
    var s := Hex2(v);
    DigitValueOfHexDigit(v / 16);
    DigitValueOfHexDigit(v % 16);
    assert s[..1][..0] == [];
    assert ParseHex(s[..1]) == Some(v / 16);
  }

  /** Four digits read back give the word they were printed from. */
  lemma {:induction false} Hex4RoundTrip(w: u16)
    ensures ParseHex(Hex4(w)) == Some(w)
  {
    var s := Hex4(w);
    var high, low := Hex2(High(w)), Hex2(Low(w));
    Hex2RoundTrip(High(w));
    DigitValueOfHexDigit(Low(w) / 16);
    DigitValueOfHexDigit(Low(w) % 16);
    assert s[..2] == high;
    assert s[..3][..2] == high;
    assert ParseHex(s[..3]) == Some(High(w) * 16 + Low(w) / 16);
    assert s[..4][..3] == s[..3];
  }

  // ---------------------------------------------------------------------
  // Branch targets

  /** A word read as an i16 (Rust `as i16`). */
  function SignedWord(w: u16): (s: int)
    ensures -0x8000 <= s < 0x8000
  {
    if w < 0x8000 then w else w - 0x1_0000
  }

  /** i16 wrapping addition. */
  function WrappingAddI16(a: int, b: int): (r: int)
    ensures -0x8000 <= r < 0x8000
  {
    (a + b + 0x8000) % 0x1_0000 - 0x8000
  }

  /** compute_target: pc plus the sign-extended offset plus 2, all in i16
      with wrap-around, read back as u16. */
  function ComputeTarget(rel: u8, pc: u16): u16
  {
    WrappingAddI16(WrappingAddI16(SignedWord(pc), Signed(rel)), 2) % 0x1_0000
  }

  /** The target is the address after the two-byte branch, moved by the
      signed offset, modulo 2^16; so a target is never more than 127 bytes
      past, or 128 bytes before, the next instruction. */
  lemma TargetArithmetic(rel: u8, pc: u16)
    ensures ComputeTarget(rel, pc) == (pc + 2 + Signed(rel)) % 0x1_0000
    ensures (ComputeTarget(rel, pc) - (pc + 2)) % 0x100 == rel
  {
    var r := Signed(rel);
    var s := SignedWord(pc);
    var m := WrappingAddI16(s, r);
    WrapResidue(s, r);
    SameResidueAdd(s, pc, r);
    WrapResidue(m, 2);
    SameResidueAdd(m, pc + r, 2);
    TargetOffset(rel, pc);
  }

  /** i16 wrapping addition agrees with the sum modulo 2^16. */
  lemma WrapResidue(a: int, b: int)
    ensures WrappingAddI16(a, b) % 0x1_0000 == (a + b) % 0x1_0000
  {
  }

  /** Equal residues stay equal when the same amount is added. */
  lemma SameResidueAdd(x: int, y: int, c: int)
    requires x % 0x1_0000 == y % 0x1_0000
    ensures (x + c) % 0x1_0000 == (y + c) % 0x1_0000
  {
  }

  /** The distance from pc + 2 to the wrapped target is the offset byte
      modulo 256. */
  lemma TargetOffset(rel: u8, pc: u16)
    ensures ((pc + 2 + Signed(rel)) % 0x1_0000 - (pc + 2)) % 0x100 == rel
  {
  }

  /** The branch offset that reaches `target` from a branch at `pc`. */
  function OffsetTo(target: u16, pc: u16): u8
  {
    (target - pc - 2) % 0x100
  }

  // ---------------------------------------------------------------------
  // The format_* helpers

  function FormatI(name: string, value: u8): string { name + " #$" + Hex2(value) }
  function FormatZ(name: string, offset: u8): string { name + " $" + Hex2(offset) }
  function FormatZx(name: string, offset: u8): string { name + " $" + Hex2(offset) + ",X" }
  function FormatZy(name: string, offset: u8): string { name + " $" + Hex2(offset) + ",Y" }
  function FormatA(name: string, address: u16): string { name + " $" + Hex4(address) }
  function FormatAx(name: string, address: u16): string { name + " $" + Hex4(address) + ",X" }
  function FormatAy(name: string, address: u16): string { name + " $" + Hex4(address) + ",Y" }
  function FormatDx(name: string, offset: u8): string { name + " ($" + Hex2(offset) + ",X)" }
  function FormatDy(name: string, offset: u8): string { name + " ($" + Hex2(offset) + "),Y" }
  function FormatRel(name: string, rel: u8, pc: u16): string { name + " $" + Hex4(ComputeTarget(rel, pc)) }
  function FormatDest(name: string, address: u16): string { name + " $" + Hex4(address) }
  function FormatDestId(name: string, address: u16): string { name + " ($" + Hex4(address) + ")" }

  /** The printed name of each operation. */
  function Name(m: Mnemonic): (s: string)
    ensures |s| == 3
  {
    match m
    case BRK => "BRK" case STP => "STP" case NOP => "NOP"
    case ORA => "ORA" case AND => "AND" case EOR => "EOR" case ADC => "ADC" case SBC => "SBC"
    case CMP => "CMP" case CPX => "CPX" case CPY => "CPY" case BIT => "BIT"
    case LDA => "LDA" case LDX => "LDX" case LDY => "LDY" case STA => "STA" case STX => "STX" case STY => "STY"
    case INC => "INC" case DEC => "DEC" case INX => "INX" case INY => "INY" case DEX => "DEX" case DEY => "DEY"
    case ASL => "ASL" case LSR => "LSR" case ROL => "ROL" case ROR => "ROR"
    case JMP => "JMP" case JSR => "JSR" case RTI => "RTI" case RTS => "RTS"
    case BPL => "BPL" case BMI => "BMI" case BVC => "BVC" case BVS => "BVS"
    case BCC => "BCC" case BCS => "BCS" case BNE => "BNE" case BEQ => "BEQ"
    case PHP => "PHP" case PLP => "PLP" case PHA => "PHA" case PLA => "PLA"
    case TAX => "TAX" case TAY => "TAY" case TXA => "TXA" case TYA => "TYA" case TSX => "TSX" case TXS => "TXS"
    case CLC => "CLC" case SEC => "SEC" case CLI => "CLI" case SEI => "SEI" case CLV => "CLV" case CLD => "CLD"
    case SED => "SED"
  }

  /** The branches, whose one operand byte is an offset from pc. */
  predicate IsBranch(m: Mnemonic)
  {
    m in {BPL, BMI, BVC, BVS, BCC, BCS, BNE, BEQ}
  }

  /** `Decoder<String> for Disassembler`: the text for one instruction, with
      branch targets computed from `pc`. Operands wider than the mode takes
      are cut to their low byte, as the decoder never produces them. */
  function Disassemble(i: Instruction, pc: u16): string
  {
    var name := Name(i.code.mnemonic);
    var byte := Low(i.operand);
    match i.code.mode
    case Implied => name
    case Accumulator => name + " A"
    case Immediate => FormatI(name, byte)
    case ZeroPage => FormatZ(name, byte)
    case ZeroPageX => FormatZx(name, byte)
    case ZeroPageY => FormatZy(name, byte)
    case Absolute => if i.code.mnemonic in {JMP, JSR} then FormatDest(name, i.operand) else FormatA(name, i.operand)
    case AbsoluteX => FormatAx(name, i.operand)
    case AbsoluteY => FormatAy(name, i.operand)
    case IndirectX => FormatDx(name, byte)
    case IndirectY => FormatDy(name, byte)
    case Indirect => FormatDestId(name, i.operand)
    case Relative => FormatRel(name, byte, pc)
  }

  /** The disassembler driven by `decode`: None exactly when decode gives None. */
  function DisassembleNext(answers: seq<Option<u8>>, pc: u16): (r: Option<string>)
    ensures r.Some? <==> Decode(answers).0.Some?
  {
    match Decode(answers).0
    case None => None
    case Some(i) => Some(Disassemble(i, pc))
  }

  // ---------------------------------------------------------------------
  // Reading the text back

  /** The operation a printed name stands for, read letter by letter. */
  function MnemonicOf(s: string): Option<Mnemonic>
  {
    if |s| != 3 then None
    else match s[0]
    case 'A' => if s[1] == 'D' && s[2] == 'C' then Some(ADC) else if s[1] == 'N' && s[2] == 'D' then Some(AND) else if s[1] == 'S' && s[2] == 'L' then Some(ASL) else None
    case 'B' => if s[1] == 'C' && s[2] == 'C' then Some(BCC) else if s[1] == 'C' && s[2] == 'S' then Some(BCS) else if s[1] == 'E' && s[2] == 'Q' then Some(BEQ) else if s[1] == 'I' && s[2] == 'T' then Some(BIT) else if s[1] == 'M' && s[2] == 'I' then Some(BMI) else if s[1] == 'N' && s[2] == 'E' then Some(BNE) else if s[1] == 'P' && s[2] == 'L' then Some(BPL) else if s[1] == 'R' && s[2] == 'K' then Some(BRK) else if s[1] == 'V' && s[2] == 'C' then Some(BVC) else if s[1] == 'V' && s[2] == 'S' then Some(BVS) else None
    case 'C' => if s[1] == 'L' && s[2] == 'C' then Some(CLC) else if s[1] == 'L' && s[2] == 'D' then Some(CLD) else if s[1] == 'L' && s[2] == 'I' then Some(CLI) else if s[1] == 'L' && s[2] == 'V' then Some(CLV) else if s[1] == 'M' && s[2] == 'P' then Some(CMP) else if s[1] == 'P' && s[2] == 'X' then Some(CPX) else if s[1] == 'P' && s[2] == 'Y' then Some(CPY) else None
    case 'D' => if s[1] == 'E' && s[2] == 'C' then Some(DEC) else if s[1] == 'E' && s[2] == 'X' then Some(DEX) else if s[1] == 'E' && s[2] == 'Y' then Some(DEY) else None
    case 'E' => if s[1] == 'O' && s[2] == 'R' then Some(EOR) else None
    case 'I' => if s[1] == 'N' && s[2] == 'C' then Some(INC) else if s[1] == 'N' && s[2] == 'X' then Some(INX) else if s[1] == 'N' && s[2] == 'Y' then Some(INY) else None
    case 'J' => if s[1] == 'M' && s[2] == 'P' then Some(JMP) else if s[1] == 'S' && s[2] == 'R' then Some(JSR) else None
    case 'L' => if s[1] == 'D' && s[2] == 'A' then Some(LDA) else if s[1] == 'D' && s[2] == 'X' then Some(LDX) else if s[1] == 'D' && s[2] == 'Y' then Some(LDY) else if s[1] == 'S' && s[2] == 'R' then Some(LSR) else None
    case 'N' => if s[1] == 'O' && s[2] == 'P' then Some(NOP) else None
    case 'O' => if s[1] == 'R' && s[2] == 'A' then Some(ORA) else None
    case 'P' => if s[1] == 'H' && s[2] == 'A' then Some(PHA) else if s[1] == 'H' && s[2] == 'P' then Some(PHP) else if s[1] == 'L' && s[2] == 'A' then Some(PLA) else if s[1] == 'L' && s[2] == 'P' then Some(PLP) else None
    case 'R' => if s[1] == 'O' && s[2] == 'L' then Some(ROL) else if s[1] == 'O' && s[2] == 'R' then Some(ROR) else if s[1] == 'T' && s[2] == 'I' then Some(RTI) else if s[1] == 'T' && s[2] == 'S' then Some(RTS) else None
    case 'S' => if s[1] == 'B' && s[2] == 'C' then Some(SBC) else if s[1] == 'E' && s[2] == 'C' then Some(SEC) else if s[1] == 'E' && s[2] == 'D' then Some(SED) else if s[1] == 'E' && s[2] == 'I' then Some(SEI) else if s[1] == 'T' && s[2] == 'A' then Some(STA) else if s[1] == 'T' && s[2] == 'P' then Some(STP) else if s[1] == 'T' && s[2] == 'X' then Some(STX) else if s[1] == 'T' && s[2] == 'Y' then Some(STY) else None
    case 'T' => if s[1] == 'A' && s[2] == 'X' then Some(TAX) else if s[1] == 'A' && s[2] == 'Y' then Some(TAY) else if s[1] == 'S' && s[2] == 'X' then Some(TSX) else if s[1] == 'X' && s[2] == 'A' then Some(TXA) else if s[1] == 'X' && s[2] == 'S' then Some(TXS) else if s[1] == 'Y' && s[2] == 'A' then Some(TYA) else None
    case _ => None
  }

  // The names read back, a quarter of the operations at a time.

  lemma NamesRead1(m: Mnemonic)
    requires m.BRK? || m.STP? || m.NOP? || m.ORA? || m.AND? || m.EOR? || m.ADC? || m.SBC? || m.CMP? || m.CPX? || m.CPY? || m.BIT? || m.LDA? || m.LDX? || m.LDY?
    ensures MnemonicOf(Name(m)) == Some(m)
  {
    match m {
      case BRK => case STP => case NOP => case ORA => case AND => case EOR => case ADC => case SBC =>
      case CMP => case CPX => case CPY => case BIT => case LDA => case LDX => case LDY =>
      case _ =>
    }
  }

  lemma NamesRead2(m: Mnemonic)
    requires m.STA? || m.STX? || m.STY? || m.INC? || m.DEC? || m.INX? || m.INY? || m.DEX? || m.DEY? || m.ASL? || m.LSR? || m.ROL? || m.ROR? || m.JMP?
    ensures MnemonicOf(Name(m)) == Some(m)
  {
    match m {
      case STA => case STX => case STY => case INC => case DEC => case INX => case INY => case DEX =>
      case DEY => case ASL => case LSR => case ROL => case ROR => case JMP =>
      case _ =>
    }
  }

  lemma NamesRead3(m: Mnemonic)
    requires m.JSR? || m.RTI? || m.RTS? || m.BPL? || m.BMI? || m.BVC? || m.BVS? || m.BCC? || m.BCS? || m.BNE? || m.BEQ? || m.PHP? || m.PLP? || m.PHA?
    ensures MnemonicOf(Name(m)) == Some(m)
  {
    match m {
      case JSR => case RTI => case RTS => case BPL => case BMI => case BVC => case BVS => case BCC =>
      case BCS => case BNE => case BEQ => case PHP => case PLP => case PHA =>
      case _ =>
    }
  }

  lemma NamesRead4(m: Mnemonic)
    requires m.PLA? || m.TAX? || m.TAY? || m.TXA? || m.TYA? || m.TSX? || m.TXS? || m.CLC? || m.SEC? || m.CLI? || m.SEI? || m.CLV? || m.CLD? || m.SED?
    ensures MnemonicOf(Name(m)) == Some(m)
  {
    match m {
      case PLA => case TAX => case TAY => case TXA => case TYA => case TSX => case TXS => case CLC =>
      case SEC => case CLI => case SEI => case CLV => case CLD => case SED =>
      case _ =>
    }
  }

  /** Distinct operations print distinct names. */
  lemma NamesDistinct(m: Mnemonic)
    ensures MnemonicOf(Name(m)) == Some(m)
  {
    if m.BRK? || m.STP? || m.NOP? || m.ORA? || m.AND? || m.EOR? || m.ADC? || m.SBC? || m.CMP? || m.CPX? || m.CPY? || m.BIT? || m.LDA? || m.LDX? || m.LDY? {
      NamesRead1(m);
    } else if m.STA? || m.STX? || m.STY? || m.INC? || m.DEC? || m.INX? || m.INY? || m.DEX? || m.DEY? || m.ASL? || m.LSR? || m.ROL? || m.ROR? || m.JMP? {
      NamesRead2(m);
    } else if m.JSR? || m.RTI? || m.RTS? || m.BPL? || m.BMI? || m.BVC? || m.BVS? || m.BCC? || m.BCS? || m.BNE? || m.BEQ? || m.PHP? || m.PLP? || m.PHA? {
      NamesRead3(m);
    } else {
      NamesRead4(m);
    }
  }

  /** An operand of one byte, read from two digits. */
  function ByteOperand(digits: string, mode: Mode): Option<(Mode, u16)>
  {
    match ParseHex(digits)
    case Some(v) => if |digits| == 2 then Some((mode, v)) else None
    case None => None
  }

  /** An operand of one word, read from four digits. */
  function WordOperand(digits: string, mode: Mode): Option<(Mode, u16)>
  {
    match ParseHex(digits)
    case Some(v) => if |digits| == 4 then Some((mode, v)) else None
    case None => None
  }

  /** Reads back the operand part of a line, everything after the name. A
      bare four-digit address is a branch target when `branch` is set. */
  function ParseOperand(s: string, branch: bool, pc: u16): Option<(Mode, u16)>
  {
    if s == "" then Some((Implied, 0))
    else if s == " A" then Some((Accumulator, 0))
    else if |s| == 5 && s[..3] == " #$" then ByteOperand(s[3..], Immediate)
    else if |s| == 4 && s[..2] == " $" then ByteOperand(s[2..], ZeroPage)
    else if |s| == 6 && s[..2] == " $" && s[4..] == ",X" then ByteOperand(s[2..4], ZeroPageX)
    else if |s| == 6 && s[..2] == " $" && s[4..] == ",Y" then ByteOperand(s[2..4], ZeroPageY)
    else if |s| == 6 && s[..2] == " $" then
      (match ParseHex(s[2..])
       case Some(w) => if branch then Some((Relative, OffsetTo(w, pc))) else Some((Absolute, w))
       case None => None)
    else if |s| == 8 && s[..2] == " $" && s[6..] == ",X" then WordOperand(s[2..6], AbsoluteX)
    else if |s| == 8 && s[..2] == " $" && s[6..] == ",Y" then WordOperand(s[2..6], AbsoluteY)
    else if |s| == 8 && s[..3] == " ($" && s[5..] == ",X)" then ByteOperand(s[3..5], IndirectX)
    else if |s| == 8 && s[..3] == " ($" && s[5..] == "),Y" then ByteOperand(s[3..5], IndirectY)
    else if |s| == 8 && s[..3] == " ($" && s[7..] == ")" then WordOperand(s[3..7], Indirect)
    else None
  }

  /** Reads a line of disassembly back into an instruction. */
  function Assemble(s: string, pc: u16): Option<Instruction>
  {
    if |s| < 3 then None
    else
      match MnemonicOf(s[..3])
      case None => None
      case Some(m) =>
        match ParseOperand(s[3..], IsBranch(m), pc)
        case None => None
        case Some((mode, operand)) => Some(Instruction(Opcode(m, mode), operand))
  }

  /** An instruction as decode builds it: the operand fits the mode, and
      only the branches use relative addressing. */
  predicate Fits(i: Instruction)
  {
    && (OperandBytes(i.code.mode) == 0 ==> i.operand == 0)
    && (OperandBytes(i.code.mode) == 1 ==> i.operand < 0x100)
    && (i.code.mode == Relative <==> IsBranch(i.code.mnemonic))
  }

  /** A table entry whose mode is relative exactly when it is a branch. */
  predicate EntryFits(c: Option<Opcode>)
  {
    c.Some? ==> (c.value.mode == Relative <==> IsBranch(c.value.mnemonic))
  }

  /** In every row of the opcode table, relative addressing goes with the
      branches and with nothing else. */
  lemma RowFits(hi: nat, lo: nat)
    requires hi < 16 && lo < 16
    ensures EntryFits(Entry(hi, lo))
  {
    match hi {
      case 0 => assert EntryFits(Entry(0, lo));
      case 1 => assert EntryFits(Entry(1, lo));
      case 2 => assert EntryFits(Entry(2, lo));
      case 3 => assert EntryFits(Entry(3, lo));
      case 4 => assert EntryFits(Entry(4, lo));
      case 5 => assert EntryFits(Entry(5, lo));
      case 6 => assert EntryFits(Entry(6, lo));
      case 7 => assert EntryFits(Entry(7, lo));
      case 8 => assert EntryFits(Entry(8, lo));
      case 9 => assert EntryFits(Entry(9, lo));
      case 10 => assert EntryFits(Entry(10, lo));
      case 11 => assert EntryFits(Entry(11, lo));
      case 12 => assert EntryFits(Entry(12, lo));
      case 13 => assert EntryFits(Entry(13, lo));
      case 14 => assert EntryFits(Entry(14, lo));
      case 15 => assert EntryFits(Entry(15, lo));
    }
  }

  /** Whatever decode returns meets Fits: the table pairs relative
      addressing with exactly the branches, and the operand is taken from
      as many bytes as the mode names. */
  lemma DecodeFits(answers: seq<Option<u8>>)
    ensures Decode(answers).0.Some? ==> Fits(Decode(answers).0.value)
  {
    match Answer(answers, 0)
    case None =>
    case Some(op) =>
      assert Lookup(op) == Entry(op / 16, op % 16);
      RowFits(op / 16, op % 16);
  }

  /** The name is the first three characters; the rest is the operand. */
  lemma AssembleSplits(m: Mnemonic, rest: string, pc: u16)
    ensures Assemble(Name(m) + rest, pc) ==
      match ParseOperand(rest, IsBranch(m), pc)
      case None => None
      case Some((mode, operand)) => Some(Instruction(Opcode(m, mode), operand))
  {
    NamesDistinct(m);
    assert (Name(m) + rest)[..3] == Name(m);
    assert (Name(m) + rest)[3..] == rest;
  }

  // Each operand shape, read back on its own.

  lemma ParseImmediate(b: u8, branch: bool, pc: u16)
    ensures ParseOperand(" #$" + Hex2(b), branch, pc) == Some((Immediate, b as u16))
  {
    var s := " #$" + Hex2(b);
    assert s[..3] == " #$" && s[3..] == Hex2(b);
    Hex2RoundTrip(b);
  }

  lemma ParseZeroPage(b: u8, branch: bool, pc: u16)
    ensures ParseOperand(" $" + Hex2(b), branch, pc) == Some((ZeroPage, b as u16))
  {
    var s := " $" + Hex2(b);
    assert s[..2] == " $" && s[2..] == Hex2(b);
    Hex2RoundTrip(b);
  }

  lemma ParseZeroPageIndexed(b: u8, index: char, mode: Mode, branch: bool, pc: u16)
    requires (index == 'X' && mode == ZeroPageX) || (index == 'Y' && mode == ZeroPageY)
    ensures ParseOperand(" $" + Hex2(b) + [',', index], branch, pc) == Some((mode, b as u16))
  {
    var s := " $" + Hex2(b) + [',', index];
    assert s[..2] == " $" && s[2..4] == Hex2(b) && s[4..] == [',', index];
    Hex2RoundTrip(b);
  }

  lemma ParseAddress(w: u16, branch: bool, pc: u16)
    ensures ParseOperand(" $" + Hex4(w), branch, pc) ==
      Some(if branch then (Relative, OffsetTo(w, pc) as u16) else (Absolute, w))
  {
    var s := " $" + Hex4(w);
    assert s[..2] == " $" && s[2..] == Hex4(w);
    assert s[4] == Hex4(w)[2] && s[5] == Hex4(w)[3];
    Hex4RoundTrip(w);
  }

  lemma ParseAbsoluteIndexed(w: u16, index: char, mode: Mode, branch: bool, pc: u16)
    requires (index == 'X' && mode == AbsoluteX) || (index == 'Y' && mode == AbsoluteY)
    ensures ParseOperand(" $" + Hex4(w) + [',', index], branch, pc) == Some((mode, w))
  {
    var s := " $" + Hex4(w) + [',', index];
    assert s[..2] == " $" && s[2..6] == Hex4(w) && s[6..] == [',', index];
    assert s[4] == Hex4(w)[2];
    Hex4RoundTrip(w);
  }

  lemma ParseIndirectX(b: u8, branch: bool, pc: u16)
    ensures ParseOperand(" ($" + Hex2(b) + ",X)", branch, pc) == Some((IndirectX, b as u16))
  {
    var s := " ($" + Hex2(b) + ",X)";
    assert s[1] == '(';
    assert s[..3] == " ($" && s[3..5] == Hex2(b) && s[5..] == ",X)";
    Hex2RoundTrip(b);
  }

  lemma ParseIndirectY(b: u8, branch: bool, pc: u16)
    ensures ParseOperand(" ($" + Hex2(b) + "),Y", branch, pc) == Some((IndirectY, b as u16))
  {
    var s := " ($" + Hex2(b) + "),Y";
    assert s[1] == '(';
    assert s[..3] == " ($" && s[3..5] == Hex2(b) && s[5..] == "),Y";
    Hex2RoundTrip(b);
  }

  lemma ParseIndirect(w: u16, branch: bool, pc: u16)
    ensures ParseOperand(" ($" + Hex4(w) + ")", branch, pc) == Some((Indirect, w))
  {
    var s := " ($" + Hex4(w) + ")";
    assert s[1] == '(';
    assert s[..3] == " ($" && s[3..7] == Hex4(w) && s[7..] == ")";
    assert s[5] == Hex4(w)[2];
    Hex4RoundTrip(w);
  }

  /** What Disassemble prints after the name. */
  function OperandText(i: Instruction, pc: u16): string
  {
    var b := Low(i.operand);
    match i.code.mode
    case Implied => ""
    case Accumulator => " A"
    case Immediate => " #$" + Hex2(b)
    case ZeroPage => " $" + Hex2(b)
    case ZeroPageX => " $" + Hex2(b) + ",X"
    case ZeroPageY => " $" + Hex2(b) + ",Y"
    case Absolute => " $" + Hex4(i.operand)
    case AbsoluteX => " $" + Hex4(i.operand) + ",X"
    case AbsoluteY => " $" + Hex4(i.operand) + ",Y"
    case IndirectX => " ($" + Hex2(b) + ",X)"
    case IndirectY => " ($" + Hex2(b) + "),Y"
    case Indirect => " ($" + Hex4(i.operand) + ")"
    case Relative => " $" + Hex4(ComputeTarget(b, pc))
  }

  /** Every line is the three-letter name followed by the operand text. */
  lemma DisassembleSplits(i: Instruction, pc: u16)
    ensures Disassemble(i, pc) == Name(i.code.mnemonic) + OperandText(i, pc)
  {
    match i.code.mode {
      case Implied => assert Name(i.code.mnemonic) + "" == Name(i.code.mnemonic);
      case _ =>
    }
  }

  /** The operand text of a well-formed instruction reads back as its mode
      and operand. */
  lemma {:induction false} OperandRoundTrip(i: Instruction, pc: u16)
    requires Fits(i)
    ensures ParseOperand(OperandText(i, pc), IsBranch(i.code.mnemonic), pc) == Some((i.code.mode, i.operand))
  {
    var branch := IsBranch(i.code.mnemonic);
    var b := Low(i.operand);
    match i.code.mode {
      case Implied =>
      case Accumulator =>
      case Immediate =>
        ParseImmediate(b, branch, pc);
        assert b as u16 == i.operand;
      case ZeroPage =>
        ParseZeroPage(b, branch, pc);
        assert b as u16 == i.operand;
      case ZeroPageX =>
        ParseZeroPageIndexed(b, 'X', ZeroPageX, branch, pc);
        assert b as u16 == i.operand;
      case ZeroPageY =>
        ParseZeroPageIndexed(b, 'Y', ZeroPageY, branch, pc);
        assert b as u16 == i.operand;
      case Absolute =>
        ParseAddress(i.operand, branch, pc);
      case AbsoluteX =>
        ParseAbsoluteIndexed(i.operand, 'X', AbsoluteX, branch, pc);
      case AbsoluteY =>
        ParseAbsoluteIndexed(i.operand, 'Y', AbsoluteY, branch, pc);
      case IndirectX =>
        ParseIndirectX(b, branch, pc);
        assert b as u16 == i.operand;
      case IndirectY =>
        ParseIndirectY(b, branch, pc);
        assert b as u16 == i.operand;
      case Indirect =>
        ParseIndirect(i.operand, branch, pc);
      case Relative =>
        assert b as u16 == i.operand;
        var target := ComputeTarget(b, pc);
        ParseAddress(target, branch, pc);
        TargetArithmetic(b, pc);
        assert OffsetTo(target, pc) == b;
    }
  }

  /** Every instruction that fits its mode, so every instruction decode
      produces (DecodeFits), comes back from its text: the name, the
      addressing mode from the operand's punctuation, the operand from its
      hexadecimal digits, and a branch offset from the printed target. */
  lemma AssembleDisassemble(i: Instruction, pc: u16)
    requires Fits(i)
    ensures Assemble(Disassemble(i, pc), pc) == Some(i)
  {
    DisassembleSplits(i, pc);
    OperandRoundTrip(i, pc);
    AssembleSplits(i.code.mnemonic, OperandText(i, pc), pc);
  }

  /** Every instruction decode produces comes back from its disassembled
      text. */
  lemma DecodedRoundTrip(answers: seq<Option<u8>>, pc: u16)
    ensures Decode(answers).0.Some? ==> Assemble(Disassemble(Decode(answers).0.value, pc), pc) == Decode(answers).0
  {
    DecodeFits(answers);
    if Decode(answers).0.Some? {
      AssembleDisassemble(Decode(answers).0.value, pc);
    }
  }
}
