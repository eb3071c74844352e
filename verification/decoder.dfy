/** The instruction decoder: the 256-entry opcode table, how many operand
    bytes each addressing mode takes, and `decode`, which pulls the opcode and
    its operands one byte at a time from a `next` callback. The callback's
    answers are modelled as a sequence: answer k is what call k returned. */
module Decoder {
  import opened Wrappers
  import opened Bytes

  /** The operations, named as the disassembler prints them. */
  datatype Mnemonic =
    | BRK | STP | NOP
    | ORA | AND | EOR | ADC | SBC | CMP | CPX | CPY | BIT
    | LDA | LDX | LDY | STA | STX | STY
    | INC | DEC | INX | INY | DEX | DEY
    | ASL | LSR | ROL | ROR
    | JMP | JSR | RTI | RTS
    | BPL | BMI | BVC | BVS | BCC | BCS | BNE | BEQ
    | PHP | PLP | PHA | PLA
    | TAX | TAY | TXA | TYA | TSX | TXS
    | CLC | SEC | CLI | SEI | CLV | CLD | SED

  /** The addressing modes, after the suffixes of the decoder's method names:
      none or `_g` (Implied, or Accumulator for the shifts and rotates), `_i`,
      `_z`, `_zx`, `_zy`, `_a`, `_ax`, `_ay`, `_dx`, `_dy`; `jmp_ad` is
      Indirect and the branches take a Relative offset. */
  datatype Mode =
    | Implied | Accumulator | Immediate
    | ZeroPage | ZeroPageX | ZeroPageY
    | Absolute | AbsoluteX | AbsoluteY
    | IndirectX | IndirectY | Indirect | Relative

  datatype Opcode = Opcode(mnemonic: Mnemonic, mode: Mode)

  /** An opcode with its operand: a byte for the one-byte modes, a word for
      the two-byte modes, 0 when there is none. */
  datatype Instruction = Instruction(code: Opcode, operand: u16)

  /** The bytes after the opcode a mode takes. */
  function OperandBytes(mode: Mode): (n: nat)
    ensures n <= 2
  {
    match mode
    case Implied | Accumulator => 0
    case Immediate | ZeroPage | ZeroPageX | ZeroPageY | IndirectX | IndirectY | Relative => 1
    case Absolute | AbsoluteX | AbsoluteY | Indirect => 2
  }

  /** The opcode table of Decoder::decode, None where decode returns None,
      laid out by the opcode's high nibble (row) and low nibble (column). */
  function Lookup(op: u8): Option<Opcode>
  {
    Entry(op / 16, op % 16)
  }

  function Entry(hi: nat, lo: nat): Option<Opcode>
  {
    match hi
    case 0x0 =>
      (match lo
        case 0x0 => Some(Opcode(BRK, Implied))
        case 0x1 => Some(Opcode(ORA, IndirectX))
        case 0x2 => Some(Opcode(STP, Implied))
        case 0x3 => None
        case 0x4 => Some(Opcode(NOP, ZeroPage))
        case 0x5 => Some(Opcode(ORA, ZeroPage))
        case 0x6 => Some(Opcode(ASL, ZeroPage))
        case 0x7 => None
        case 0x8 => Some(Opcode(PHP, Implied))
        case 0x9 => Some(Opcode(ORA, Immediate))
        case 0xA => Some(Opcode(ASL, Accumulator))
        case 0xB => None
        case 0xC => Some(Opcode(NOP, Absolute))
        case 0xD => Some(Opcode(ORA, Absolute))
        case 0xE => Some(Opcode(ASL, Absolute))
        case _ => None)
    case 0x1 =>
      (match lo
        case 0x0 => Some(Opcode(BPL, Relative))
        case 0x1 => Some(Opcode(ORA, IndirectY))
        case 0x2 => Some(Opcode(STP, Implied))
        case 0x3 => None
        case 0x4 => Some(Opcode(NOP, ZeroPageX))
        case 0x5 => Some(Opcode(ORA, ZeroPageX))
        case 0x6 => Some(Opcode(ASL, ZeroPageX))
        case 0x7 => None
        case 0x8 => Some(Opcode(CLC, Implied))
        case 0x9 => Some(Opcode(ORA, AbsoluteY))
        case 0xA => Some(Opcode(NOP, Implied))
        case 0xB => None
        case 0xC => Some(Opcode(NOP, AbsoluteX))
        case 0xD => Some(Opcode(ORA, AbsoluteX))
        case 0xE => Some(Opcode(ASL, AbsoluteX))
        case _ => None)
    case 0x2 =>
      (match lo
        case 0x0 => Some(Opcode(JSR, Absolute))
        case 0x1 => Some(Opcode(AND, IndirectX))
        case 0x2 => Some(Opcode(STP, Implied))
        case 0x3 => None
        case 0x4 => Some(Opcode(BIT, ZeroPage))
        case 0x5 => Some(Opcode(AND, ZeroPage))
        case 0x6 => Some(Opcode(ROL, ZeroPage))
        case 0x7 => None
        case 0x8 => Some(Opcode(PLP, Implied))
        case 0x9 => Some(Opcode(AND, Immediate))
        case 0xA => Some(Opcode(ROL, Accumulator))
        case 0xB => None
        case 0xC => Some(Opcode(BIT, Absolute))
        case 0xD => Some(Opcode(AND, Absolute))
        case 0xE => Some(Opcode(ROL, Absolute))
        case _ => None)
    case 0x3 =>
      (match lo
        case 0x0 => Some(Opcode(BMI, Relative))
        case 0x1 => Some(Opcode(AND, IndirectY))
        case 0x2 => Some(Opcode(STP, Implied))
        case 0x3 => None
        case 0x4 => Some(Opcode(NOP, ZeroPageX))
        case 0x5 => Some(Opcode(AND, ZeroPageX))
        case 0x6 => Some(Opcode(ROL, ZeroPageX))
        case 0x7 => None
        case 0x8 => Some(Opcode(SEC, Implied))
        case 0x9 => Some(Opcode(AND, AbsoluteY))
        case 0xA => Some(Opcode(NOP, Implied))
        case 0xB => None
        case 0xC => Some(Opcode(NOP, AbsoluteX))
        case 0xD => Some(Opcode(AND, AbsoluteX))
        case 0xE => Some(Opcode(ROL, AbsoluteX))
        case _ => None)
    case 0x4 =>
      (match lo
        case 0x0 => Some(Opcode(RTI, Implied))
        case 0x1 => Some(Opcode(EOR, IndirectX))
        case 0x2 => Some(Opcode(STP, Implied))
        case 0x3 => None
        case 0x4 => Some(Opcode(NOP, ZeroPage))
        case 0x5 => Some(Opcode(EOR, ZeroPage))
        case 0x6 => Some(Opcode(LSR, ZeroPage))
        case 0x7 => None
        case 0x8 => Some(Opcode(PHA, Implied))
        case 0x9 => Some(Opcode(EOR, Immediate))
        case 0xA => Some(Opcode(LSR, Accumulator))
        case 0xB => None
        case 0xC => Some(Opcode(JMP, Absolute))
        case 0xD => Some(Opcode(EOR, Absolute))
        case 0xE => Some(Opcode(LSR, Absolute))
        case _ => None)
    case 0x5 =>
      (match lo
        case 0x0 => Some(Opcode(BVC, Relative))
        case 0x1 => Some(Opcode(EOR, IndirectY))
        case 0x2 => Some(Opcode(STP, Implied))
        case 0x3 => None
        case 0x4 => Some(Opcode(NOP, ZeroPageX))
        case 0x5 => Some(Opcode(EOR, ZeroPageX))
        case 0x6 => Some(Opcode(LSR, ZeroPageX))
        case 0x7 => None
        case 0x8 => Some(Opcode(CLI, Implied))
        case 0x9 => Some(Opcode(EOR, AbsoluteY))
        case 0xA => Some(Opcode(NOP, Implied))
        case 0xB => None
        case 0xC => Some(Opcode(NOP, AbsoluteX))
        case 0xD => Some(Opcode(EOR, AbsoluteX))
        case 0xE => Some(Opcode(LSR, AbsoluteX))
        case _ => None)
    case 0x6 =>
      (match lo
        case 0x0 => Some(Opcode(RTS, Implied))
        case 0x1 => Some(Opcode(ADC, IndirectX))
        case 0x2 => Some(Opcode(STP, Implied))
        case 0x3 => None
        case 0x4 => Some(Opcode(NOP, ZeroPage))
        case 0x5 => Some(Opcode(ADC, ZeroPage))
        case 0x6 => Some(Opcode(ROR, ZeroPage))
        case 0x7 => None
        case 0x8 => Some(Opcode(PLA, Implied))
        case 0x9 => Some(Opcode(ADC, Immediate))
        case 0xA => Some(Opcode(ROR, Accumulator))
        case 0xB => None
        case 0xC => Some(Opcode(JMP, Indirect))
        case 0xD => Some(Opcode(ADC, Absolute))
        case 0xE => Some(Opcode(ROR, Absolute))
        case _ => None)
    case 0x7 =>
      (match lo
        case 0x0 => Some(Opcode(BVS, Relative))
        case 0x1 => Some(Opcode(ADC, IndirectY))
        case 0x2 => Some(Opcode(STP, Implied))
        case 0x3 => None
        case 0x4 => Some(Opcode(NOP, ZeroPageX))
        case 0x5 => Some(Opcode(ADC, ZeroPageX))
        case 0x6 => Some(Opcode(ROR, ZeroPageX))
        case 0x7 => None
        case 0x8 => Some(Opcode(SEI, Implied))
        case 0x9 => Some(Opcode(ADC, AbsoluteY))
        case 0xA => Some(Opcode(NOP, Implied))
        case 0xB => None
        case 0xC => Some(Opcode(NOP, AbsoluteX))
        case 0xD => Some(Opcode(ADC, AbsoluteX))
        case 0xE => Some(Opcode(ROR, AbsoluteX))
        case _ => None)
    case 0x8 =>
      (match lo
        case 0x0 => Some(Opcode(NOP, Immediate))
        case 0x1 => Some(Opcode(STA, IndirectX))
        case 0x2 => Some(Opcode(NOP, Immediate))
        case 0x3 => None
        case 0x4 => Some(Opcode(STY, ZeroPage))
        case 0x5 => Some(Opcode(STA, ZeroPage))
        case 0x6 => Some(Opcode(STX, ZeroPage))
        case 0x7 => None
        case 0x8 => Some(Opcode(DEY, Implied))
        case 0x9 => Some(Opcode(NOP, Immediate))
        case 0xA => Some(Opcode(TXA, Implied))
        case 0xB => None
        case 0xC => Some(Opcode(STY, Absolute))
        case 0xD => Some(Opcode(STA, Absolute))
        case 0xE => Some(Opcode(STX, Absolute))
        case _ => None)
    case 0x9 =>
      (match lo
        case 0x0 => Some(Opcode(BCC, Relative))
        case 0x1 => Some(Opcode(STA, IndirectY))
        case 0x2 => Some(Opcode(STP, Implied))
        case 0x3 => None
        case 0x4 => Some(Opcode(STY, ZeroPageX))
        case 0x5 => Some(Opcode(STA, ZeroPageX))
        case 0x6 => Some(Opcode(STX, ZeroPageY))
        case 0x7 => None
        case 0x8 => Some(Opcode(TYA, Implied))
        case 0x9 => Some(Opcode(STA, AbsoluteY))
        case 0xA => Some(Opcode(TXS, Implied))
        case 0xB => None
        case 0xC => None
        case 0xD => Some(Opcode(STA, AbsoluteX))
        case 0xE => None
        case _ => None)
    case 0xA =>
      (match lo
        case 0x0 => Some(Opcode(LDY, Immediate))
        case 0x1 => Some(Opcode(LDA, IndirectX))
        case 0x2 => Some(Opcode(LDX, Immediate))
        case 0x3 => None
        case 0x4 => Some(Opcode(LDY, ZeroPage))
        case 0x5 => Some(Opcode(LDA, ZeroPage))
        case 0x6 => Some(Opcode(LDX, ZeroPage))
        case 0x7 => None
        case 0x8 => Some(Opcode(TAY, Implied))
        case 0x9 => Some(Opcode(LDA, Immediate))
        case 0xA => Some(Opcode(TAX, Implied))
        case 0xB => None
        case 0xC => Some(Opcode(LDY, Absolute))
        case 0xD => Some(Opcode(LDA, Absolute))
        case 0xE => Some(Opcode(LDX, Absolute))
        case _ => None)
    case 0xB =>
      (match lo
        case 0x0 => Some(Opcode(BCS, Relative))
        case 0x1 => Some(Opcode(LDA, IndirectY))
        case 0x2 => Some(Opcode(STP, Implied))
        case 0x3 => None
        case 0x4 => Some(Opcode(LDY, ZeroPageX))
        case 0x5 => Some(Opcode(LDA, ZeroPageX))
        case 0x6 => Some(Opcode(LDX, ZeroPageY))
        case 0x7 => None
        case 0x8 => Some(Opcode(CLV, Implied))
        case 0x9 => Some(Opcode(LDA, AbsoluteY))
        case 0xA => Some(Opcode(TSX, Implied))
        case 0xB => None
        case 0xC => Some(Opcode(LDY, AbsoluteX))
        case 0xD => Some(Opcode(LDA, AbsoluteX))
        case 0xE => Some(Opcode(LDX, AbsoluteY))
        case _ => None)
    case 0xC =>
      (match lo
        case 0x0 => Some(Opcode(CPY, Immediate))
        case 0x1 => Some(Opcode(CMP, IndirectX))
        case 0x2 => Some(Opcode(NOP, Immediate))
        case 0x3 => None
        case 0x4 => Some(Opcode(CPY, ZeroPage))
        case 0x5 => Some(Opcode(CMP, ZeroPage))
        case 0x6 => Some(Opcode(DEC, ZeroPage))
        case 0x7 => None
        case 0x8 => Some(Opcode(INY, Implied))
        case 0x9 => Some(Opcode(CMP, Immediate))
        case 0xA => Some(Opcode(DEX, Implied))
        case 0xB => None
        case 0xC => Some(Opcode(CPY, Absolute))
        case 0xD => Some(Opcode(CMP, Absolute))
        case 0xE => Some(Opcode(DEC, Absolute))
        case _ => None)
    case 0xD =>
      (match lo
        case 0x0 => Some(Opcode(BNE, Relative))
        case 0x1 => Some(Opcode(CMP, IndirectY))
        case 0x2 => Some(Opcode(STP, Implied))
        case 0x3 => None
        case 0x4 => Some(Opcode(NOP, ZeroPageX))
        case 0x5 => Some(Opcode(CMP, ZeroPageX))
        case 0x6 => Some(Opcode(DEC, ZeroPageX))
        case 0x7 => None
        case 0x8 => Some(Opcode(CLD, Implied))
        case 0x9 => Some(Opcode(CMP, AbsoluteY))
        case 0xA => Some(Opcode(NOP, Implied))
        case 0xB => None
        case 0xC => Some(Opcode(NOP, AbsoluteX))
        case 0xD => Some(Opcode(CMP, AbsoluteX))
        case 0xE => Some(Opcode(DEC, AbsoluteX))
        case _ => None)
    case 0xE =>
      (match lo
        case 0x0 => Some(Opcode(CPX, Immediate))
        case 0x1 => Some(Opcode(SBC, IndirectX))
        case 0x2 => Some(Opcode(NOP, Immediate))
        case 0x3 => None
        case 0x4 => Some(Opcode(CPX, ZeroPage))
        case 0x5 => Some(Opcode(SBC, ZeroPage))
        case 0x6 => Some(Opcode(INC, ZeroPage))
        case 0x7 => None
        case 0x8 => Some(Opcode(INX, Implied))
        case 0x9 => Some(Opcode(SBC, Immediate))
        case 0xA => Some(Opcode(NOP, Implied))
        case 0xB => Some(Opcode(SBC, Immediate))
        case 0xC => Some(Opcode(CPX, Absolute))
        case 0xD => Some(Opcode(SBC, Absolute))
        case 0xE => Some(Opcode(INC, Absolute))
        case _ => None)
    case _ =>
      (match lo
        case 0x0 => Some(Opcode(BEQ, Relative))
        case 0x1 => Some(Opcode(SBC, IndirectY))
        case 0x2 => Some(Opcode(STP, Implied))
        case 0x3 => None
        case 0x4 => Some(Opcode(NOP, ZeroPageX))
        case 0x5 => Some(Opcode(SBC, ZeroPageX))
        case 0x6 => Some(Opcode(INC, ZeroPageX))
        case 0x7 => None
        case 0x8 => Some(Opcode(SED, Implied))
        case 0x9 => Some(Opcode(SBC, AbsoluteY))
        case 0xA => Some(Opcode(NOP, Implied))
        case 0xB => None
        case 0xC => Some(Opcode(NOP, AbsoluteX))
        case 0xD => Some(Opcode(SBC, AbsoluteX))
        case 0xE => Some(Opcode(INC, AbsoluteX))
        case _ => None)
  }

  /** What call k of `next` returned; calls past the end of the answers
      return None. */
  function Answer(answers: seq<Option<u8>>, k: nat): Option<u8>
  {
    if k < |answers| then answers[k] else None
  }

  /** get_address, starting at call k: the low byte, then the high byte,
      stopping at the first None. Also gives the number of calls made. */
  function GetAddress(answers: seq<Option<u8>>, k: nat): (r: (Option<u16>, nat))
    ensures r.0.Some? <==> Answer(answers, k).Some? && Answer(answers, k + 1).Some?
    ensures r.0.Some? ==> Low(r.0.value) == Answer(answers, k).value && High(r.0.value) == Answer(answers, k + 1).value
    ensures r.1 == if Answer(answers, k).None? then 1 else 2
  {
    match Answer(answers, k)
    case None => (None, 1)
    case Some(low) =>
      match Answer(answers, k + 1)
      case None => (None, 2)
      case Some(high) => (Some(Word(high, low)), 2)
  }

  /** Decoder::decode: the instruction, or None, and how many times `next`
      was called. */
  function Decode(answers: seq<Option<u8>>): (Option<Instruction>, nat)
  {
    match Answer(answers, 0)
    case None => (None, 1)
    case Some(op) =>
      match Lookup(op)
      case None => (None, 1)
      case Some(code) =>
        if OperandBytes(code.mode) == 0 then (Some(Instruction(code, 0)), 1)
        else if OperandBytes(code.mode) == 1 then
          match Answer(answers, 1)
          case None => (None, 2)
          case Some(x) => (Some(Instruction(code, x)), 2)
        else
          var (address, calls) := GetAddress(answers, 1);
          match address
          case None => (None, 1 + calls)
          case Some(a) => (Some(Instruction(code, a)), 3)
  }

  /** Decode yields an instruction exactly when the opcode is in the table
      and every operand byte it asks for arrives; it then calls `next` once
      for the opcode and once per operand byte, operands little-endian. On
      None, the calls stop at the first missing byte. */
  lemma DecodeSpec(answers: seq<Option<u8>>)
    ensures var (r, calls) := Decode(answers);
      var op := Answer(answers, 0);
      && (r.Some? <==>
            && op.Some? && Lookup(op.value).Some?
            && (forall k :: 1 <= k <= OperandBytes(Lookup(op.value).value.mode) ==> Answer(answers, k).Some?))
      && (r.Some? ==>
            && r.value.code == Lookup(op.value).value
            && calls == 1 + OperandBytes(r.value.code.mode)
            && r.value.operand == match OperandBytes(r.value.code.mode)
                 case 0 => 0
                 case 1 => Answer(answers, 1).value
                 case _ => Word(Answer(answers, 2).value, Answer(answers, 1).value))
      && (r.None? ==> 1 <= calls && Answer(answers, calls - 1).None? != (op.Some? && Lookup(op.value).None?))
  {
  }

  /** Decode looks at no answer past the calls it made, so the bytes after an
      instruction are never consumed. */
  lemma DecodeStopsAtCalls(answers: seq<Option<u8>>, more: seq<Option<u8>>)
    ensures var calls := Decode(answers).1;
      calls <= |answers| ==> Decode(answers[..calls] + more) == Decode(answers)
  {
    var calls := Decode(answers).1;
    if calls <= |answers| {
      var cut := answers[..calls] + more;
      assert forall k: nat :: k < calls ==> Answer(cut, k) == Answer(answers, k);
    }
  }

  /** The opcodes with no entry: low nibble 3, 7 or F; low nibble B except
      0xEB; and 0x9C and 0x9E. */
  predicate Undefined(op: u8)
  {
    || op % 16 == 0x3 || op % 16 == 0x7 || op % 16 == 0xF
    || (op % 16 == 0xB && op != 0xEB)
    || op == 0x9C || op == 0x9E
  }

  /** The opcodes that stop the processor: low nibble 2 in every column
      except 0x82, 0xA2, 0xC2 and 0xE2 (immediate no-ops and LDX). */
  predicate Stops(op: u8)
  {
    op % 16 == 0x2 && op != 0x82 && op != 0xA2 && op != 0xC2 && op != 0xE2
  }

  /** What the table promises about one opcode. */
  predicate TableShape(op: u8)
  {
    && (Lookup(op).None? <==> Undefined(op))
    && (Lookup(op) == Some(Opcode(STP, Implied)) <==> Stops(op))
    && ((Lookup(op).Some? && Lookup(op).value.mnemonic == BRK) <==> op == 0x00)
  }

  /** The shape of the table: exactly the undefined opcodes decode to None,
      exactly the stop opcodes to STP, and only 0x00 to BRK. */
  lemma {:induction false} OpcodeTable(op: u8)
    ensures Lookup(op).None? <==> Undefined(op)
    ensures Lookup(op) == Some(Opcode(STP, Implied)) <==> Stops(op)
    ensures (Lookup(op).Some? && Lookup(op).value.mnemonic == BRK) <==> op == 0x00
  {
    match op / 16 {
    case 0x0 => OpcodeRow0(op);
    case 0x1 => OpcodeRow1(op);
    case 0x2 => OpcodeRow2(op);
    case 0x3 => OpcodeRow3(op);
    case 0x4 => OpcodeRow4(op);
    case 0x5 => OpcodeRow5(op);
    case 0x6 => OpcodeRow6(op);
    case 0x7 => OpcodeRow7(op);
    case 0x8 => OpcodeRow8(op);
    case 0x9 => OpcodeRow9(op);
    case 0xA => OpcodeRowA(op);
    case 0xB => OpcodeRowB(op);
    case 0xC => OpcodeRowC(op);
    case 0xD => OpcodeRowD(op);
    case 0xE => OpcodeRowE(op);
    case _ => OpcodeRowF(op);
    }
  }

  lemma OpcodeRow0(op: u8)
    requires op / 16 == 0x0
    ensures TableShape(op)
  {
    assert op == 0x00 + op % 16;
    match op % 16 { case 0x0 => {} case 0x1 => {} case 0x2 => {} case 0x3 => {} case 0x4 => {} case 0x5 => {} case 0x6 => {} case 0x7 => {} case 0x8 => {} case 0x9 => {} case 0xA => {} case 0xB => {} case 0xC => {} case 0xD => {} case 0xE => {} case _ => {} }
  }

  lemma OpcodeRow1(op: u8)
    requires op / 16 == 0x1
    ensures TableShape(op)
  {
    assert op == 0x10 + op % 16;
    match op % 16 { case 0x0 => {} case 0x1 => {} case 0x2 => {} case 0x3 => {} case 0x4 => {} case 0x5 => {} case 0x6 => {} case 0x7 => {} case 0x8 => {} case 0x9 => {} case 0xA => {} case 0xB => {} case 0xC => {} case 0xD => {} case 0xE => {} case _ => {} }
  }

  lemma OpcodeRow2(op: u8)
    requires op / 16 == 0x2
    ensures TableShape(op)
  {
    assert op == 0x20 + op % 16;
    match op % 16 { case 0x0 => {} case 0x1 => {} case 0x2 => {} case 0x3 => {} case 0x4 => {} case 0x5 => {} case 0x6 => {} case 0x7 => {} case 0x8 => {} case 0x9 => {} case 0xA => {} case 0xB => {} case 0xC => {} case 0xD => {} case 0xE => {} case _ => {} }
  }

  lemma OpcodeRow3(op: u8)
    requires op / 16 == 0x3
    ensures TableShape(op)
  {
    assert op == 0x30 + op % 16;
    match op % 16 { case 0x0 => {} case 0x1 => {} case 0x2 => {} case 0x3 => {} case 0x4 => {} case 0x5 => {} case 0x6 => {} case 0x7 => {} case 0x8 => {} case 0x9 => {} case 0xA => {} case 0xB => {} case 0xC => {} case 0xD => {} case 0xE => {} case _ => {} }
  }

  lemma OpcodeRow4(op: u8)
    requires op / 16 == 0x4
    ensures TableShape(op)
  {
    assert op == 0x40 + op % 16;
    match op % 16 { case 0x0 => {} case 0x1 => {} case 0x2 => {} case 0x3 => {} case 0x4 => {} case 0x5 => {} case 0x6 => {} case 0x7 => {} case 0x8 => {} case 0x9 => {} case 0xA => {} case 0xB => {} case 0xC => {} case 0xD => {} case 0xE => {} case _ => {} }
  }

  lemma OpcodeRow5(op: u8)
    requires op / 16 == 0x5
    ensures TableShape(op)
  {
    assert op == 0x50 + op % 16;
    match op % 16 { case 0x0 => {} case 0x1 => {} case 0x2 => {} case 0x3 => {} case 0x4 => {} case 0x5 => {} case 0x6 => {} case 0x7 => {} case 0x8 => {} case 0x9 => {} case 0xA => {} case 0xB => {} case 0xC => {} case 0xD => {} case 0xE => {} case _ => {} }
  }

  lemma OpcodeRow6(op: u8)
    requires op / 16 == 0x6
    ensures TableShape(op)
  {
    assert op == 0x60 + op % 16;
    match op % 16 { case 0x0 => {} case 0x1 => {} case 0x2 => {} case 0x3 => {} case 0x4 => {} case 0x5 => {} case 0x6 => {} case 0x7 => {} case 0x8 => {} case 0x9 => {} case 0xA => {} case 0xB => {} case 0xC => {} case 0xD => {} case 0xE => {} case _ => {} }
  }

  lemma OpcodeRow7(op: u8)
    requires op / 16 == 0x7
    ensures TableShape(op)
  {
    assert op == 0x70 + op % 16;
    match op % 16 { case 0x0 => {} case 0x1 => {} case 0x2 => {} case 0x3 => {} case 0x4 => {} case 0x5 => {} case 0x6 => {} case 0x7 => {} case 0x8 => {} case 0x9 => {} case 0xA => {} case 0xB => {} case 0xC => {} case 0xD => {} case 0xE => {} case _ => {} }
  }

  lemma OpcodeRow8(op: u8)
    requires op / 16 == 0x8
    ensures TableShape(op)
  {
    assert op == 0x80 + op % 16;
    match op % 16 { case 0x0 => {} case 0x1 => {} case 0x2 => {} case 0x3 => {} case 0x4 => {} case 0x5 => {} case 0x6 => {} case 0x7 => {} case 0x8 => {} case 0x9 => {} case 0xA => {} case 0xB => {} case 0xC => {} case 0xD => {} case 0xE => {} case _ => {} }
  }

  lemma OpcodeRow9(op: u8)
    requires op / 16 == 0x9
    ensures TableShape(op)
  {
    assert op == 0x90 + op % 16;
    match op % 16 { case 0x0 => {} case 0x1 => {} case 0x2 => {} case 0x3 => {} case 0x4 => {} case 0x5 => {} case 0x6 => {} case 0x7 => {} case 0x8 => {} case 0x9 => {} case 0xA => {} case 0xB => {} case 0xC => {} case 0xD => {} case 0xE => {} case _ => {} }
  }

  lemma OpcodeRowA(op: u8)
    requires op / 16 == 0xA
    ensures TableShape(op)
  {
    assert op == 0xA0 + op % 16;
    match op % 16 { case 0x0 => {} case 0x1 => {} case 0x2 => {} case 0x3 => {} case 0x4 => {} case 0x5 => {} case 0x6 => {} case 0x7 => {} case 0x8 => {} case 0x9 => {} case 0xA => {} case 0xB => {} case 0xC => {} case 0xD => {} case 0xE => {} case _ => {} }
  }

  lemma OpcodeRowB(op: u8)
    requires op / 16 == 0xB
    ensures TableShape(op)
  {
    assert op == 0xB0 + op % 16;
    match op % 16 { case 0x0 => {} case 0x1 => {} case 0x2 => {} case 0x3 => {} case 0x4 => {} case 0x5 => {} case 0x6 => {} case 0x7 => {} case 0x8 => {} case 0x9 => {} case 0xA => {} case 0xB => {} case 0xC => {} case 0xD => {} case 0xE => {} case _ => {} }
  }

  lemma OpcodeRowC(op: u8)
    requires op / 16 == 0xC
    ensures TableShape(op)
  {
    assert op == 0xC0 + op % 16;
    match op % 16 { case 0x0 => {} case 0x1 => {} case 0x2 => {} case 0x3 => {} case 0x4 => {} case 0x5 => {} case 0x6 => {} case 0x7 => {} case 0x8 => {} case 0x9 => {} case 0xA => {} case 0xB => {} case 0xC => {} case 0xD => {} case 0xE => {} case _ => {} }
  }

  lemma OpcodeRowD(op: u8)
    requires op / 16 == 0xD
    ensures TableShape(op)
  {
    assert op == 0xD0 + op % 16;
    match op % 16 { case 0x0 => {} case 0x1 => {} case 0x2 => {} case 0x3 => {} case 0x4 => {} case 0x5 => {} case 0x6 => {} case 0x7 => {} case 0x8 => {} case 0x9 => {} case 0xA => {} case 0xB => {} case 0xC => {} case 0xD => {} case 0xE => {} case _ => {} }
  }

  lemma OpcodeRowE(op: u8)
    requires op / 16 == 0xE
    ensures TableShape(op)
  {
    assert op == 0xE0 + op % 16;
    match op % 16 { case 0x0 => {} case 0x1 => {} case 0x2 => {} case 0x3 => {} case 0x4 => {} case 0x5 => {} case 0x6 => {} case 0x7 => {} case 0x8 => {} case 0x9 => {} case 0xA => {} case 0xB => {} case 0xC => {} case 0xD => {} case 0xE => {} case _ => {} }
  }

  lemma OpcodeRowF(op: u8)
    requires op / 16 == 0xF
    ensures TableShape(op)
  {
    assert op == 0xF0 + op % 16;
    match op % 16 { case 0x0 => {} case 0x1 => {} case 0x2 => {} case 0x3 => {} case 0x4 => {} case 0x5 => {} case 0x6 => {} case 0x7 => {} case 0x8 => {} case 0x9 => {} case 0xA => {} case 0xB => {} case 0xC => {} case 0xD => {} case 0xE => {} case _ => {} }
  }

  /** 0xEB is an unofficial copy of SBC immediate (0xE9). */
  lemma SbcAlias()
    ensures Lookup(0xEB) == Lookup(0xE9) == Some(Opcode(SBC, Immediate))
  {
  }

  /** decoder_iterator: a `next` callback answering f(0), f(1), ... in turn.
      Its counter is a u16 incremented after each call, so the call made at
      0xFFFF aborts instead of wrapping. */
  class DecoderIterator {
    const f: u16 -> Option<u8>
    var i: u16

    constructor (f: u16 -> Option<u8>)
      ensures this.f == f && i == 0
    {
      this.f := f;
      i := 0;
    }

    /** One call: the answer for the current count, then the count moves on. */
    method Next() returns (r: Result<Option<u8>, Panic>)
      modifies this
      ensures old(i) < 0xFFFF ==> r == Ok(f(old(i))) && i == old(i) + 1
      ensures old(i) == 0xFFFF ==> r == Err(ArithmeticOverflow) && i == old(i)
    {
      var value := f(i);
      if i == 0xFFFF {
        return Err(ArithmeticOverflow);
      }
      i := i + 1;
      r := Ok(value);
    }
  }
}
