/** Save states: the serialisable mirror of the CPU registers, the RAM and
    the picture processor, the field-for-field conversions between the live
    values and their mirrors, and the validating restore that rebuilds a
    console from a mirror.

    The register file here is the one these conversions are written
    against: control flags without the two base-name-table bits, and a
    render register (t, v, x, w) in place of the scroll and address latches
    of the register file in module Ppu. */
module SaveState {
  import opened Wrappers
  import opened Bytes
  import opened Ppu
  import Processor
  import Memory

  type u64 = x: int | 0 <= x < 0x1_0000_0000_0000_0000

  const RAM_SIZE := 0x800
  const SAVED_SIZE := 0x2000

  // ---------------------------------------------------------------------
  // The live values the conversions read and build

  /** The control register as the save state knows it: six flags. */
  datatype ControlFlags = ControlFlags(
    increment_32: bool,
    base_sprite_pattern_table: bool,
    base_background_pattern_table: bool,
    sprite_size: bool,
    ppu_color_ext: bool,
    gen_nmi: bool)

  /** The picture processor's internal scroll and address state: t, v, x
      and the write toggle w. */
  datatype RenderRegister = RenderRegister(t: u16, v: u16, x: u8, w: bool)

  datatype RegisterFile = RegisterFile(
    control: ControlFlags,
    mask: MaskRegister,
    status: StatusRegister,
    render: RenderRegister,
    oam_address: u8,
    read_buffer: u8)

  /** A running console as far as a save state sees it: the CPU registers
      and vectors, the bus cycle counter, RAM, save RAM, the controller
      cycle pair, and the picture processor's registers and memory. */
  datatype Console = Console(
    registers: Processor.Registers,
    vectors: Processor.Vectors,
    cycles: nat,
    ram: seq<u8>,
    saved: seq<u8>,
    controller_cycles: (u64, u64),
    ppu: RegisterFile,
    video: VideoMemory)

  predicate ConsoleShape(c: Console)
  {
    |c.ram| == RAM_SIZE && |c.saved| == SAVED_SIZE && VideoShape(c.video)
  }

  // ---------------------------------------------------------------------
  // The mirrors

  datatype CpuRegisters = CpuRegisters(pc: u16, a: u8, x: u8, y: u8, p: u8, sp: u8)
  datatype PpuStateSprite = PpuStateSprite(y: u8, number: u8, mask: u8, x: u8)
  datatype PpuStateControlRegister = PpuStateControlRegister(
    increment_32: bool,
    base_sprite_pattern_table: bool,
    base_background_pattern_table: bool,
    sprite_size: bool,
    ppu_color_ext: bool,
    gen_nmi: bool)
  datatype PpuStateMaskRegister = PpuStateMaskRegister(
    greyscale: bool,
    show_background_leftmost: bool,
    show_sprites_leftmost: bool,
    show_background: bool,
    show_sprites: bool,
    emphasize_red: bool,
    emphasize_green: bool,
    emphasize_blue: bool)
  datatype PpuStateStatusRegister = PpuStateStatusRegister(sprite_hit: bool, v_blank_hit: bool)
  datatype PpuStateRenderRegister = PpuStateRenderRegister(t: u16, v: u16, x: u8, w: bool)
  datatype PpuStateRegisters = PpuStateRegisters(
    control: PpuStateControlRegister,
    mask: PpuStateMaskRegister,
    status: PpuStateStatusRegister,
    render: PpuStateRenderRegister,
    oam_address: u8,
    read_buffer: u8)
  datatype PpuStateNameTable = PpuStateNameTable(contents: seq<u8>)
  /** The palettes are fixed-size arrays on both sides (PaletteShape). */
  datatype PpuStatePaletteMemory = PpuStatePaletteMemory(
    background_solid: u8,
    background: seq<seq<u8>>,
    sprite: seq<seq<u8>>)
  /** The sprite table and the name tables are vectors of any length until
      restore checks them. */
  datatype PpuStateMemory = PpuStateMemory(oam: seq<PpuStateSprite>, names: seq<PpuStateNameTable>, palette: PpuStatePaletteMemory)
  datatype PpuState = PpuState(registers: PpuStateRegisters, memory: PpuStateMemory)
  datatype CpuState = CpuState(ram: seq<u8>, controller_cycles: (u64, u64), registers: CpuRegisters, ppu: PpuState)

  // ---------------------------------------------------------------------
  // Field-for-field conversions

  /** The status byte is stored as its raw bits and restored with every bit
      kept, so all eight bits survive. */
  function RegistersToState(r: Processor.Registers): (s: CpuRegisters)
  {
    CpuRegisters(r.pc, r.a, r.x, r.y, r.p, r.sp)
  }

  function RegistersFromState(s: CpuRegisters): (r: Processor.Registers)
  {
    Processor.Registers(s.pc, s.a, s.x, s.y, s.p, s.sp)
  }

  lemma RegistersRoundTrip(r: Processor.Registers, s: CpuRegisters)
    ensures RegistersFromState(RegistersToState(r)) == r
    ensures RegistersToState(RegistersFromState(s)) == s
  {
  }

  function ControlToState(c: ControlFlags): PpuStateControlRegister
  {
    PpuStateControlRegister(c.increment_32, c.base_sprite_pattern_table, c.base_background_pattern_table,
                            c.sprite_size, c.ppu_color_ext, c.gen_nmi)
  }

  function ControlFromState(s: PpuStateControlRegister): ControlFlags
  {
    ControlFlags(s.increment_32, s.base_sprite_pattern_table, s.base_background_pattern_table,
                 s.sprite_size, s.ppu_color_ext, s.gen_nmi)
  }

  function MaskToState(m: MaskRegister): PpuStateMaskRegister
  {
    PpuStateMaskRegister(m.greyscale, m.show_background_leftmost, m.show_sprites_leftmost, m.show_background,
                         m.show_sprites, m.emphasize_red, m.emphasize_green, m.emphasize_blue)
  }

  function MaskFromState(s: PpuStateMaskRegister): MaskRegister
  {
    MaskRegister(s.greyscale, s.show_background_leftmost, s.show_sprites_leftmost, s.show_background,
                 s.show_sprites, s.emphasize_red, s.emphasize_green, s.emphasize_blue)
  }

  function StatusToState(s: StatusRegister): PpuStateStatusRegister
  {
    PpuStateStatusRegister(s.sprite_hit, s.v_blank_hit)
  }

  function StatusFromState(s: PpuStateStatusRegister): StatusRegister
  {
    StatusRegister(s.sprite_hit, s.v_blank_hit)
  }

  function RenderToState(r: RenderRegister): PpuStateRenderRegister
  {
    PpuStateRenderRegister(r.t, r.v, r.x, r.w)
  }

  function RenderFromState(s: PpuStateRenderRegister): RenderRegister
  {
    RenderRegister(s.t, s.v, s.x, s.w)
  }

  function PpuRegistersToState(r: RegisterFile): PpuStateRegisters
  {
    PpuStateRegisters(ControlToState(r.control), MaskToState(r.mask), StatusToState(r.status),
                      RenderToState(r.render), r.oam_address, r.read_buffer)
  }

  function PpuRegistersFromState(s: PpuStateRegisters): RegisterFile
  {
    RegisterFile(ControlFromState(s.control), MaskFromState(s.mask), StatusFromState(s.status),
                 RenderFromState(s.render), s.oam_address, s.read_buffer)
  }

  /** Every register of the file, each of its flags and fields, survives a
      save and a restore, in both orders. */
  lemma PpuRegistersRoundTrip(r: RegisterFile, s: PpuStateRegisters)
    ensures PpuRegistersFromState(PpuRegistersToState(r)) == r
    ensures PpuRegistersToState(PpuRegistersFromState(s)) == s
  {
  }

  function SpriteToState(s: Sprite): PpuStateSprite
  {
    PpuStateSprite(s.y, s.number, s.mask, s.x)
  }

  function SpriteFromState(s: PpuStateSprite): Sprite
  {
    Sprite(s.y, s.number, s.mask, s.x)
  }

  function PaletteToState(p: PaletteMemory): PpuStatePaletteMemory
  {
    PpuStatePaletteMemory(p.background_solid, p.background, p.sprite)
  }

  function PaletteFromState(s: PpuStatePaletteMemory): PaletteMemory
  {
    PaletteMemory(s.background_solid, s.background, s.sprite)
  }

  // ---------------------------------------------------------------------
  // Video memory

  /** The mirror of video memory: every sprite converted in order, every
      name table copied into a vector, the palette copied. */
  function MemoryToState(m: VideoMemory): (s: PpuStateMemory)
    ensures |s.oam| == |m.oam| && |s.names| == |m.names|
    ensures forall i :: 0 <= i < |m.oam| ==> s.oam[i] == SpriteToState(m.oam[i])
    ensures forall p :: 0 <= p < |m.names| ==> s.names[p].contents == m.names[p]
    ensures s.palette == PaletteToState(m.palette)
  {
    PpuStateMemory(seq(|m.oam|, i requires 0 <= i < |m.oam| => SpriteToState(m.oam[i])),
                   seq(|m.names|, p requires 0 <= p < |m.names| => PpuStateNameTable(m.names[p])),
                   PaletteToState(m.palette))
  }

  /** Collecting the name tables: None as soon as one table does not hold
      exactly 0x400 bytes, otherwise their contents in order. */
  function CollectTables(names: seq<PpuStateNameTable>): (r: Option<seq<seq<u8>>>)
    ensures r.Some? ==> |r.value| == |names|
  {
    if |names| == 0 then Some([])
    else if |names[0].contents| != NAME_TABLE_SIZE then None
    else
      match CollectTables(names[1..])
      case None => None
      case Some(rest) => Some([names[0].contents] + rest)
  }

  /** Collecting succeeds exactly when every table has 0x400 bytes, and
      then yields each table's contents unchanged. */
  lemma {:induction false} CollectTablesExact(names: seq<PpuStateNameTable>)
    ensures CollectTables(names).Some? <==> forall p :: 0 <= p < |names| ==> |names[p].contents| == NAME_TABLE_SIZE
    ensures CollectTables(names).Some? ==> forall p :: 0 <= p < |names| ==> CollectTables(names).value[p] == names[p].contents
  {
    if |names| > 0 {
      CollectTablesExact(names[1..]);
      if |names[0].contents| == NAME_TABLE_SIZE && CollectTables(names[1..]).Some? {
        forall p | 1 <= p < |names|
          ensures CollectTables(names).value[p] == names[p].contents
        {
          assert names[1..][p - 1] == names[p];
        }
      }
      if CollectTables(names[1..]).None? {
        var q :| 0 <= q < |names[1..]| && |names[1..][q].contents| != NAME_TABLE_SIZE;
        assert names[q + 1] == names[1..][q];
      }
    }
  }

  /** PpuStateMemory::restore: the sprite table must hold exactly 64
      entries and there must be exactly four name tables of 0x400 bytes;
      otherwise there is no memory to restore. */
  function MemoryFromState(s: PpuStateMemory): (r: Option<VideoMemory>)
    requires PaletteShape(PaletteFromState(s.palette))
    ensures r.Some? ==> VideoShape(r.value)
  {
    var oam := seq(|s.oam|, i requires 0 <= i < |s.oam| => SpriteFromState(s.oam[i]));
    if |oam| != SPRITE_COUNT then None
    else
      match CollectTables(s.names)
      case None => None
      case Some(names) =>
        if |names| != 4 then None
        else
          CollectTablesExact(s.names);
          Some(VideoMemory(oam, names, PaletteFromState(s.palette)))
  }

  /** Restore fails exactly when the sprite table does not hold 64 entries
      or the name tables are not four of 0x400 bytes each; when it succeeds
      every sprite, name-table byte and palette entry is the stored one. */
  lemma MemoryRestoreExact(s: PpuStateMemory)
    requires PaletteShape(PaletteFromState(s.palette))
    ensures MemoryFromState(s).Some? <==>
      |s.oam| == SPRITE_COUNT && |s.names| == 4 && forall p :: 0 <= p < 4 ==> |s.names[p].contents| == NAME_TABLE_SIZE
    ensures MemoryFromState(s).Some? ==>
      && (forall i :: 0 <= i < SPRITE_COUNT ==> MemoryFromState(s).value.oam[i] == SpriteFromState(s.oam[i]))
      && (forall p :: 0 <= p < 4 ==> MemoryFromState(s).value.names[p] == s.names[p].contents)
      && MemoryFromState(s).value.palette == PaletteFromState(s.palette)
  {
    CollectTablesExact(s.names);
  }

  /** Saving video memory and restoring it gives back the same sprites, name
      tables and palette. */
  lemma MemoryRoundTrip(m: VideoMemory)
    requires VideoShape(m)
    ensures PaletteShape(PaletteFromState(MemoryToState(m).palette))
    ensures MemoryFromState(MemoryToState(m)) == Some(m)
  {
    var s := MemoryToState(m);
    MemoryRestoreExact(s);
    var r := MemoryFromState(s).value;
    assert r.oam == m.oam;
    assert r.names == m.names;
  }

  /** And a mirror that restores is the mirror of what it restores to. */
  lemma MemoryStateRoundTrip(s: PpuStateMemory)
    requires PaletteShape(PaletteFromState(s.palette))
    requires MemoryFromState(s).Some?
    ensures MemoryToState(MemoryFromState(s).value) == s
  {
    MemoryRestoreExact(s);
    var t := MemoryToState(MemoryFromState(s).value);
    assert t.oam == s.oam;
    assert t.names == s.names;
  }

  // ---------------------------------------------------------------------
  // The whole console

  /** CpuState from a Cpu: the RAM, the controller cycles, the registers
      and the picture processor. Neither the cycle counter nor save RAM is
      stored. */
  function Save(c: Console): (s: CpuState)
    ensures s.ram == c.ram && s.controller_cycles == c.controller_cycles
  {
    CpuState(c.ram, c.controller_cycles, RegistersToState(c.registers),
             PpuState(PpuRegistersToState(c.ppu), MemoryToState(c.video)))
  }

  /** Vectors::new on a restored bus: the three words at the top of program
      ROM, read in six cycles; without program ROM the first read divides by
      zero. */
  function RestoredVectors(prg: seq<u8>): (v: Result<Processor.Vectors, Panic>)
  {
    if |prg| == 0 then Err(DivisionByZero)
    else Ok(Processor.Vectors(Processor.PrgWord(prg, 0xFFFA), Processor.PrgWord(prg, 0xFFFC), Processor.PrgWord(prg, 0xFFFE)))
  }

  /** CpuState::restore: None unless the RAM holds exactly 0x800 bytes and
      the picture processor's memory restores; then a bus with zero cycles
      and zeroed save RAM whose vector reads cost six cycles. An aborting
      vector read (no program ROM) is the Err outcome. */
  function Restore(s: CpuState, prg: seq<u8>): (r: Result<Option<Console>, Panic>)
    requires PaletteShape(PaletteFromState(s.ppu.memory.palette))
    ensures r.Ok? && r.value.Some? ==> ConsoleShape(r.value.value)
  {
    if |s.ram| != RAM_SIZE then Ok(None)
    else
      match MemoryFromState(s.ppu.memory)
      case None => Ok(None)
      case Some(video) =>
        match RestoredVectors(prg)
        case Err(p) => Err(p)
        case Ok(vectors) =>
          Ok(Some(Console(RegistersFromState(s.registers), vectors, 6, s.ram, seq(SAVED_SIZE, _ => 0),
                          s.controller_cycles, PpuRegistersFromState(s.ppu.registers), video)))
  }

  /** Restore reports a malformed state (None) exactly when the RAM is not
      0x800 bytes or the video memory does not restore; with program ROM it
      never aborts. */
  lemma RestoreRejects(s: CpuState, prg: seq<u8>)
    requires PaletteShape(PaletteFromState(s.ppu.memory.palette))
    requires |prg| > 0
    ensures Restore(s, prg).Ok?
    ensures Restore(s, prg).value.None? <==> |s.ram| != RAM_SIZE || MemoryFromState(s.ppu.memory).None?
  {
  }

  /** Saving a console and restoring it on the same cartridge gives back the
      console with its registers, RAM, controller cycles, picture-processor
      registers and video memory unchanged; the cycle counter restarts (six
      cycles of vector reads), save RAM comes back zeroed, and the vectors
      are read again from program ROM. */
  lemma RestoreAfterSave(c: Console, prg: seq<u8>)
    requires ConsoleShape(c) && |prg| > 0
    ensures PaletteShape(PaletteFromState(Save(c).ppu.memory.palette))
    ensures Restore(Save(c), prg) ==
      Ok(Some(c.(vectors := RestoredVectors(prg).value, cycles := 6, saved := seq(SAVED_SIZE, _ => 0))))
  {
    MemoryRoundTrip(c.video);
    RegistersRoundTrip(c.registers, RegistersToState(c.registers));
    PpuRegistersRoundTrip(c.ppu, PpuRegistersToState(c.ppu));
  }

  /** A state that restores is the save of the console it restores to. */
  lemma SaveAfterRestore(s: CpuState, prg: seq<u8>)
    requires PaletteShape(PaletteFromState(s.ppu.memory.palette))
    requires Restore(s, prg).Ok? && Restore(s, prg).value.Some?
    ensures Save(Restore(s, prg).value.value) == s
  {
    MemoryStateRoundTrip(s.ppu.memory);
    RegistersRoundTrip(RegistersFromState(s.registers), s.registers);
    PpuRegistersRoundTrip(PpuRegistersFromState(s.ppu.registers), s.ppu.registers);
  }

  /** The restored vectors are what Vectors::new reads from any bus over
      the same program ROM. */
  lemma RestoredVectorsRead(b: Memory.Bus, prg: seq<u8>, chr: seq<u8>)
    requires Memory.BusShape(b) && |prg| > 0
    ensures Processor.VectorsSpec(b, prg, chr).0 == RestoredVectors(prg)
    ensures Processor.VectorsSpec(b, prg, chr).1.cycles == b.cycles + 6
  {
    Processor.VectorsFromRom(b, prg, chr);
  }
}
