/** The CPU's address bus: 2 KiB of RAM mirrored up to 0x1FFF, the picture
    processor's ports, the first controller, 8 KiB of battery-backed RAM at
    0x6000 and the cartridge's program ROM from 0x8000, plus the cycle
    counter every bus access advances and OAM DMA. */
module Memory {
  import opened Wrappers
  import opened Bytes
  import Rom
  import opened Ppu
  import opened Controller

  const RAM_SIZE := 0x800
  const SAVED_SIZE := 0x2000

  datatype MemoryError =
    | UnmappedRead(address: u16)
    | UnmappedWrite(address: u16)
    | PpuError(error: PpuMemoryError)
      /** The Rust code panics here instead of returning an error. */
    | Aborted(reason: Panic)

  /** What a read at an address reaches. */
  datatype ReadTarget =
    | ReadRam(index: nat)
    | ReadPpuStatus
    | ReadPpuOam
    | ReadPpuData
    | ReadApuStatus
    | ReadPad1
    | ReadPad2
    | ReadSaved(index: nat)
    | ReadPrg(offset: nat)
    | ReadNothing

  /** What a write at an address reaches. */
  datatype WriteTarget =
    | WriteRam(index: nat)
    | WritePpuControl
    | WritePpuMask
    | WritePpuOamAddress
    | WritePpuOam
    | WritePpuScroll
    | WritePpuAddress
    | WritePpuData
    | WriteIgnored
    | WriteOamDma
    | WriteSaved(index: nat)
    | WriteNothing

  function ReadTargetOf(address: u16): (t: ReadTarget)
    ensures t.ReadRam? ==> t.index < RAM_SIZE
    ensures t.ReadSaved? ==> t.index < SAVED_SIZE
    ensures t.ReadPrg? ==> t.offset < 0x8000
  {
    if address <= 0x1FFF then ReadRam(address % 0x800)
    else if address == 0x2002 then ReadPpuStatus
    else if address == 0x2004 then ReadPpuOam
    else if address == 0x2007 then ReadPpuData
    else if address == 0x4015 then ReadApuStatus
    else if address == 0x4016 then ReadPad1
    else if address == 0x4017 then ReadPad2
    else if 0x6000 <= address <= 0x7FFF then ReadSaved(address - 0x6000)
    else if 0x8000 <= address then ReadPrg(address - 0x8000)
    else ReadNothing
  }

  function WriteTargetOf(address: u16): (t: WriteTarget)
    ensures t.WriteRam? ==> t.index < RAM_SIZE
    ensures t.WriteSaved? ==> t.index < SAVED_SIZE
  {
    if address <= 0x1FFF then WriteRam(address % 0x800)
    else if address == 0x2000 then WritePpuControl
    else if address == 0x2001 then WritePpuMask
    else if address == 0x2003 then WritePpuOamAddress
    else if address == 0x2004 then WritePpuOam
    else if address == 0x2005 then WritePpuScroll
    else if address == 0x2006 then WritePpuAddress
    else if address == 0x2007 then WritePpuData
    else if 0x4000 <= address <= 0x4013 then WriteIgnored
    else if address == 0x4014 then WriteOamDma
    else if 0x4015 <= address <= 0x4017 then WriteIgnored
    else if 0x6000 <= address <= 0x7FFF then WriteSaved(address - 0x6000)
    else WriteNothing
  }

  /** RAM repeats every 0x800 bytes below 0x2000, for reads and writes. */
  lemma RamMirrors(address: u16, k: nat)
    requires address + k * RAM_SIZE <= 0x1FFF
    ensures ReadTargetOf(address + k * RAM_SIZE) == ReadTargetOf(address) == ReadRam(address % 0x800)
    ensures WriteTargetOf(address + k * RAM_SIZE) == WriteTargetOf(address) == WriteRam(address % 0x800)
  {
    assert (address + k * RAM_SIZE) % 0x800 == address % 0x800;
  }

  /** The reads that fail as unmapped: 0x2000..=0x3FFF except the three
      readable ports, 0x4000..=0x4014 and 0x4018..=0x5FFF. */
  lemma UnmappedReads(address: u16)
    ensures ReadTargetOf(address) == ReadNothing <==>
      (0x2000 <= address <= 0x5FFF && address != 0x2002 && address != 0x2004 && address != 0x2007
       && !(0x4015 <= address <= 0x4017))
  {
  }

  /** The writes that fail as unmapped: the PPU range except its seven
      writable ports, 0x4018..=0x5FFF, and all of program ROM. */
  lemma UnmappedWrites(address: u16)
    ensures WriteTargetOf(address) == WriteNothing <==>
      ((0x2000 <= address <= 0x3FFF && !(address <= 0x2007 && address != 0x2002))
       || 0x4018 <= address <= 0x5FFF || address >= 0x8000)
  {
  }

  /** The bus and everything behind it, as a value. */
  datatype Bus = Bus(
    cycles: nat,
    ram: seq<u8>,
    saved: seq<u8>,
    ppu: PpuRegisters,
    video: VideoMemory,
    pad_clock: nat,
    pad_flags: u8)

  predicate BusShape(b: Bus)
  {
    |b.ram| == RAM_SIZE && |b.saved| == SAVED_SIZE && VideoShape(b.video)
  }

  function LiftPpu<T>(r: Result<T, PpuMemoryError>): Result<T, MemoryError>
  {
    match r
    case Ok(v) => Ok(v)
    case Err(e) => Err(PpuError(e))
  }

  /** Memory::pass_get: a read without the bus cycle. Reads of the data port
      and the first controller change state; program ROM is read modulo its
      length, which needs a non-empty ROM. */
  function PassGetSpec(b: Bus, prg: seq<u8>, chr: seq<u8>, address: u16): (Result<u8, MemoryError>, Bus)
    requires BusShape(b)
  {
    match ReadTargetOf(address)
    case ReadRam(i) => (Ok(b.ram[i]), b)
    case ReadPpuStatus => (Ok(StatusBits(b.ppu.status)), b)
    case ReadPpuOam => (Ok(SpriteRead(b.video.oam[b.ppu.oam_address / 4], (b.ppu.oam_address % 4) as u8)), b)
    case ReadPpuData =>
      var (r, registers) := ReadDataStep(b.ppu, b.video, chr);
      (LiftPpu(r), b.(ppu := registers))
    case ReadApuStatus => (Ok(0), b)
    case ReadPad1 => (Ok(SerialBit(b.pad_flags, b.pad_clock)), b.(pad_clock := b.pad_clock + 1))
    case ReadPad2 => (Ok(NoControllerRead()), b)
    case ReadSaved(i) => (Ok(b.saved[i]), b)
    case ReadPrg(offset) =>
      if |prg| == 0 then (Err(MemoryError.Aborted(DivisionByZero)), b) else (Ok(prg[offset % |prg|]), b)
    case ReadNothing => (Err(MemoryError.UnmappedRead(address)), b)
  }

  /** Memory::get: one bus cycle, then the read. */
  function GetSpec(b: Bus, prg: seq<u8>, chr: seq<u8>, address: u16): (out: (Result<u8, MemoryError>, Bus))
    requires BusShape(b)
    ensures BusShape(out.1) && out.1.cycles == b.cycles + 1
  {
    PassGetFrame(b.(cycles := b.cycles + 1), prg, chr, address);
    PassGetSpec(b.(cycles := b.cycles + 1), prg, chr, address)
  }

  /** A read changes the bus only where the source says it does: never RAM,
      save RAM, video memory or the controller's buttons; the PPU registers
      only through the data port; the controller clock only through 0x4016;
      the cycle count not at all. */
  lemma PassGetFrame(b: Bus, prg: seq<u8>, chr: seq<u8>, address: u16)
    requires BusShape(b)
    ensures var b' := PassGetSpec(b, prg, chr, address).1;
      && BusShape(b')
      && b'.cycles == b.cycles && b'.ram == b.ram && b'.saved == b.saved && b'.video == b.video
      && b'.pad_flags == b.pad_flags
      && (address != 0x2007 ==> b'.ppu == b.ppu)
      && b'.pad_clock == if address == 0x4016 then b.pad_clock + 1 else b.pad_clock
  {
  }

  /** The values the plain memory regions give back. */
  lemma PassGetRegions(b: Bus, prg: seq<u8>, chr: seq<u8>, address: u16)
    requires BusShape(b)
    ensures address <= 0x1FFF ==> PassGetSpec(b, prg, chr, address).0 == Ok(b.ram[address % 0x800])
    ensures 0x6000 <= address <= 0x7FFF ==> PassGetSpec(b, prg, chr, address).0 == Ok(b.saved[address - 0x6000])
    ensures 0x8000 <= address && |prg| > 0 ==>
      PassGetSpec(b, prg, chr, address).0 == Ok(prg[(address - 0x8000) % |prg|])
    ensures address == 0x4015 ==> PassGetSpec(b, prg, chr, address).0 == Ok(0)
  {
  }

  /** The first address past page `page`. */
  function PageEnd(page: u8): nat
  {
    page * 0x100 + 0x100
  }

  /** OAM DMA from page `page`, from address `next` on: each address up to
      the end of the page is a bus read followed by an extra cycle, `acc`
      holds the bytes read so far, and the result is the whole image or the
      first error. */
  function DmaFrom(b: Bus, prg: seq<u8>, chr: seq<u8>, page: u8, next: nat, acc: seq<u8>): (out: (Result<seq<u8>, MemoryError>, Bus))
    requires BusShape(b) && page * 0x100 <= next <= PageEnd(page)
    ensures BusShape(out.1)
    ensures out.0.Ok? ==> |out.0.value| == |acc| + PageEnd(page) - next
    ensures out.0.Ok? ==> out.1.cycles == b.cycles + 2 * (PageEnd(page) - next)
    decreases PageEnd(page) - next
  {
    if next == PageEnd(page) then (Ok(acc), b)
    else
      var (r, b') := GetSpec(b, prg, chr, next);
      PassGetFrame(b.(cycles := b.cycles + 1), prg, chr, next);
      match r
      case Err(e) => (Err(e), b')
      case Ok(v) => DmaFrom(b'.(cycles := b'.cycles + 1), prg, chr, page, next + 1, acc + [v])
  }

  /** One successful DMA read, unfolded. */
  lemma DmaStepOk(b: Bus, prg: seq<u8>, chr: seq<u8>, page: u8, next: nat, acc: seq<u8>, v: u8, b': Bus)
    requires BusShape(b) && page * 0x100 <= next < PageEnd(page)
    requires GetSpec(b, prg, chr, next) == (Ok(v), b')
    ensures BusShape(b')
    ensures DmaFrom(b, prg, chr, page, next, acc) == DmaFrom(b'.(cycles := b'.cycles + 1), prg, chr, page, next + 1, acc + [v])
  {
    PassGetFrame(b.(cycles := b.cycles + 1), prg, chr, next);
  }

  /** One failing DMA read ends the transfer with its error. */
  lemma DmaStepErr(b: Bus, prg: seq<u8>, chr: seq<u8>, page: u8, next: nat, acc: seq<u8>, e: MemoryError, b': Bus)
    requires BusShape(b) && page * 0x100 <= next < PageEnd(page)
    requires GetSpec(b, prg, chr, next) == (Err(e), b')
    ensures DmaFrom(b, prg, chr, page, next, acc) == (Err(e), b')
  {
  }

  /** OAM DMA as a whole: the reads, the copy into OAM, one wait cycle. */
  function OamDmaSpec(b: Bus, prg: seq<u8>, chr: seq<u8>, page: u8): (Result<(), MemoryError>, Bus)
    requires BusShape(b)
  {
    var (t, b') := DmaFrom(b, prg, chr, page, page * 0x100, []);
    if t.Err? then (Err(t.error), b')
    else (Ok(()), b'.(video := b'.video.(oam := OamFromBytes(t.value)), cycles := b'.cycles + 1))
  }

  /** At the end of the page the transfer is complete. */
  lemma DmaDone(b: Bus, prg: seq<u8>, chr: seq<u8>, page: u8, acc: seq<u8>)
    requires BusShape(b)
    ensures DmaFrom(b, prg, chr, page, PageEnd(page), acc) == (Ok(acc), b)
  {
  }

  /** The transfer's outcome decides the whole DMA's outcome. */
  lemma DmaOutcome(b: Bus, prg: seq<u8>, chr: seq<u8>, page: u8, r: Result<seq<u8>, MemoryError>, b': Bus)
    requires BusShape(b) && DmaFrom(b, prg, chr, page, page * 0x100, []) == (r, b')
    ensures BusShape(b')
    ensures r.Err? ==> OamDmaSpec(b, prg, chr, page) == (Err(r.error), b')
    ensures r.Ok? ==> |r.value| == 256
    ensures r.Ok? ==>
      OamDmaSpec(b, prg, chr, page) == (Ok(()), b'.(video := b'.video.(oam := OamFromBytes(r.value)), cycles := b'.cycles + 1))
  {
  }

  /** The 256 RAM bytes a DMA from page `page` reads, in order. */
  function RamPage(ram: seq<u8>, page: u8): (s: seq<u8>)
    requires |ram| == RAM_SIZE
    ensures |s| == 256
    ensures forall i :: 0 <= i < 256 ==> s[i] == ram[(page * 0x100 + i) % 0x800]
  {
    seq(256, i requires 0 <= i < 256 => ram[(page * 0x100 + i) % 0x800])
  }

  /** A suffix is its first element followed by the rest. */
  lemma SliceFirst<T>(s: seq<T>, i: nat)
    requires i < |s|
    ensures s[i..] == [s[i]] + s[i + 1..]
  {
  }

  /** Reading a RAM page by DMA succeeds, returns the RAM bytes in order and
      changes nothing but the cycle count, by two per byte. */
  lemma {:induction false} DmaRamReads(b: Bus, prg: seq<u8>, chr: seq<u8>, page: u8, next: nat, acc: seq<u8>)
    requires BusShape(b) && page < 0x20 && page * 0x100 <= next <= PageEnd(page)
    ensures DmaFrom(b, prg, chr, page, next, acc) ==
      (Ok(acc + RamPage(b.ram, page)[next - page * 0x100..]), b.(cycles := b.cycles + 2 * (PageEnd(page) - next)))
    decreases PageEnd(page) - next
  {
    if next < PageEnd(page) {
      var b2 := b.(cycles := b.cycles + 2);
      var acc2 := acc + [b.ram[next % 0x800]];
      DmaRamReads(b2, prg, chr, page, next + 1, acc2);
      DmaRamStep(b, prg, chr, page, next, acc, b2, acc2);
    } else {
      assert acc + RamPage(b.ram, page)[next - page * 0x100..] == acc;
    }
  }

  /** One DMA read from a RAM page: the next page byte, two cycles. */
  lemma DmaRamStep(b: Bus, prg: seq<u8>, chr: seq<u8>, page: u8, next: nat, acc: seq<u8>, b2: Bus, acc2: seq<u8>)
    requires BusShape(b) && page < 0x20 && page * 0x100 <= next < PageEnd(page)
    requires b2 == b.(cycles := b.cycles + 2) && acc2 == acc + [b.ram[next % 0x800]]
    requires DmaFrom(b2, prg, chr, page, next + 1, acc2) ==
      (Ok(acc2 + RamPage(b2.ram, page)[next + 1 - page * 0x100..]), b2.(cycles := b2.cycles + 2 * (PageEnd(page) - (next + 1))))
    ensures DmaFrom(b, prg, chr, page, next, acc) ==
      (Ok(acc + RamPage(b.ram, page)[next - page * 0x100..]), b.(cycles := b.cycles + 2 * (PageEnd(page) - next)))
  {
    DmaRamAdvance(b, prg, chr, page, next, acc, b2, acc2);
    RamPageNext(b.ram, page, next - page * 0x100, acc, acc2);
    assert b2.(cycles := b2.cycles + 2 * (PageEnd(page) - (next + 1))) == b.(cycles := b.cycles + 2 * (PageEnd(page) - next));
  }

  /** Appending the page's byte i to what was read leaves the rest of the
      page from byte i + 1 to come. */
  lemma RamPageNext(ram: seq<u8>, page: u8, i: nat, acc: seq<u8>, acc2: seq<u8>)
    requires |ram| == RAM_SIZE && i < 256
    requires acc2 == acc + [ram[(page * 0x100 + i) % 0x800]]
    ensures acc2 + RamPage(ram, page)[i + 1..] == acc + RamPage(ram, page)[i..]
  {
    SliceFirst(RamPage(ram, page), i);
  }

  /** A DMA read from RAM moves on to the next address with the byte read
      appended, two cycles later. */
  lemma DmaRamAdvance(b: Bus, prg: seq<u8>, chr: seq<u8>, page: u8, next: nat, acc: seq<u8>, b2: Bus, acc2: seq<u8>)
    requires BusShape(b) && page < 0x20 && page * 0x100 <= next < PageEnd(page)
    requires b2 == b.(cycles := b.cycles + 2) && acc2 == acc + [b.ram[next % 0x800]]
    ensures DmaFrom(b, prg, chr, page, next, acc) == DmaFrom(b2, prg, chr, page, next + 1, acc2)
  {
    var b1 := b.(cycles := b.cycles + 1);
    GetRam(b, prg, chr, next);
    DmaStepOk(b, prg, chr, page, next, acc, b.ram[next % 0x800], b1);
    assert b1.(cycles := b1.cycles + 1) == b2;
  }

  /** DMA from a RAM page succeeds, installs the page as the OAM image,
      changes nothing else and takes 513 cycles: 256 reads, 256 extra cycles
      and one wait cycle. */
  lemma DmaFromRam(b: Bus, prg: seq<u8>, chr: seq<u8>, page: u8)
    requires BusShape(b) && page < 0x20
    ensures OamDmaSpec(b, prg, chr, page) ==
      (Ok(()), b.(cycles := b.cycles + 513, video := b.video.(oam := OamFromBytes(RamPage(b.ram, page)))))
  {
    DmaRamPage(b, prg, chr, page);
  }

  /** The reads of a whole RAM page: the page's bytes, 512 cycles. */
  lemma DmaRamPage(b: Bus, prg: seq<u8>, chr: seq<u8>, page: u8)
    requires BusShape(b) && page < 0x20
    ensures DmaFrom(b, prg, chr, page, page * 0x100, []) == (Ok(RamPage(b.ram, page)), b.(cycles := b.cycles + 512))
  {
    DmaRamReads(b, prg, chr, page, page * 0x100, []);
    EmptyPrefix(RamPage(b.ram, page));
  }

  lemma EmptyPrefix<T>(s: seq<T>)
    ensures [] + s[0..] == s
  {
  }

  /** Installed as OAM, byte 4s+k of a RAM page becomes field k of sprite
      s; with DmaFromRam this says where each sprite field comes from. */
  lemma DmaSpriteFields(ram: seq<u8>, page: u8, s: nat, k: u8)
    requires |ram| == RAM_SIZE && s < SPRITE_COUNT && k < 4
    ensures SpriteRead(OamFromBytes(RamPage(ram, page))[s], k) == ram[(page * 0x100 + 4 * s + k) % 0x800]
  {
    var data := RamPage(ram, page);
    assert SpriteRead(OamFromBytes(data)[s], k) == data[4 * s + k];
  }

  /** Memory::pass_set: a write without the bus cycle. */
  function PassSetSpec(b: Bus, prg: seq<u8>, chr: seq<u8>, address: u16, value: u8): (Result<(), MemoryError>, Bus)
    requires BusShape(b)
  {
    match WriteTargetOf(address)
    case WriteRam(i) => (Ok(()), b.(ram := b.ram[i := value]))
    case WritePpuControl => (Ok(()), b.(ppu := b.ppu.(control := ControlFromBits(value))))
    case WritePpuMask => (Ok(()), b.(ppu := b.ppu.(mask := MaskFromBits(value))))
    case WritePpuOamAddress => (Ok(()), b.(ppu := b.ppu.(oam_address := value)))
    case WritePpuOam =>
      var s := b.ppu.oam_address / 4;
      (Ok(()), b.(video := b.video.(oam := b.video.oam[s := SpriteWrite(b.video.oam[s], (b.ppu.oam_address % 4) as u8, value)])))
    case WritePpuScroll => (Ok(()), b.(ppu := b.ppu.(scroll := ScrollAfter(b.ppu.scroll, value))))
    case WritePpuAddress => (Ok(()), b.(ppu := AddressAfter(b.ppu, value)))
    case WritePpuData =>
      (match WriteVideo(b.video, b.ppu.address, value)
       case Err(e) => (Err(PpuError(e)), b)
       case Ok(video) =>
         var next := b.ppu.address + Increment(b.ppu.control);
         if next > 0xFFFF then (Err(PpuError(PpuMemoryError.Aborted(ArithmeticOverflow))), b.(video := video))
         else (Ok(()), b.(video := video, ppu := b.ppu.(address := next))))
    case WriteIgnored => (Ok(()), b)
    case WriteOamDma => OamDmaSpec(b, prg, chr, value)
    case WriteSaved(i) => (Ok(()), b.(saved := b.saved[i := value]))
    case WriteNothing => (Err(MemoryError.UnmappedWrite(address)), b)
  }

  /** Memory::set: one bus cycle, then the write. */
  function SetSpec(b: Bus, prg: seq<u8>, chr: seq<u8>, address: u16, value: u8): (out: (Result<(), MemoryError>, Bus))
    requires BusShape(b)
    ensures BusShape(out.1)
  {
    PassSetShape(b.(cycles := b.cycles + 1), prg, chr, address, value);
    PassSetSpec(b.(cycles := b.cycles + 1), prg, chr, address, value)
  }

  lemma PassSetShape(b: Bus, prg: seq<u8>, chr: seq<u8>, address: u16, value: u8)
    requires BusShape(b)
    ensures BusShape(PassSetSpec(b, prg, chr, address, value).1)
  {
  }

  /** A RAM write is seen at every mirror of its address and changes no
      other byte and nothing else on the bus; a save-RAM write likewise. */
  lemma RamWriteThenRead(b: Bus, prg: seq<u8>, chr: seq<u8>, address: u16, other: u16, value: u8)
    requires BusShape(b) && address <= 0x1FFF && other <= 0x1FFF
    ensures var (r, b') := PassSetSpec(b, prg, chr, address, value);
      && r.Ok? && b' == b.(ram := b'.ram)
      && PassGetSpec(b', prg, chr, other).0 ==
           if (other - address) % 0x800 == 0 then Ok(value) else PassGetSpec(b, prg, chr, other).0
  {
    assert (other - address) % 0x800 == 0 <==> other % 0x800 == address % 0x800;
  }

  lemma SavedWriteThenRead(b: Bus, prg: seq<u8>, chr: seq<u8>, address: u16, other: u16, value: u8)
    requires BusShape(b) && 0x6000 <= address <= 0x7FFF && 0x6000 <= other <= 0x7FFF
    ensures var (r, b') := PassSetSpec(b, prg, chr, address, value);
      && r.Ok? && b' == b.(saved := b'.saved)
      && PassGetSpec(b', prg, chr, other).0 ==
           if other == address then Ok(value) else PassGetSpec(b, prg, chr, other).0
  {
  }

  /** Writes to the sound and controller registers are accepted and change
      nothing but the cycle count; writes into program ROM are refused. */
  lemma IgnoredAndRefusedWrites(b: Bus, prg: seq<u8>, chr: seq<u8>, address: u16, value: u8)
    requires BusShape(b)
    ensures (0x4000 <= address <= 0x4013 || 0x4015 <= address <= 0x4017) ==>
      SetSpec(b, prg, chr, address, value) == (Ok(()), b.(cycles := b.cycles + 1))
    ensures address >= 0x8000 ==>
      SetSpec(b, prg, chr, address, value) == (Err(MemoryError.UnmappedWrite(address)), b.(cycles := b.cycles + 1))
  {
  }

  /** Memory::get_short: two reads, low byte first, the high byte from the
      next address wrapping at 0xFFFF. */
  function GetShortSpec(b: Bus, prg: seq<u8>, chr: seq<u8>, address: u16): (out: (Result<u16, MemoryError>, Bus))
    requires BusShape(b)
    ensures BusShape(out.1)
  {
    var (low, b1) := GetSpec(b, prg, chr, address);
    match low
    case Err(e) => (Err(e), b1)
    case Ok(lo) =>
      var (high, b2) := GetSpec(b1, prg, chr, (address + 1) % 0x1_0000);
      match high
      case Err(e) => (Err(e), b2)
      case Ok(hi) => (Ok(Word(hi, lo)), b2)
  }

  /** From program ROM, get_short is the little-endian word at the address
      and costs two cycles. */
  lemma GetShortLittleEndian(b: Bus, prg: seq<u8>, chr: seq<u8>, address: u16)
    requires BusShape(b) && |prg| > 0 && 0x8000 <= address < 0xFFFF
    ensures var (r, b') := GetShortSpec(b, prg, chr, address);
      && r == Ok(Word(prg[(address + 1 - 0x8000) % |prg|], prg[(address - 0x8000) % |prg|]))
      && b' == b.(cycles := b.cycles + 2)
  {
    var b1 := b.(cycles := b.cycles + 1);
    GetPrg(b, prg, chr, address);
    GetPrg(b1, prg, chr, address + 1);
  }

  /** A read of RAM gives the byte at the address modulo the RAM size, and
      only advances the cycle count. */
  lemma GetRam(b: Bus, prg: seq<u8>, chr: seq<u8>, address: u16)
    requires BusShape(b) && address <= 0x1FFF
    ensures GetSpec(b, prg, chr, address) == (Ok(b.ram[address % 0x800]), b.(cycles := b.cycles + 1))
  {
    assert ReadTargetOf(address) == ReadRam(address % 0x800);
  }

  /** A write to RAM always succeeds, stores the byte at the address modulo
      the RAM size, and only advances the cycle count besides. */
  lemma SetRam(b: Bus, prg: seq<u8>, chr: seq<u8>, address: u16, value: u8)
    requires BusShape(b) && address <= 0x1FFF
    ensures SetSpec(b, prg, chr, address, value) ==
      (Ok(()), b.(cycles := b.cycles + 1, ram := b.ram[address % 0x800 := value]))
  {
    assert WriteTargetOf(address) == WriteRam(address % 0x800);
  }

  /** A read of program ROM gives the byte at the address's offset modulo
      the ROM's length, and only advances the cycle count. */
  lemma GetPrg(b: Bus, prg: seq<u8>, chr: seq<u8>, address: u16)
    requires BusShape(b) && |prg| > 0 && 0x8000 <= address
    ensures GetSpec(b, prg, chr, address) == (Ok(prg[(address - 0x8000) % |prg|]), b.(cycles := b.cycles + 1))
  {
    assert ReadTargetOf(address) == ReadPrg(address - 0x8000);
  }

  /** At 0xFFFF the high byte comes from 0x0000, which is RAM. */
  lemma GetShortWraps(b: Bus, prg: seq<u8>, chr: seq<u8>)
    requires BusShape(b) && |prg| > 0
    ensures GetShortSpec(b, prg, chr, 0xFFFF).0 == Ok(Word(b.ram[0], prg[0x7FFF % |prg|]))
  {
    GetPrg(b, prg, chr, 0xFFFF);
    GetRam(b.(cycles := b.cycles + 1), prg, chr, 0);
  }

  /** The bus right after Memory::new: no cycles, zeroed RAM and save RAM,
      power-on picture processor, and the controller as it was handed over. */
  function PowerOnBus(pad_clock: nat, pad_flags: u8): (b: Bus)
    ensures BusShape(b)
  {
    Bus(0, seq(RAM_SIZE, _ => 0), seq(SAVED_SIZE, _ => 0), DEFAULT_REGISTERS,
        VideoMemory(seq(SPRITE_COUNT, _ => DEFAULT_SPRITE), seq(4, _ => seq(NAME_TABLE_SIZE, _ => 0)), DEFAULT_PALETTE),
        pad_clock, pad_flags)
  }

  class Memory {
    var cycles: nat
    const ram: array<u8>
    const rom: Rom.Rom
    const ppu: Ppu
    const saved: array<u8>
    /** The first controller; the second is a NoController. */
    const pad: GenericController
    /** Every object the bus owns. */
    ghost const Repr: set<object>

    ghost predicate Valid()
      reads this, ppu
    {
      ram.Length == RAM_SIZE && saved.Length == SAVED_SIZE && ppu.Valid() && ppu.chr_rom == rom.chr_rom
      && Repr == {this, ram, saved, ppu, ppu.oam, ppu.names, pad}
    }

    /** The bus as a value. */
    ghost function State(): (b: Bus)
      reads this, ram, saved, ppu, ppu.oam, ppu.names, pad
      requires Valid()
      ensures BusShape(b)
    {
      Bus(cycles, ram[..], saved[..], ppu.registers, ppu.Memory(), pad.clock, pad.flags)
    }

    /** Memory::new: zeroed RAM and save RAM, no cycles yet. */
    constructor (cartridge: Rom.Rom, controller: GenericController)
      ensures Valid() && fresh(ram) && fresh(saved) && fresh(ppu) && fresh(ppu.oam) && fresh(ppu.names)
      ensures rom == cartridge && pad == controller
      ensures State() == PowerOnBus(controller.clock, controller.flags)
    {
      cycles := 0;
      var zeroes := new u8[RAM_SIZE](_ => 0);
      var chip := new Ppu(cartridge.chr_rom);
      var backup := new u8[SAVED_SIZE](_ => 0);
      ram := zeroes;
      rom := cartridge;
      ppu := chip;
      saved := backup;
      pad := controller;
      Repr := {this, zeroes, backup, chip, chip.oam, chip.names, controller};
      new;
      assert ram[..] == seq(RAM_SIZE, _ => 0) && saved[..] == seq(SAVED_SIZE, _ => 0);
    }

    method Cycle()
      requires Valid()
      modifies this
      ensures Valid() && State() == old(State()).(cycles := old(cycles) + 1)
    {
      cycles := cycles + 1;
    }

    method CycleMany(times: nat)
      requires Valid()
      modifies this
      ensures Valid() && State() == old(State()).(cycles := old(cycles) + times)
    {
      cycles := cycles + times;
    }

    method PassGet(address: u16) returns (r: Result<u8, MemoryError>)
      requires Valid()
      modifies ppu, pad
      ensures Valid()
      ensures (r, State()) == PassGetSpec(old(State()), rom.prg_rom, rom.chr_rom, address)
    {
      PassGetFrame(State(), rom.prg_rom, rom.chr_rom, address);
      match ReadTargetOf(address)
      case ReadRam(i) => r := Ok(ram[i]);
      case ReadPpuStatus => r := Ok(ppu.ReadStatus());
      case ReadPpuOam => r := Ok(ppu.ReadOamData());
      case ReadPpuData =>
        var data := ppu.ReadData();
        r := LiftPpu(data);
      case ReadApuStatus => r := Ok(0);
      case ReadPad1 =>
        var bit := pad.Read();
        r := Ok(bit);
      case ReadPad2 => r := Ok(NoControllerRead());
      case ReadSaved(i) => r := Ok(saved[i]);
      case ReadPrg(offset) =>
        if |rom.prg_rom| == 0 {
          r := Err(MemoryError.Aborted(DivisionByZero));
        } else {
          r := Ok(rom.prg_rom[offset % |rom.prg_rom|]);
        }
      case ReadNothing => r := Err(MemoryError.UnmappedRead(address));
    }

    method Get(address: u16) returns (r: Result<u8, MemoryError>)
      requires Valid()
      modifies this, ppu, pad
      ensures Valid()
      ensures (r, State()) == GetSpec(old(State()), rom.prg_rom, rom.chr_rom, address)
    {
      Cycle();
      r := PassGet(address);
    }

    method PassSet(address: u16, value: u8) returns (r: Result<(), MemoryError>)
      requires Valid()
      modifies this, ram, saved, ppu, ppu.oam, ppu.names, pad
      ensures Valid()
      ensures (r, State()) == PassSetSpec(old(State()), rom.prg_rom, rom.chr_rom, address, value)
    {
      match WriteTargetOf(address)
      case WriteRam(i) => ram[i] := value; r := Ok(());
      case WritePpuControl => ppu.WriteCtrl(value); r := Ok(());
      case WritePpuMask => ppu.WriteMask(value); r := Ok(());
      case WritePpuOamAddress => ppu.WriteOamAddress(value); r := Ok(());
      case WritePpuOam => ppu.WriteOamData(value); r := Ok(());
      case WritePpuScroll => ppu.WriteScroll(value); r := Ok(());
      case WritePpuAddress => ppu.WriteAddress(value); r := Ok(());
      case WritePpuData =>
        var written := ppu.WriteData(value);
        r := LiftPpu(written);
      case WriteIgnored => r := Ok(());
      case WriteOamDma => r := OamDma(value);
      case WriteSaved(i) => saved[i] := value; r := Ok(());
      case WriteNothing => r := Err(MemoryError.UnmappedWrite(address));
    }

    method Set(address: u16, value: u8) returns (r: Result<(), MemoryError>)
      requires Valid()
      modifies this, ram, saved, ppu, ppu.oam, ppu.names, pad
      ensures Valid()
      ensures (r, State()) == SetSpec(old(State()), rom.prg_rom, rom.chr_rom, address, value)
    {
      Cycle();
      r := PassSet(address, value);
    }

    method GetShort(address: u16) returns (r: Result<u16, MemoryError>)
      requires Valid()
      modifies this, ppu, pad
      ensures Valid()
      ensures (r, State()) == GetShortSpec(old(State()), rom.prg_rom, rom.chr_rom, address)
    {
      var low :- Get(address);
      var high :- Get((address + 1) % 0x1_0000);
      r := Ok(Word(high, low));
    }

    /** Byte `i` of a DMA transfer: a bus read and an extra cycle, the byte
        stored at index i of the local buffer. */
    method DmaRead(page: u8, i: nat, buffer: array<u8>) returns (r: Result<u8, MemoryError>)
      requires Valid() && i < 256 && buffer.Length == 256 && buffer != ram && buffer != saved
      modifies this, ppu, pad, buffer
      ensures Valid()
      ensures r.Err? ==> DmaFrom(old(State()), rom.prg_rom, rom.chr_rom, page, page * 0x100 + i, old(buffer[..i])) == (Err(r.error), State())
      ensures r.Ok? ==> buffer[..i + 1] == old(buffer[..i]) + [r.value]
      ensures r.Ok? ==> DmaFrom(old(State()), rom.prg_rom, rom.chr_rom, page, page * 0x100 + i, old(buffer[..i])) ==
                        DmaFrom(State(), rom.prg_rom, rom.chr_rom, page, page * 0x100 + i + 1, buffer[..i + 1])
    {
      ghost var read := buffer[..i];
      ghost var before := State();
      r := Get(page * 0x100 + i);
      ghost var fetched := State();
      if r.Err? {
        DmaStepErr(before, rom.prg_rom, rom.chr_rom, page, page * 0x100 + i, read, r.error, fetched);
        return;
      }
      DmaStepOk(before, rom.prg_rom, rom.chr_rom, page, page * 0x100 + i, read, r.value, fetched);
      Cycle();
      ghost var waited := State();
      assert waited == fetched.(cycles := fetched.cycles + 1);
      buffer[i] := r.value;
      assert State() == waited;
      assert buffer[..i + 1] == read + [r.value];
    }

    /** The 256 reads of OAM DMA into a local buffer. */
    method DmaTransfer(page: u8) returns (r: Result<seq<u8>, MemoryError>)
      requires Valid()
      modifies this, ppu, pad
      ensures Valid()
      ensures (r, State()) == DmaFrom(old(State()), rom.prg_rom, rom.chr_rom, page, page * 0x100, [])
    {
      var buffer := new u8[256](_ => 0);
      var i := 0;
      ghost var outcome := DmaFrom(State(), rom.prg_rom, rom.chr_rom, page, page * 0x100, []);
      while i < 256
        invariant 0 <= i <= 256 && Valid()
        invariant DmaFrom(State(), rom.prg_rom, rom.chr_rom, page, page * 0x100 + i, buffer[..i]) == outcome
        modifies this, ppu, pad, buffer
      {
        var value := DmaRead(page, i, buffer);
        if value.Err? {
          return Err(value.error);
        }
        i := i + 1;
      }
      assert buffer[..] == buffer[..256];
      DmaDone(State(), rom.prg_rom, rom.chr_rom, page, buffer[..]);
      r := Ok(buffer[..]);
    }

    /** Memory::oam_dma: copies page `page` of the bus into OAM, a read and
        an extra cycle per byte, then one wait cycle. */
    method OamDma(page: u8) returns (r: Result<(), MemoryError>)
      requires Valid()
      modifies this, ppu, ppu.oam, pad
      ensures Valid()
      ensures (r, State()) == OamDmaSpec(old(State()), rom.prg_rom, rom.chr_rom, page)
    {
      ghost var start := State();
      var data := DmaTransfer(page);
      ghost var mid := State();
      DmaOutcome(start, rom.prg_rom, rom.chr_rom, page, data, mid);
      if data.Err? {
        return Err(data.error);
      }
      InstallOam(data.value);
      assert State() == mid.(video := mid.video.(oam := OamFromBytes(data.value)), cycles := mid.cycles + 1);
      r := Ok(());
      assert (r, State()) == OamDmaSpec(start, rom.prg_rom, rom.chr_rom, page);
    }

    /** The end of OAM DMA: the buffer replaces OAM, then one wait cycle. */
    method InstallOam(data: seq<u8>)
      requires Valid() && |data| == 256
      modifies this, ppu.oam
      ensures Valid()
      ensures State() == old(State()).(video := old(State()).video.(oam := OamFromBytes(data)), cycles := old(State()).cycles + 1)
    {
      ghost var before := State();
      ppu.ReplaceOam(data);
      assert State() == before.(video := before.video.(oam := OamFromBytes(data)));
      Cycle();
    }
  }
}
