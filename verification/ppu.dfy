/** The picture processor's register file and video memory: control, mask,
    status and scroll registers, the two-write address latch, the buffered
    data port, sprite attribute memory (OAM), four 1 KiB name tables and the
    32-byte palette, all reached through 14-bit video addresses. */
module Ppu {
  import opened Wrappers
  import opened Bytes

  const SPRITE_COUNT := 64
  const NAME_TABLE_SIZE := 0x400

  datatype PpuMemoryError =
    | UnmappedRead(address: u16)
    | UnmappedWrite(address: u16)
    | OamAccess(offset: u8)
    | PaletteAccess(address: u16)
      /** The Rust code panics here instead of returning an error. */
    | Aborted(reason: Panic)

  datatype ControlRegister = ControlRegister(
    base_name_table_x: bool,
    base_name_table_y: bool,
    increment_32: bool,
    base_sprite_pattern_table: bool,
    base_background_pattern_table: bool,
    sprite_size: bool,
    ppu_color_ext: bool,
    gen_nmi: bool)

  datatype MaskRegister = MaskRegister(
    greyscale: bool,
    show_background_leftmost: bool,
    show_sprites_leftmost: bool,
    show_background: bool,
    show_sprites: bool,
    emphasize_red: bool,
    emphasize_green: bool,
    emphasize_blue: bool)

  datatype ScrollRegister = ScrollRegister(write_y: bool, x: u8, y: u8)

  datatype StatusRegister = StatusRegister(sprite_hit: bool, v_blank_hit: bool)

  /** One OAM entry; byte offsets 0..3 are y, tile number, attribute mask, x. */
  datatype Sprite = Sprite(y: u8, number: u8, mask: u8, x: u8)

  datatype PpuRegisters = PpuRegisters(
    control: ControlRegister,
    mask: MaskRegister,
    scroll: ScrollRegister,
    status: StatusRegister,
    oam_address: u8,
    write_low_address: bool,
    address: u16,
    read_buffer: u8)

  /** Three colours per palette; slot 0 of every palette is the shared
      `background_solid`. */
  datatype PaletteMemory = PaletteMemory(
    background_solid: u8,
    background: seq<seq<u8>>,
    sprite: seq<seq<u8>>)

  /** The contents of video memory as a value: OAM, name tables and palette. */
  datatype VideoMemory = VideoMemory(oam: seq<Sprite>, names: seq<seq<u8>>, palette: PaletteMemory)

  predicate PaletteShape(p: PaletteMemory)
  {
    && |p.background| == 4 && |p.sprite| == 4
    && (forall i :: 0 <= i < 4 ==> |p.background[i]| == 3)
    && (forall i :: 0 <= i < 4 ==> |p.sprite[i]| == 3)
  }

  predicate VideoShape(m: VideoMemory)
  {
    && |m.oam| == SPRITE_COUNT
    && |m.names| == 4 && (forall p :: 0 <= p < 4 ==> |m.names[p]| == NAME_TABLE_SIZE)
    && PaletteShape(m.palette)
  }

  const DEFAULT_SPRITE := Sprite(0xFF, 0, 0, 0)
  const DEFAULT_CONTROL := ControlRegister(false, false, false, false, false, false, false, false)
  const DEFAULT_MASK := MaskRegister(false, false, false, false, false, false, false, false)
  /** Power-on registers: everything zero except that v-blank reads as set. */
  const DEFAULT_REGISTERS := PpuRegisters(DEFAULT_CONTROL, DEFAULT_MASK, ScrollRegister(false, 0, 0),
                                          StatusRegister(false, true), 0, false, 0, 0)
  const DEFAULT_PALETTE := PaletteMemory(0, seq(4, _ => [0, 0, 0]), seq(4, _ => [0, 0, 0]))

  // ---------------------------------------------------------------------
  // Register bit fields

  /** Bit k of the written byte becomes the k-th field. */
  function ControlFromBits(value: u8): ControlRegister
  {
    ControlRegister(Bit(value, 0), Bit(value, 1), Bit(value, 2), Bit(value, 3),
                    Bit(value, 4), Bit(value, 5), Bit(value, 6), Bit(value, 7))
  }

  /** The byte whose bit k is the k-th field (the inverse of ControlFromBits). */
  function ControlBits(c: ControlRegister): u8
  {
    ByteOf([c.base_name_table_x, c.base_name_table_y, c.increment_32, c.base_sprite_pattern_table,
            c.base_background_pattern_table, c.sprite_size, c.ppu_color_ext, c.gen_nmi])
  }

  /** Decoding loses nothing: every byte is the encoding of its decoding. */
  lemma ControlBitsOfFromBits(value: u8)
    ensures ControlBits(ControlFromBits(value)) == value
  {
    var bs := BitsOf(value);
    assert [Bit(value, 0), Bit(value, 1), Bit(value, 2), Bit(value, 3),
            Bit(value, 4), Bit(value, 5), Bit(value, 6), Bit(value, 7)] == bs;
    ByteOfBitsOf(value);
  }

  /** Every register value is the decoding of its encoding. */
  lemma ControlFromBitsOfBits(c: ControlRegister)
    ensures ControlFromBits(ControlBits(c)) == c
  {
    var bs := [c.base_name_table_x, c.base_name_table_y, c.increment_32, c.base_sprite_pattern_table,
               c.base_background_pattern_table, c.sprite_size, c.ppu_color_ext, c.gen_nmi];
    BitOfByteOf(bs);
  }

  function MaskFromBits(value: u8): MaskRegister
  {
    MaskRegister(Bit(value, 0), Bit(value, 1), Bit(value, 2), Bit(value, 3),
                 Bit(value, 4), Bit(value, 5), Bit(value, 6), Bit(value, 7))
  }

  /** The byte whose bit k is the k-th field (the inverse of MaskFromBits). */
  function MaskBits(m: MaskRegister): u8
  {
    ByteOf([m.greyscale, m.show_background_leftmost, m.show_sprites_leftmost, m.show_background,
            m.show_sprites, m.emphasize_red, m.emphasize_green, m.emphasize_blue])
  }

  lemma MaskBitsOfFromBits(value: u8)
    ensures MaskBits(MaskFromBits(value)) == value
  {
    var bs := BitsOf(value);
    assert [Bit(value, 0), Bit(value, 1), Bit(value, 2), Bit(value, 3),
            Bit(value, 4), Bit(value, 5), Bit(value, 6), Bit(value, 7)] == bs;
    ByteOfBitsOf(value);
  }

  lemma MaskFromBitsOfBits(m: MaskRegister)
    ensures MaskFromBits(MaskBits(m)) == m
  {
    var bs := [m.greyscale, m.show_background_leftmost, m.show_sprites_leftmost, m.show_background,
               m.show_sprites, m.emphasize_red, m.emphasize_green, m.emphasize_blue];
    BitOfByteOf(bs);
  }

  /** The status byte: sprite-0 hit in bit 6, v-blank in bit 7, nothing else. */
  function StatusBits(s: StatusRegister): (r: u8)
    ensures Bit(r, 6) == s.sprite_hit && Bit(r, 7) == s.v_blank_hit
    ensures forall k :: 0 <= k < 6 ==> !Bit(r, k)
  {
    var hit: u8 := if s.sprite_hit then 0x40 else 0;
    var blank: u8 := if s.v_blank_hit then 0x80 else 0;
    forall k | 0 <= k < 8 ensures Bit(hit, k) == (s.sprite_hit && k == 6) && Bit(blank, k) == (s.v_blank_hit && k == 7) {
      BitOfBitValue(6, k);
      BitOfBitValue(7, k);
    }
    Or(hit, blank)
  }

  // ---------------------------------------------------------------------
  // Sprites

  /** Byte `offset` of an OAM entry; offsets past 3 make the source panic. */
  function SpriteRead(s: Sprite, offset: u8): u8
    requires offset < 4
  {
    match offset
    case 0 => s.y
    case 1 => s.number
    case 2 => s.mask
    case 3 => s.x
  }

  function SpriteWrite(s: Sprite, offset: u8, value: u8): Sprite
    requires offset < 4
  {
    match offset
    case 0 => s.(y := value)
    case 1 => s.(number := value)
    case 2 => s.(mask := value)
    case 3 => s.(x := value)
  }

  /** Writing a byte of a sprite is seen by a read of that byte and by no
      read of another byte. */
  lemma SpriteReadWrite(s: Sprite, offset: u8, other: u8, value: u8)
    requires offset < 4 && other < 4
    ensures SpriteRead(SpriteWrite(s, offset, value), other) == if other == offset then value else SpriteRead(s, other)
  {
  }

  /** The sprite stored in bytes 4i..4i+3 of an OAM image. */
  function SpriteFromBytes(data: seq<u8>, i: nat): (s: Sprite)
    requires 4 * i + 3 < |data|
    ensures SpriteRead(s, 0) == data[4 * i] && SpriteRead(s, 1) == data[4 * i + 1]
    ensures SpriteRead(s, 2) == data[4 * i + 2] && SpriteRead(s, 3) == data[4 * i + 3]
  {
    Sprite(data[i * 4], data[i * 4 + 1], data[i * 4 + 2], data[i * 4 + 3])
  }

  /** A 256-byte OAM image as 64 sprites: byte 4s+k is field k of sprite s. */
  function OamFromBytes(data: seq<u8>): (oam: seq<Sprite>)
    requires |data| == 4 * SPRITE_COUNT
    ensures |oam| == SPRITE_COUNT
    ensures forall s, k :: 0 <= s < SPRITE_COUNT && 0 <= k < 4 ==> SpriteRead(oam[s], k) == data[4 * s + k]
  {
    var oam := seq(SPRITE_COUNT, s requires 0 <= s < SPRITE_COUNT => SpriteFromBytes(data, s));
    forall s, k | 0 <= s < SPRITE_COUNT && 0 <= k < 4 ensures SpriteRead(oam[s], k) == data[4 * s + k] {
      if k == 0 {} else if k == 1 {} else if k == 2 {} else {}
    }
    oam
  }

  // ---------------------------------------------------------------------
  // Palette memory

  /** The palette storage cell an offset in 0..0x1F names, if any: offsets
      0x00 and 0x10 share `background_solid`; 0x01..0x0F and 0x11..0x1F name
      colour `(o-1)%4` (or `(o-0x11)%4`) of palette `(o-1)/4`, and colour 3
      of a palette does not exist. */
  datatype PaletteCell = Solid | BackgroundCell(page: nat, index: nat) | SpriteCell(page: nat, index: nat) | NoCell

  function CellOf(offset: nat): (c: PaletteCell)
    requires offset < 0x20
    ensures c.BackgroundCell? ==> c.page < 4 && c.index < 3
    ensures c.SpriteCell? ==> c.page < 4 && c.index < 3
  {
    if offset == 0 || offset == 0x10 then Solid
    else if offset < 0x10 then
      (if (offset - 1) % 4 < 3 then BackgroundCell((offset - 1) / 4, (offset - 1) % 4) else NoCell)
    else
      (if (offset - 0x11) % 4 < 3 then SpriteCell((offset - 0x11) / 4, (offset - 0x11) % 4) else NoCell)
  }

  /** The value held in a storage cell. */
  function CellValue(p: PaletteMemory, c: PaletteCell): Option<u8>
    requires PaletteShape(p)
    requires c.BackgroundCell? ==> c.page < 4 && c.index < 3
    requires c.SpriteCell? ==> c.page < 4 && c.index < 3
  {
    match c
    case Solid => Some(p.background_solid)
    case BackgroundCell(page, index) => Some(p.background[page][index])
    case SpriteCell(page, index) => Some(p.sprite[page][index])
    case NoCell => None
  }

  /** PaletteMemory::get as written: only offsets 0x00 and 0x10 succeed;
      every other offset subtracts 0x3F01 (or 0x3F11) from an offset already
      below 0x20, which overflows and panics. */
  function PaletteGet(p: PaletteMemory, address: u16): Result<u8, PpuMemoryError>
  {
    var offset := address % 0x20;
    if offset == 0x00 || offset == 0x10 then Ok(p.background_solid)
    else Err(Aborted(ArithmeticOverflow))
  }

  lemma PaletteGetFlagged(p: PaletteMemory, address: u16)
    ensures PaletteGet(p, address).Ok? <==> address % 0x20 == 0 || address % 0x20 == 0x10
    ensures PaletteGet(p, address).Ok? ==> PaletteGet(p, address).value == p.background_solid
    ensures PaletteGet(p, address).Err? ==> PaletteGet(p, address).error == Aborted(ArithmeticOverflow)
  {
  }

  /** PaletteMemory::set: the offset is reduced mod 0x20, 0x00 and 0x10 both
      write `background_solid`, and a write to colour 3 of a palette is dropped. */
  function PaletteSet(p: PaletteMemory, address: u16, value: u8): (q: PaletteMemory)
    requires PaletteShape(p)
    ensures PaletteShape(q)
  {
    var offset := address % 0x20;
    if offset == 0x00 || offset == 0x10 then p.(background_solid := value)
    else if offset < 0x10 then
      var base := offset - 0x01;
      var page, index := base / 4, base % 4;
      if index < 3 then
        var colours: seq<u8> := p.background[page][index := value];
        p.(background := p.background[page := colours])
      else p
    else
      var base := offset - 0x11;
      var page, index := base / 4, base % 4;
      if index < 3 then
        var colours: seq<u8> := p.sprite[page][index := value];
        p.(sprite := p.sprite[page := colours])
      else p
  }

  /** After a palette write, the cell the address names holds the value, and
      every other cell holds what it held before; an address naming no cell
      leaves the palette unchanged. */
  lemma PaletteSetCells(p: PaletteMemory, address: u16, value: u8, offset: nat)
    requires PaletteShape(p) && offset < 0x20
    ensures var q := PaletteSet(p, address, value);
      && (CellOf(address % 0x20) == NoCell ==> q == p)
      && CellValue(q, CellOf(offset)) ==
           if CellOf(offset) == CellOf(address % 0x20) && CellOf(offset) != NoCell then Some(value)
           else CellValue(p, CellOf(offset))
  {
  }

  /** Offsets 0x00 and 0x10 are mirrors: a write through either is seen
      through both. */
  lemma PaletteSolidMirror(p: PaletteMemory, address: u16, value: u8)
    requires PaletteShape(p) && (address % 0x20 == 0 || address % 0x20 == 0x10)
    ensures CellValue(PaletteSet(p, address, value), CellOf(0)) == Some(value)
    ensures CellValue(PaletteSet(p, address, value), CellOf(0x10)) == Some(value)
  {
  }

  // ---------------------------------------------------------------------
  // Video memory

  /** The name table and byte a name-table address maps to: four 1 KiB
      tables repeated over 0x2000..=0x3EFF. */
  function NameLocation(address: u16): (loc: (nat, nat))
    requires 0x2000 <= address <= 0x3EFF
    ensures loc.0 < 4 && loc.1 < NAME_TABLE_SIZE
  {
    var base := address - 0x2000;
    ((base / 0x400) % 4, base % 0x400)
  }

  /** PpuMemory::read: pattern bytes from the cartridge's CHR ROM, name
      tables, palette; anything from 0x4000 up is unmapped. */
  function ReadVideo(m: VideoMemory, chr_rom: seq<u8>, address: u16): Result<u8, PpuMemoryError>
    requires VideoShape(m)
  {
    if address <= 0x1FFF then
      (if address < |chr_rom| then Ok(chr_rom[address]) else Err(Aborted(IndexOutOfBounds)))
    else if address <= 0x3EFF then
      var (page, index) := NameLocation(address);
      Ok(m.names[page][index])
    else if address <= 0x3FFF then PaletteGet(m.palette, address - 0x3F00)
    else Err(UnmappedRead(address))
  }

  /** PpuMemory::write: name tables and palette; pattern memory (ROM) and
      anything from 0x4000 up refuse the write. */
  function WriteVideo(m: VideoMemory, address: u16, value: u8): (r: Result<VideoMemory, PpuMemoryError>)
    requires VideoShape(m)
    ensures r.Ok? ==> VideoShape(r.value)
  {
    if 0x2000 <= address <= 0x3EFF then
      var (page, index) := NameLocation(address);
      var table: seq<u8> := m.names[page][index := value];
      Ok(m.(names := m.names[page := table]))
    else if 0x3F00 <= address <= 0x3FFF then
      Ok(m.(palette := PaletteSet(m.palette, address - 0x3F00, value)))
    else Err(UnmappedWrite(address))
  }

  /** Writes fail exactly outside the name-table and palette ranges, and
      reads fail with UnmappedRead exactly from 0x4000 up. */
  lemma VideoUnmapped(m: VideoMemory, chr_rom: seq<u8>, address: u16, value: u8)
    requires VideoShape(m)
    ensures WriteVideo(m, address, value).Err? <==> address < 0x2000 || address >= 0x4000
    ensures WriteVideo(m, address, value).Err? ==> WriteVideo(m, address, value).error == UnmappedWrite(address)
    ensures ReadVideo(m, chr_rom, address) == Err(UnmappedRead(address)) <==> address >= 0x4000
  {
  }

  /** x split into its 4 KiB block, its table and its byte. */
  lemma NameSplit(x: nat)
    ensures x == 0x1000 * (x / 0x1000) + 0x400 * ((x / 0x400) % 4) + x % 0x400
  {
    var t := x / 0x400;
    assert x == 0x400 * t + x % 0x400;
    assert t == 4 * (t / 4) + t % 4;
    assert t / 4 == x / 0x1000;
  }

  /** A multiple of 0x1000 plus a small offset is a multiple of 0x1000
      exactly when the offset is zero. */
  lemma BlockOffset(k: int, d: int)
    requires -0x1000 < d < 0x1000
    ensures (0x1000 * k + d) % 0x1000 == 0 <==> d == 0
  {
    if d >= 0 {
      assert (0x1000 * k + d) % 0x1000 == d;
    } else {
      assert 0x1000 * k + d == 0x1000 * (k - 1) + (d + 0x1000);
      assert (0x1000 * k + d) % 0x1000 == d + 0x1000;
    }
  }

  /** Table and byte digits are unique. */
  lemma TableDigits(pa: nat, ia: nat, pb: nat, ib: nat)
    requires pa < 4 && pb < 4 && ia < 0x400 && ib < 0x400
    ensures -0x1000 < 0x400 * (pb - pa) + (ib - ia) < 0x1000
    ensures 0x400 * (pb - pa) + (ib - ia) == 0 <==> pa == pb && ia == ib
  {
    if pa < pb {
      assert 0x400 * (pb - pa) >= 0x400;
    } else if pb < pa {
      assert 0x400 * (pa - pb) >= 0x400;
    }
  }

  /** Two name-table addresses reach the same byte exactly when they are a
      multiple of 0x1000 apart. */
  lemma NameMirrors(address: u16, other: u16)
    requires 0x2000 <= address <= 0x3EFF && 0x2000 <= other <= 0x3EFF
    ensures NameLocation(address) == NameLocation(other) <==> (other - address) % 0x1000 == 0
  {
    var a, b := address - 0x2000, other - 0x2000;
    var (pa, ia) := NameLocation(address);
    var (pb, ib) := NameLocation(other);
    NameSplit(a);
    NameSplit(b);
    assert a == 0x1000 * (a / 0x1000) + 0x400 * pa + ia;
    assert b == 0x1000 * (b / 0x1000) + 0x400 * pb + ib;
    var d := 0x400 * (pb - pa) + (ib - ia);
    assert other - address == 0x1000 * (b / 0x1000 - a / 0x1000) + d;
    TableDigits(pa, ia, pb, ib);
    BlockOffset(b / 0x1000 - a / 0x1000, d);
  }

  /** A name-table write is seen by a read at the same address, by a read at
      every mirror of it, and by no read of another name-table byte; OAM and
      palette are untouched. */
  lemma NameTableReadAfterWrite(m: VideoMemory, chr_rom: seq<u8>, address: u16, other: u16, value: u8)
    requires VideoShape(m)
    requires 0x2000 <= address <= 0x3EFF && 0x2000 <= other <= 0x3EFF
    ensures WriteVideo(m, address, value).Ok?
    ensures var m' := WriteVideo(m, address, value).value;
      && m'.oam == m.oam && m'.palette == m.palette
      && ReadVideo(m', chr_rom, other) ==
           if (other - address) % 0x1000 == 0 then Ok(value) else ReadVideo(m, chr_rom, other)
  {
    NameMirrors(address, other);
  }

  // ---------------------------------------------------------------------
  // Register-port updates

  /** How far the data port moves the address after an access. */
  function Increment(c: ControlRegister): nat
  {
    if c.increment_32 then 32 else 1
  }

  /** One write to the scroll port: x on the first write, y on the second. */
  function ScrollAfter(s: ScrollRegister, value: u8): ScrollRegister
  {
    if s.write_y then s.(y := value, write_y := false) else s.(x := value, write_y := true)
  }

  /** One write to the address port: the high byte first, then the low byte. */
  function AddressAfter(r: PpuRegisters, value: u8): PpuRegisters
  {
    if r.write_low_address then r.(address := r.address / 0x100 * 0x100 + value, write_low_address := false)
    else r.(address := r.address % 0x100 + value * 0x100, write_low_address := true)
  }

  /** Two scroll writes from a reset latch set x then y and reset the latch. */
  lemma ScrollTwoWrites(s: ScrollRegister, x: u8, y: u8)
    requires !s.write_y
    ensures ScrollAfter(ScrollAfter(s, x), y) == ScrollRegister(false, x, y)
  {
  }

  /** Two address writes from a reset latch form the address high byte first,
      whatever the address was, and reset the latch. */
  lemma AddressTwoWrites(r: PpuRegisters, high: u8, low: u8)
    requires !r.write_low_address
    ensures AddressAfter(AddressAfter(r, high), low) == r.(address := Word(high, low), write_low_address := false)
  {
  }

  /** The result of a read through the data port and the registers after it:
      the buffered byte is returned, the buffer is refilled from the current
      address, and the address advances (a 16-bit overflow panics). A failing
      video read changes nothing. */
  function ReadDataStep(r: PpuRegisters, m: VideoMemory, chr_rom: seq<u8>): (Result<u8, PpuMemoryError>, PpuRegisters)
    requires VideoShape(m)
  {
    match ReadVideo(m, chr_rom, r.address)
    case Err(e) => (Err(e), r)
    case Ok(fetched) =>
      var next := r.address + Increment(r.control);
      if next > 0xFFFF then (Err(Aborted(ArithmeticOverflow)), r.(read_buffer := fetched))
      else (Ok(r.read_buffer), r.(read_buffer := fetched, address := next))
  }

  /** The buffered read lags by one: of two data-port reads of name-table
      bytes, the second returns the byte at the address the first one read. */
  lemma ReadDataLagsByOne(r: PpuRegisters, m: VideoMemory, chr_rom: seq<u8>)
    requires VideoShape(m)
    requires 0x2000 <= r.address && r.address + 2 * Increment(r.control) <= 0x3EFF
    ensures var (first, r1) := ReadDataStep(r, m, chr_rom);
      && first == Ok(r.read_buffer)
      && r1.address == r.address + Increment(r.control)
      && ReadDataStep(r1, m, chr_rom).0 == ReadVideo(m, chr_rom, r.address)
  {
  }

  // ---------------------------------------------------------------------
  // The chip

  class Ppu {
    var registers: PpuRegisters
    /** The cartridge's pattern memory. */
    const chr_rom: seq<u8>
    const oam: array<Sprite>
    /** Name table p, byte i is names[p, i]. */
    const names: array2<u8>
    var palette: PaletteMemory

    ghost predicate Valid()
      reads this
    {
      oam.Length == SPRITE_COUNT && names.Length0 == 4 && names.Length1 == NAME_TABLE_SIZE
      && PaletteShape(palette)
    }

    /** The name tables as a value. */
    ghost function Names(): (s: seq<seq<u8>>)
      reads names
      requires names.Length0 == 4 && names.Length1 == NAME_TABLE_SIZE
      ensures |s| == 4 && forall p :: 0 <= p < 4 ==> |s[p]| == NAME_TABLE_SIZE
    {
      seq(4, p requires 0 <= p < 4 reads names =>
        seq(NAME_TABLE_SIZE, i requires 0 <= i < NAME_TABLE_SIZE reads names => names[p, i]))
    }

    /** Video memory as a value. */
    ghost function Memory(): (m: VideoMemory)
      reads this, oam, names
      requires Valid()
      ensures VideoShape(m)
    {
      VideoMemory(oam[..], Names(), palette)
    }

    /** Power-on state: default registers, every sprite off-screen (y = 0xFF),
        zeroed name tables and palette. */
    constructor (chr: seq<u8>)
      ensures Valid() && fresh(oam) && fresh(names)
      ensures registers == DEFAULT_REGISTERS && chr_rom == chr
      ensures Memory() == VideoMemory(seq(SPRITE_COUNT, _ => DEFAULT_SPRITE),
                                      seq(4, _ => seq(NAME_TABLE_SIZE, _ => 0)), DEFAULT_PALETTE)
    {
      registers := DEFAULT_REGISTERS;
      chr_rom := chr;
      oam := new Sprite[SPRITE_COUNT](_ => DEFAULT_SPRITE);
      names := new u8[4, NAME_TABLE_SIZE]((_, _) => 0);
      palette := DEFAULT_PALETTE;
      new;
      assert oam[..] == seq(SPRITE_COUNT, _ => DEFAULT_SPRITE);
      forall p | 0 <= p < 4 ensures Names()[p] == seq(NAME_TABLE_SIZE, _ => 0) {
      }
      assert Names() == seq(4, _ => seq(NAME_TABLE_SIZE, _ => 0));
    }

    method WriteCtrl(value: u8)
      requires Valid()
      modifies this
      ensures Valid() && registers == old(registers).(control := ControlFromBits(value))
      ensures Memory() == old(Memory())
    {
      registers := registers.(control := ControlFromBits(value));
    }

    method WriteMask(value: u8)
      requires Valid()
      modifies this
      ensures Valid() && registers == old(registers).(mask := MaskFromBits(value))
      ensures Memory() == old(Memory())
    {
      registers := registers.(mask := MaskFromBits(value));
    }

    /** Reading the status port has no side effect here. */
    function ReadStatus(): u8
      reads this
    {
      StatusBits(registers.status)
    }

    method WriteOamAddress(value: u8)
      requires Valid()
      modifies this
      ensures Valid() && registers == old(registers).(oam_address := value)
      ensures Memory() == old(Memory())
    {
      registers := registers.(oam_address := value);
    }

    /** The OAM byte at the OAM address: sprite `address / 4`, field `address % 4`. */
    function ReadOamData(): u8
      reads this, oam
      requires Valid()
    {
      SpriteRead(oam[registers.oam_address / 4], (registers.oam_address % 4) as u8)
    }

    method WriteOamData(value: u8)
      requires Valid()
      modifies oam
      ensures Valid()
      ensures var s := old(registers.oam_address) / 4;
        oam[..] == old(oam[..])[s := SpriteWrite(old(oam[s]), (registers.oam_address % 4) as u8, value)]
    {
      var sprite := registers.oam_address / 4;
      var index := registers.oam_address % 4;
      oam[sprite] := SpriteWrite(oam[sprite], index as u8, value);
    }

    method WriteScroll(value: u8)
      requires Valid()
      modifies this
      ensures Valid() && registers == old(registers).(scroll := ScrollAfter(old(registers.scroll), value))
      ensures Memory() == old(Memory())
    {
      if registers.scroll.write_y {
        registers := registers.(scroll := registers.scroll.(y := value));
      } else {
        registers := registers.(scroll := registers.scroll.(x := value));
      }
      registers := registers.(scroll := registers.scroll.(write_y := !registers.scroll.write_y));
    }

    method WriteAddress(value: u8)
      requires Valid()
      modifies this
      ensures Valid() && registers == AddressAfter(old(registers), value)
      ensures Memory() == old(Memory())
    {
      if registers.write_low_address {
        registers := registers.(address := registers.address / 0x100 * 0x100 + value);
      } else {
        registers := registers.(address := registers.address % 0x100 + value * 0x100);
      }
      registers := registers.(write_low_address := !registers.write_low_address);
    }

    /** PpuMemory::write in place: the video memory afterwards is WriteVideo
        of the video memory before. */
    method WriteMemory(address: u16, value: u8) returns (r: Result<(), PpuMemoryError>)
      requires Valid()
      modifies this, names
      ensures Valid() && registers == old(registers)
      ensures match WriteVideo(old(Memory()), address, value)
        case Ok(m) => r.Ok? && Memory() == m
        case Err(e) => r == Err(e) && Memory() == old(Memory())
    {
      if 0x2000 <= address <= 0x3EFF {
        var base := address - 0x2000;
        var page, index := (base / 0x400) % 4, base % 0x400;
        names[page, index] := value;
        r := Ok(());
        ghost var table: seq<u8> := old(Names())[page][index := value];
        forall q | 0 <= q < 4 ensures Names()[q] == old(Names())[page := table][q] {
          assert Names()[q] == if q == page then table else old(Names())[q];
        }
        assert Names() == old(Names())[page := table];
      } else if 0x3F00 <= address <= 0x3FFF {
        palette := PaletteSet(palette, address - 0x3F00, value);
        r := Ok(());
      } else {
        r := Err(UnmappedWrite(address));
      }
    }

    /** The data port write: the video write, then the address advances by 32
        or 1 (an overflow past 0xFFFF panics after the write). */
    method WriteData(value: u8) returns (r: Result<(), PpuMemoryError>)
      requires Valid()
      modifies this, names
      ensures Valid()
      ensures match WriteVideo(old(Memory()), old(registers.address), value)
        case Err(e) => r == Err(e) && Memory() == old(Memory()) && registers == old(registers)
        case Ok(m) =>
          && Memory() == m
          && var next := old(registers.address) + Increment(old(registers.control));
             if next > 0xFFFF then r == Err(Aborted(ArithmeticOverflow)) && registers == old(registers)
             else r == Ok(()) && registers == old(registers).(address := next)
    {
      var written := WriteMemory(registers.address, value);
      if written.Err? {
        return written;
      }
      var next := registers.address + Increment(registers.control);
      if next > 0xFFFF {
        return Err(Aborted(ArithmeticOverflow));
      }
      registers := registers.(address := next);
      r := Ok(());
    }

    /** The data port read, as ReadDataStep describes it. */
    method ReadData() returns (r: Result<u8, PpuMemoryError>)
      requires Valid()
      modifies this
      ensures Valid() && Memory() == old(Memory())
      ensures (r, registers) == ReadDataStep(old(registers), old(Memory()), chr_rom)
    {
      var result := registers.read_buffer;
      var fetched := ReadMemory(registers.address);
      if fetched.Err? {
        return Err(fetched.error);
      }
      registers := registers.(read_buffer := fetched.value);
      var next := registers.address + Increment(registers.control);
      if next > 0xFFFF {
        return Err(Aborted(ArithmeticOverflow));
      }
      registers := registers.(address := next);
      r := Ok(result);
    }

    /** PpuMemory::read on the chip's own memory. */
    method ReadMemory(address: u16) returns (r: Result<u8, PpuMemoryError>)
      requires Valid()
      ensures r == ReadVideo(Memory(), chr_rom, address)
    {
      if address <= 0x1FFF {
        if address < |chr_rom| {
          r := Ok(chr_rom[address]);
        } else {
          r := Err(Aborted(IndexOutOfBounds));
        }
      } else if address <= 0x3EFF {
        var base := address - 0x2000;
        r := Ok(names[(base / 0x400) % 4, base % 0x400]);
      } else if address <= 0x3FFF {
        r := PaletteGet(palette, address - 0x3F00);
      } else {
        r := Err(UnmappedRead(address));
      }
    }

    /** Installs a 256-byte OAM image: sprite i from bytes 4i..4i+3. */
    method ReplaceOam(data: seq<u8>)
      requires Valid() && |data| == 256
      modifies oam
      ensures Valid()
      ensures Memory() == old(Memory()).(oam := OamFromBytes(data))
    {
      var i := 0;
      while i < SPRITE_COUNT
        invariant 0 <= i <= SPRITE_COUNT
        invariant forall j :: 0 <= j < i ==> oam[j] == SpriteFromBytes(data, j)
      {
        oam[i] := SpriteFromBytes(data, i);
        i := i + 1;
      }
      assert oam[..] == OamFromBytes(data);
      assert Names() == old(Names());
    }
  }
}
