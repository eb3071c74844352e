/** The software picture generator: three dots per CPU cycle it walks a
    341 x 262 dot raster, pre-renders the sprites of each visible line at
    its first dot, composes every visible pixel from sprites and the
    scrolled background, and hands out the RGBA frame at v-blank. */
module Software {
  import opened Wrappers
  import opened Bytes
  import opened Ppu

  type u64 = x: int | 0 <= x < 0x1_0000_0000_0000_0000

  const NES_WIDTH := 256
  const NES_HEIGHT := 240
  /** Four bytes (red, green, blue, alpha) per visible pixel. */
  const NES_FRAME_SIZE := 245760
  const NES_SCANLINE_WIDTH := 341
  const NES_SCANLINE_COUNT := 262

  datatype Color = Color(red: u8, green: u8, blue: u8, alpha: u8)

  /** The 64 master colours a palette entry selects. */
  const NES_PALETTE: seq<Color> := [
    Color(98, 98, 98, 255), Color(0, 31, 177, 255), Color(35, 3, 199, 255), Color(81, 0, 177, 255),
    Color(115, 0, 117, 255), Color(127, 0, 35, 255), Color(115, 10, 0, 255), Color(81, 39, 0, 255),
    Color(35, 67, 0, 255), Color(0, 86, 0, 255), Color(0, 92, 0, 255), Color(0, 82, 35, 255),
    Color(0, 60, 117, 255), Color(0, 0, 0, 255), Color(0, 0, 0, 255), Color(0, 0, 0, 255),
    Color(170, 170, 170, 255), Color(13, 86, 255, 255), Color(74, 47, 255, 255), Color(138, 18, 255, 255),
    Color(188, 8, 213, 255), Color(210, 17, 104, 255), Color(199, 45, 0, 255), Color(157, 84, 0, 255),
    Color(96, 123, 0, 255), Color(32, 151, 0, 255), Color(0, 162, 0, 255), Color(0, 152, 66, 255),
    Color(0, 124, 180, 255), Color(0, 0, 0, 255), Color(0, 0, 0, 255), Color(0, 0, 0, 255),
    Color(255, 255, 255, 255), Color(82, 174, 255, 255), Color(143, 133, 255, 255), Color(210, 101, 255, 255),
    Color(255, 86, 255, 255), Color(255, 93, 206, 255), Color(255, 119, 86, 255), Color(249, 158, 0, 255),
    Color(188, 199, 0, 255), Color(121, 231, 0, 255), Color(66, 246, 17, 255), Color(38, 239, 125, 255),
    Color(44, 213, 245, 255), Color(77, 77, 77, 255), Color(0, 0, 0, 255), Color(0, 0, 0, 255),
    Color(255, 255, 255, 255), Color(182, 225, 255, 255), Color(205, 208, 255, 255), Color(232, 195, 255, 255),
    Color(255, 187, 255, 255), Color(255, 188, 243, 255), Color(255, 198, 195, 255), Color(255, 213, 153, 255),
    Color(232, 230, 129, 255), Color(205, 243, 129, 255), Color(182, 250, 153, 255), Color(168, 249, 195, 255),
    Color(168, 240, 243, 255), Color(183, 183, 183, 255), Color(0, 0, 0, 255), Color(0, 0, 0, 255)
  ]

  // ---------------------------------------------------------------------
  // Pattern tiles

  /** A byte ANDed with the single-bit mask of bit k is non-zero exactly when
      bit k is set. */
  lemma MaskedBit(p: u8, k: nat)
    requires k < 8
    ensures (And(p, BitValue(k)) != 0) == Bit(p, k)
  {
    var a := And(p, BitValue(k));
    ZeroIffNoBits(a);
    forall j | 0 <= j < 8
      ensures Bit(a, j) == (Bit(p, j) && j == k)
    {
      BitOfBitValue(k, j);
    }
  }

  /** The two-bit colour number of column x, row y of pattern tile `tile`:
      a tile is 16 bytes, row y's low bits in byte y and its high bits in
      byte y + 8, column 0 in the most significant bit. A read past the end
      of the pattern memory aborts. */
  function ColorIndex(chr: seq<u8>, tile: nat, x: nat, y: nat): (r: Result<nat, Panic>)
    requires x < 8 && y < 8
    ensures r.Ok? <==> tile * 16 + y + 8 < |chr|
    ensures r.Ok? ==> r.value < 4
  {
    var address := tile * 8 * 2 + y;
    if address + 8 >= |chr| then Err(IndexOutOfBounds)
    else Ok(Digit(Bit(chr[address], 7 - x)) + 2 * Digit(Bit(chr[address + 8], 7 - x)))
  }

  /** The colour number is what render_sprite computes with its one-bit
      mask: bit 0 from the low plane's masked test, bit 1 from the high
      plane's, combined with `|` (the two never overlap). */
  lemma ColorIndexMasks(chr: seq<u8>, tile: nat, x: nat, y: nat)
    requires x < 8 && y < 8 && tile * 16 + y + 8 < |chr|
    ensures var address := tile * 8 * 2 + y;
      var mask := BitValue(7 - x);
      ColorIndex(chr, tile, x, y) ==
        Ok((if And(chr[address], mask) != 0 then 1 else 0) + (if And(chr[address + 8], mask) != 0 then 2 else 0))
  {
    var address := tile * 8 * 2 + y;
    MaskedBit(chr[address], 7 - x);
    MaskedBit(chr[address + 8], 7 - x);
  }

  /** render_sprite: colour number 0 is transparent; colour number k picks
      entry k - 1 of the three-entry palette, which names a master colour. */
  function SpriteColor(chr: seq<u8>, tile: nat, x: nat, y: nat, palette: seq<u8>): Result<Option<Color>, Panic>
    requires x < 8 && y < 8 && |palette| == 3
  {
    var index :- ColorIndex(chr, tile, x, y);
    if index == 0 then Ok(None)
    else
      var color_index := palette[index - 1];
      if color_index < |NES_PALETTE| then Ok(Some(NES_PALETTE[color_index])) else Err(IndexOutOfBounds)
  }

  /** A pixel is transparent exactly when both of its plane bits are clear;
      otherwise its colour number is 1, 2 or 3 and selects that palette
      entry's master colour. */
  lemma SpriteColorCases(chr: seq<u8>, tile: nat, x: nat, y: nat, palette: seq<u8>)
    requires x < 8 && y < 8 && |palette| == 3
    requires tile * 16 + y + 8 < |chr|
    ensures var low := Bit(chr[tile * 16 + y], 7 - x);
      var high := Bit(chr[tile * 16 + y + 8], 7 - x);
      var index := Digit(low) + 2 * Digit(high);
      && (SpriteColor(chr, tile, x, y, palette) == Ok(None) <==> !low && !high)
      && (index != 0 ==>
            && 1 <= index <= 3
            && SpriteColor(chr, tile, x, y, palette) ==
                 if palette[index - 1] < 64 then Ok(Some(NES_PALETTE[palette[index - 1]])) else Err(IndexOutOfBounds))
  {
  }

  /** A read past the end of the pattern memory aborts. */
  lemma SpriteColorOutOfRange(chr: seq<u8>, tile: nat, x: nat, y: nat, palette: seq<u8>)
    requires x < 8 && y < 8 && |palette| == 3
    ensures SpriteColor(chr, tile, x, y, palette).Err? <==>
      tile * 16 + y + 8 >= |chr| || (ColorIndex(chr, tile, x, y).Ok? && ColorIndex(chr, tile, x, y).value > 0 &&
                                   palette[ColorIndex(chr, tile, x, y).value - 1] >= 64)
  {
  }

  // ---------------------------------------------------------------------
  // Background

  /** Where pixel (x, y) of a name table finds its tile number and its
      attribute byte: both inside the 0x400-byte table, the tile numbers
      below the attribute area at 0x3C0. */
  lemma NameIndices(x: nat, y: nat)
    requires x < 256 && y < 240
    ensures x / 8 + (y / 8) * 32 < 0x3C0
    ensures 0x3C0 <= 0x3C0 + (x / 8) / 4 + ((y / 8) / 4) * 8 < 0x400
  {
  }

  /** The two-bit palette selector of tile (col, row), taken from the
      attribute byte of its 32 x 32 pixel block at the shift of its 16 x 16
      quadrant. */
  function PaletteSelector(attribute: u8, col: nat, row: nat): (p: nat)
    ensures p < 4
  {
    var right := (col / 2) % 2 == 1;
    var bottom := (row / 2) % 2 == 1;
    (if bottom then (if right then attribute / 64 else attribute / 16)
     else (if right then attribute / 4 else attribute)) % 4
  }

  /** The selector is the attribute byte shifted right by twice the
      quadrant number (right adds 1, bottom adds 2) and cut to its two low
      bits. */
  lemma PaletteSelectorShifts(attribute: u8, col: nat, row: nat)
    ensures var shift := (col / 2) % 2 * 2 + (row / 2) % 2 * 4;
      PaletteSelector(attribute, col, row) == (attribute / Pow2(shift)) % 4
  {
  }

  /** The colour of pixel (x, y) of a background tile, given the tile
      number and the attribute byte read for it. Background tiles always
      come from the second pattern table (tile + 256), whatever the control
      register selects. */
  function TileColor(chr: seq<u8>, palette: PaletteMemory, tile: u8, attribute: u8, x: nat, y: nat): Result<Option<Color>, Panic>
    requires PaletteShape(palette)
  {
    SpriteColor(chr, tile + 256, x % 8, y % 8, palette.background[PaletteSelector(attribute, x / 8, y / 8)])
  }

  /** render_background: pixel (x, y) of name table `table`, coloured from
      the tile number and attribute byte the table holds for it. */
  function BackgroundColor(m: VideoMemory, chr: seq<u8>, table: nat, x: nat, y: nat): Result<Option<Color>, Panic>
    requires VideoShape(m) && table < 2 && x < 256 && y < 240
  {
    NameIndices(x, y);
    TileColor(chr, m.palette, m.names[table][x / 8 + (y / 8) * 32], m.names[table][0x3C0 + (x / 8) / 4 + ((y / 8) / 4) * 8], x, y)
  }

  // ---------------------------------------------------------------------
  // Scrolling

  /** The name table (false for 0, true for 1) and the position in it that
      screen pixel (x, y) shows. The table starts as the exclusive or of the
      two base bits and flips for each axis that wraps; the vertical wrap
      subtracts 256 from a scrolled y of 240 or more, which aborts on an
      unsigned underflow for a scrolled y in 240..255. */
  function Scrolled(control: ControlRegister, scroll: ScrollRegister, x: nat, y: nat): (r: Result<(bool, nat, nat), Panic>)
    requires x < 256 && y < 240
    ensures r.Err? <==> 240 <= y + scroll.y < 256
    ensures r.Ok? ==> r.value.1 == (x + scroll.x) % 256 && r.value.2 == (y + scroll.y) % 256
    ensures r.Ok? ==> r.value.1 < 256 && r.value.2 < 240
    ensures r.Ok? ==> r.value.0 == (((control.base_name_table_x != control.base_name_table_y)
                                     != (x + scroll.x >= 256)) != (y + scroll.y >= 256))
  {
    var offset_x := x + scroll.x;
    var offset_y := y + scroll.y;
    var table := control.base_name_table_x != control.base_name_table_y;
    var (table, offset_x) := if offset_x >= 256 then (!table, offset_x - 256) else (table, offset_x);
    if offset_y >= 240 then
      if offset_y < 256 then Err(ArithmeticOverflow)
      else Ok((!table, offset_x, offset_y - 256))
    else Ok((table, offset_x, offset_y))
  }

  /** Without scroll, pixel (x, y) is pixel (x, y) of the base table. */
  lemma UnscrolledPosition(control: ControlRegister, write_y: bool, x: nat, y: nat)
    requires x < 256 && y < 240
    ensures Scrolled(control, ScrollRegister(write_y, 0, 0), x, y) ==
      Ok((control.base_name_table_x != control.base_name_table_y, x, y))
  {
  }

  /** Some line of the screen aborts exactly when the vertical scroll is not
      zero: the scrolled y of that line is 240. */
  lemma ScrollAborts(control: ControlRegister, scroll: ScrollRegister, x: nat)
    requires x < 256
    ensures (exists y :: 0 <= y < 240 && Scrolled(control, scroll, x, y).Err?) <==> scroll.y != 0
  {
    if scroll.y != 0 {
      var y := if scroll.y <= 240 then 240 - scroll.y else 0;
      assert Scrolled(control, scroll, x, y).Err?;
    }
  }

  // ---------------------------------------------------------------------
  // Sprites

  /** Sprite 0, the only one whose opaque pixels raise the sprite-hit
      flag; a line's sprites are drawn from the last down to it. */
  const SPRITE_ZERO := 0

  /** The two sprite layers of one line: colours behind the background and
      colours in front of it, one optional colour per column. */
  datatype Scanline = Scanline(background: seq<Option<Color>>, foreground: seq<Option<Color>>)

  predicate ScanlineShape(line: Scanline)
  {
    |line.background| == NES_WIDTH && |line.foreground| == NES_WIDTH
  }

  /** The layer `behind` selects. */
  function Layer(line: Scanline, behind: bool): seq<Option<Color>>
  {
    if behind then line.background else line.foreground
  }

  /** Sprites are drawn one line late: a sprite whose y is s.y covers the
      eight lines s.y + 1 .. s.y + 8. */
  predicate Covers(s: Sprite, y: nat)
  {
    s.y + 1 <= y < s.y + 1 + 8
  }

  /** Attribute bit 0x20 puts the sprite behind the background. */
  predicate BehindBackground(s: Sprite)
  {
    Bit(s.mask, 5)
  }

  /** The colour sprite s gives column `offset` of line y: attribute bit
      0x40 mirrors the columns, bit 0x80 the rows, and the two low bits pick
      one of the four sprite palettes. */
  function SpritePixel(chr: seq<u8>, palette: PaletteMemory, s: Sprite, y: nat, offset: nat): Result<Option<Color>, Panic>
    requires PaletteShape(palette) && Covers(s, y) && offset < 8
  {
    var row := y - (s.y + 1);
    var column := if Bit(s.mask, 6) then 8 - 1 - offset else offset;
    var line := if Bit(s.mask, 7) then 8 - 1 - row else row;
    SpriteColor(chr, s.number, column, line, palette.sprite[s.mask % 4])
  }

  /** Colour c written at column x of the layer the sprite belongs to. */
  function Place(line: Scanline, behind: bool, x: nat, c: Color): (placed: Scanline)
    requires ScanlineShape(line) && x < NES_WIDTH
    ensures ScanlineShape(placed)
  {
    if behind then line.(background := line.background[x := Some(c)])
    else line.(foreground := line.foreground[x := Some(c)])
  }

  /** The eight pixels of sprite s on line y, left to right on screen. */
  function SpriteRow(chr: seq<u8>, palette: PaletteMemory, s: Sprite, y: nat): (row: seq<Result<Option<Color>, Panic>>)
    requires PaletteShape(palette) && Covers(s, y)
    ensures |row| == 8 && forall k :: 0 <= k < 8 ==> row[k] == SpritePixel(chr, palette, s, y, k)
  {
    seq(8, k requires 0 <= k < 8 => SpritePixel(chr, palette, s, y, k))
  }

  /** Columns offset .. 7 of a sprite at horizontal position s.x drawn with
      the given pixels, stopping at the right edge of the screen and at the
      first pixel that aborts; `hit` records whether sprite 0 (`first`) has
      drawn an opaque pixel. */
  function DrawColumns(pixels: seq<Result<Option<Color>, Panic>>, s: Sprite, first: bool,
                       offset: nat, line: Scanline, hit: bool): (r: (Result<Scanline, Panic>, bool))
    requires |pixels| == 8 && offset <= 8 && ScanlineShape(line)
    ensures r.0.Ok? ==> ScanlineShape(r.0.value)
    ensures hit ==> r.1
    decreases 8 - offset
  {
    if offset == 8 || s.x + offset >= NES_WIDTH then (Ok(line), hit)
    else match pixels[offset]
      case Err(p) => (Err(p), hit)
      case Ok(None) => DrawColumns(pixels, s, first, offset + 1, line, hit)
      case Ok(Some(c)) =>
        DrawColumns(pixels, s, first, offset + 1, Place(line, BehindBackground(s), s.x + offset, c), hit || first)
  }

  /** Sprites 63 down to i drawn on line y over an empty line, and whether
      sprite 0 drew an opaque pixel. */
  function DrawSprites(m: VideoMemory, chr: seq<u8>, y: nat, i: nat): (r: (Result<Scanline, Panic>, bool))
    requires VideoShape(m) && i <= SPRITE_COUNT
    ensures r.0.Ok? ==> ScanlineShape(r.0.value)
    decreases SPRITE_COUNT - i
  {
    if i == SPRITE_COUNT then (Ok(Scanline(seq(NES_WIDTH, _ => None), seq(NES_WIDTH, _ => None))), false)
    else
      var below := DrawSprites(m, chr, y, i + 1);
      match below.0
      case Err(p) => (Err(p), below.1)
      case Ok(line) => DrawSprite(m, chr, y, i, line, below.1)
  }

  /** Sprite i drawn on line y over the given line, if it covers that line. */
  function DrawSprite(m: VideoMemory, chr: seq<u8>, y: nat, i: nat, line: Scanline, hit: bool): (r: (Result<Scanline, Panic>, bool))
    requires VideoShape(m) && i < SPRITE_COUNT && ScanlineShape(line)
    ensures r.0.Ok? ==> ScanlineShape(r.0.value)
    ensures hit ==> r.1
  {
    if Covers(m.oam[i], y) then DrawColumns(SpriteRow(chr, m.palette, m.oam[i], y), m.oam[i], i == 0, 0, line, hit)
    else (Ok(line), hit)
  }

  /** What sprite i shows at screen column x of line y: nothing unless it
      covers the line and x is one of its eight columns. */
  function SpriteAt(m: VideoMemory, chr: seq<u8>, y: nat, i: nat, x: nat): Result<Option<Color>, Panic>
    requires VideoShape(m) && i < SPRITE_COUNT
  {
    var s := m.oam[i];
    if Covers(s, y) && s.x <= x < s.x + 8 then SpritePixel(chr, m.palette, s, y, x - s.x) else Ok(None)
  }

  /** The colour of the lowest-numbered sprite from i on that is opaque at
      column x of line y and belongs to layer `behind`. */
  function TopSprite(m: VideoMemory, chr: seq<u8>, y: nat, i: nat, x: nat, behind: bool): Result<Option<Color>, Panic>
    requires VideoShape(m) && i <= SPRITE_COUNT
    decreases SPRITE_COUNT - i
  {
    if i == SPRITE_COUNT then Ok(None)
    else match SpriteAt(m, chr, y, i, x)
      case Err(p) => Err(p)
      case Ok(Some(c)) =>
        if BehindBackground(m.oam[i]) == behind then Ok(Some(c)) else TopSprite(m, chr, y, i + 1, x, behind)
      case Ok(None) => TopSprite(m, chr, y, i + 1, x, behind)
  }

  /** A pixel outcome that is an opaque colour. */
  predicate Opaque(r: Result<Option<Color>, Panic>)
  {
    r.Ok? && r.value.Some?
  }

  /** Drawing columns offset .. 7 changes column x of a layer only where
      the sprite is opaque and belongs to that layer, and then to the
      sprite's colour; no column on screen from offset on aborted. */
  lemma {:induction false} ColumnsLayer(pixels: seq<Result<Option<Color>, Panic>>, s: Sprite, first: bool,
                                        offset: nat, line: Scanline, hit: bool, x: nat, behind: bool)
    requires |pixels| == 8 && offset <= 8 && ScanlineShape(line) && x < NES_WIDTH
    requires DrawColumns(pixels, s, first, offset, line, hit).0.Ok?
    ensures s.x + offset <= x < s.x + 8 ==> pixels[x - s.x].Ok?
    ensures Layer(DrawColumns(pixels, s, first, offset, line, hit).0.value, behind)[x] ==
      if s.x + offset <= x < s.x + 8 && BehindBackground(s) == behind && Opaque(pixels[x - s.x])
      then pixels[x - s.x].value
      else Layer(line, behind)[x]
    decreases 8 - offset
  {
    if offset < 8 && s.x + offset < NES_WIDTH {
      match pixels[offset]
      case Ok(None) =>
        ColumnsLayer(pixels, s, first, offset + 1, line, hit, x, behind);
      case Ok(Some(c)) =>
        var placed := Place(line, BehindBackground(s), s.x + offset, c);
        assert DrawColumns(pixels, s, first, offset, line, hit) == DrawColumns(pixels, s, first, offset + 1, placed, hit || first);
        PlaceAt(line, BehindBackground(s), s.x + offset, c, x, behind);
        ColumnsLayer(pixels, s, first, offset + 1, placed, hit || first, x, behind);
    }
  }

  /** One column of a sprite: an aborting pixel aborts, a transparent one
      changes nothing, an opaque one is placed in the sprite's layer and
      raises the hit flag for sprite 0 (`first`). */
  function ColumnStep(pixel: Result<Option<Color>, Panic>, behind: bool, first: bool, x: nat,
                      line: Scanline, hit: bool): (r: (Result<Scanline, Panic>, bool))
    requires ScanlineShape(line) && x < NES_WIDTH
    ensures r.0.Ok? ==> ScanlineShape(r.0.value)
  {
    match pixel
    case Err(p) => (Err(p), hit)
    case Ok(None) => (Ok(line), hit)
    case Ok(Some(c)) => (Ok(Place(line, behind, x, c)), hit || first)
  }

  /** Drawing columns from an on-screen column is its step, then the rest
      unless the step aborted. */
  lemma ColumnsThroughStep(pixels: seq<Result<Option<Color>, Panic>>, s: Sprite, first: bool,
                           offset: nat, line: Scanline, hit: bool)
    requires |pixels| == 8 && offset < 8 && ScanlineShape(line) && s.x + offset < NES_WIDTH
    ensures var step := ColumnStep(pixels[offset], BehindBackground(s), first, s.x + offset, line, hit);
      DrawColumns(pixels, s, first, offset, line, hit) ==
        if step.0.Err? then step else DrawColumns(pixels, s, first, offset + 1, step.0.value, step.1)
  {
    match pixels[offset]
    case Err(p) =>
    case Ok(None) =>
    case Ok(Some(c)) =>
      assert ColumnStep(pixels[offset], BehindBackground(s), first, s.x + offset, line, hit)
          == (Ok(Place(line, BehindBackground(s), s.x + offset, c)), hit || first);
  }

  /** The step of on-screen column `offset` of sprite s, in terms of the
      row of pixels the sprite shows on line y. */
  lemma ColumnAdvance(chr: seq<u8>, palette: PaletteMemory, s: Sprite, y: nat, first: bool, offset: nat,
                      line: Scanline, hit: bool, step: (Result<Scanline, Panic>, bool))
    requires PaletteShape(palette) && Covers(s, y) && offset < 8 && s.x + offset < NES_WIDTH && ScanlineShape(line)
    requires step == ColumnStep(SpritePixel(chr, palette, s, y, offset), BehindBackground(s), first, s.x + offset, line, hit)
    ensures step.0.Ok? ==> ScanlineShape(step.0.value)
    ensures var pixels := SpriteRow(chr, palette, s, y);
      DrawColumns(pixels, s, first, offset, line, hit) ==
        if step.0.Err? then step else DrawColumns(pixels, s, first, offset + 1, step.0.value, step.1)
  {
    ColumnsThroughStep(SpriteRow(chr, palette, s, y), s, first, offset, line, hit);
  }

  /** Placing a colour changes one column of one layer. */
  lemma PlaceAt(line: Scanline, b: bool, column: nat, c: Color, x: nat, behind: bool)
    requires ScanlineShape(line) && column < NES_WIDTH && x < NES_WIDTH
    ensures Layer(Place(line, b, column, c), behind)[x] ==
      if x == column && b == behind then Some(c) else Layer(line, behind)[x]
  {
  }

  /** Sprites are drawn from 63 down to 0, each over the ones before, so
      what remains in each layer at column x is the colour of the
      lowest-numbered sprite opaque there. */
  lemma {:induction false} SpritesLayer(m: VideoMemory, chr: seq<u8>, y: nat, i: nat, x: nat, behind: bool)
    requires VideoShape(m) && i <= SPRITE_COUNT && x < NES_WIDTH
    requires DrawSprites(m, chr, y, i).0.Ok?
    ensures TopSprite(m, chr, y, i, x, behind) == Ok(Layer(DrawSprites(m, chr, y, i).0.value, behind)[x])
    decreases SPRITE_COUNT - i
  {
    if i < SPRITE_COUNT {
      SpritesLayer(m, chr, y, i + 1, x, behind);
      var below := DrawSprites(m, chr, y, i + 1);
      if Covers(m.oam[i], y) {
        ColumnsLayer(SpriteRow(chr, m.palette, m.oam[i], y), m.oam[i], i == 0, 0, below.0.value, below.1, x, behind);
      }
    }
  }

  /** Drawing columns offset .. 7 raises the hit flag exactly when the
      sprite is sprite 0 and one of those columns on screen is opaque. */
  lemma {:induction false} ColumnsHit(pixels: seq<Result<Option<Color>, Panic>>, s: Sprite, first: bool,
                                      offset: nat, line: Scanline, hit: bool)
    requires |pixels| == 8 && offset <= 8 && ScanlineShape(line)
    requires DrawColumns(pixels, s, first, offset, line, hit).0.Ok?
    ensures DrawColumns(pixels, s, first, offset, line, hit).1 ==
      (hit || (first && exists k :: offset <= k < 8 && s.x + k < NES_WIDTH && Opaque(pixels[k])))
    decreases 8 - offset
  {
    if offset < 8 && s.x + offset < NES_WIDTH {
      match pixels[offset]
      case Ok(None) =>
        ColumnsHit(pixels, s, first, offset + 1, line, hit);
        assert (exists k :: offset <= k < 8 && s.x + k < NES_WIDTH && Opaque(pixels[k])) ==
               (exists k :: offset + 1 <= k < 8 && s.x + k < NES_WIDTH && Opaque(pixels[k]));
      case Ok(Some(c)) =>
        var placed := Place(line, BehindBackground(s), s.x + offset, c);
        assert DrawColumns(pixels, s, first, offset, line, hit) == DrawColumns(pixels, s, first, offset + 1, placed, hit || first);
        ColumnsHit(pixels, s, first, offset + 1, placed, hit || first);
        assert Opaque(pixels[offset]);
    }
  }

  /** Sprite 0 is opaque somewhere on screen on line y. */
  predicate SpriteZeroOpaque(m: VideoMemory, chr: seq<u8>, y: nat)
    requires VideoShape(m)
  {
    var s := m.oam[0];
    Covers(s, y) && exists k :: 0 <= k < 8 && s.x + k < NES_WIDTH && Opaque(SpritePixel(chr, m.palette, s, y, k))
  }

  /** Pre-rendering a line reports a sprite hit exactly when sprite 0 has an
      opaque pixel on it. */
  lemma {:induction false} SpritesHit(m: VideoMemory, chr: seq<u8>, y: nat, i: nat)
    requires VideoShape(m) && i <= SPRITE_COUNT
    requires DrawSprites(m, chr, y, i).0.Ok?
    ensures DrawSprites(m, chr, y, i).1 == (i == 0 && SpriteZeroOpaque(m, chr, y))
    decreases SPRITE_COUNT - i
  {
    if i < SPRITE_COUNT {
      SpritesHit(m, chr, y, i + 1);
      var below := DrawSprites(m, chr, y, i + 1);
      assert DrawSprites(m, chr, y, i) == DrawSprite(m, chr, y, i, below.0.value, false);
      if Covers(m.oam[i], y) {
        ColumnsHit(SpriteRow(chr, m.palette, m.oam[i], y), m.oam[i], i == 0, 0, below.0.value, false);
        RowOpaque(chr, m.palette, m.oam[i], y);
      }
    }
  }

  /** A sprite's row is opaque on screen where its pixels are. */
  lemma RowOpaque(chr: seq<u8>, palette: PaletteMemory, s: Sprite, y: nat)
    requires PaletteShape(palette) && Covers(s, y)
    ensures (exists k :: 0 <= k < 8 && s.x + k < NES_WIDTH && Opaque(SpriteRow(chr, palette, s, y)[k])) ==
            (exists k :: 0 <= k < 8 && s.x + k < NES_WIDTH && Opaque(SpritePixel(chr, palette, s, y, k)))
  {
    var row := SpriteRow(chr, palette, s, y);
    if exists k :: 0 <= k < 8 && s.x + k < NES_WIDTH && Opaque(row[k]) {
      var k :| 0 <= k < 8 && s.x + k < NES_WIDTH && Opaque(row[k]);
      assert row[k] == SpritePixel(chr, palette, s, y, k);
    }
    if exists k :: 0 <= k < 8 && s.x + k < NES_WIDTH && Opaque(SpritePixel(chr, palette, s, y, k)) {
      var k :| 0 <= k < 8 && s.x + k < NES_WIDTH && Opaque(SpritePixel(chr, palette, s, y, k));
      assert row[k] == SpritePixel(chr, palette, s, y, k);
    }
  }

  // ---------------------------------------------------------------------
  // Pixels

  /** render_pixel: a sprite in front wins; otherwise an opaque pixel of the
      scrolled background; otherwise a sprite behind the background;
      otherwise the shared background colour. */
  function PixelColor(m: VideoMemory, chr: seq<u8>, control: ControlRegister, scroll: ScrollRegister,
                      sprites: Option<Scanline>, x: nat, y: nat): Result<Color, Panic>
    requires VideoShape(m) && x < NES_WIDTH && y < NES_HEIGHT
    requires sprites.Some? ==> ScanlineShape(sprites.value)
  {
    var front := if sprites.Some? then sprites.value.foreground[x] else None;
    if front.Some? then Ok(front.value)
    else
      var place :- Scrolled(control, scroll, x, y);
      var background :- BackgroundColor(m, chr, if place.0 then 1 else 0, place.1, place.2);
      if background.Some? then Ok(background.value)
      else
        var behind := if sprites.Some? then sprites.value.background[x] else None;
        if behind.Some? then Ok(behind.value)
        else if m.palette.background_solid < |NES_PALETTE| then Ok(NES_PALETTE[m.palette.background_solid])
        else Err(IndexOutOfBounds)
  }

  /** With the sprites of line y pre-rendered, pixel (x, y) is the colour of
      the lowest-numbered front sprite opaque there; failing that, of the
      scrolled background where it is opaque; failing that, of the
      lowest-numbered behind-background sprite opaque there; failing that,
      the shared background colour. */
  lemma PixelComposite(m: VideoMemory, chr: seq<u8>, control: ControlRegister, scroll: ScrollRegister, x: nat, y: nat)
    requires VideoShape(m) && x < NES_WIDTH && y < NES_HEIGHT
    requires DrawSprites(m, chr, y, SPRITE_ZERO).0.Ok?
    ensures TopSprite(m, chr, y, SPRITE_ZERO, x, false).Ok? && TopSprite(m, chr, y, SPRITE_ZERO, x, true).Ok?
    ensures var front := TopSprite(m, chr, y, SPRITE_ZERO, x, false).value;
      var behind := TopSprite(m, chr, y, SPRITE_ZERO, x, true).value;
      var pixel := PixelColor(m, chr, control, scroll, Some(DrawSprites(m, chr, y, SPRITE_ZERO).0.value), x, y);
      var place := Scrolled(control, scroll, x, y);
      if front.Some? then pixel == Ok(front.value)
      else if place.Err? then pixel == Err(place.error)
      else
        var background := BackgroundColor(m, chr, if place.value.0 then 1 else 0, place.value.1, place.value.2);
        if background.Err? then pixel == Err(background.error)
        else if background.value.Some? then pixel == Ok(background.value.value)
        else if behind.Some? then pixel == Ok(behind.value)
        else pixel == if m.palette.background_solid < 64 then Ok(NES_PALETTE[m.palette.background_solid]) else Err(IndexOutOfBounds)
  {
    SpritesLayer(m, chr, y, SPRITE_ZERO, x, false);
    SpritesLayer(m, chr, y, SPRITE_ZERO, x, true);
  }

  /** Once drawing has aborted, drawing further sprites changes nothing. */
  lemma {:induction false} AbortStays(m: VideoMemory, chr: seq<u8>, y: nat, i: nat, j: nat)
    requires VideoShape(m) && j <= i <= SPRITE_COUNT
    requires DrawSprites(m, chr, y, i).0.Err?
    ensures DrawSprites(m, chr, y, j) == DrawSprites(m, chr, y, i)
    decreases i - j
  {
    if j < i {
      AbortStays(m, chr, y, i, j + 1);
    }
  }

  // ---------------------------------------------------------------------
  // The raster

  /** The byte offset of pixel (x, y) in a frame. */
  function PixelAddress(x: nat, y: nat): nat
  {
    (x + y * NES_WIDTH) * 4
  }

  /** Every visible pixel has its own four bytes inside the frame. */
  lemma PixelAddresses(x: nat, y: nat, x': nat, y': nat)
    requires x < NES_WIDTH && y < NES_HEIGHT && x' < NES_WIDTH && y' < NES_HEIGHT
    ensures PixelAddress(x, y) + 4 <= NES_FRAME_SIZE
    ensures (x, y) != (x', y') ==> PixelAddress(x, y) + 4 <= PixelAddress(x', y') || PixelAddress(x', y') + 4 <= PixelAddress(x, y)
  {
    if (x, y) != (x', y') && y != y' {
      if y < y' {
        assert (y + 1) * NES_WIDTH <= y' * NES_WIDTH;
      } else {
        assert (y' + 1) * NES_WIDTH <= y * NES_WIDTH;
      }
    }
  }

  /** The frame with the four bytes at `address` replaced by colour c. */
  function Paint(frame: seq<u8>, address: nat, c: Color): (painted: seq<u8>)
    requires address + 4 <= |frame|
    ensures |painted| == |frame|
    ensures painted[address..address + 4] == [c.red, c.green, c.blue, c.alpha]
    ensures forall j :: 0 <= j < |frame| && !(address <= j < address + 4) ==> painted[j] == frame[j]
  {
    frame[address := c.red][address + 1 := c.green][address + 2 := c.blue][address + 3 := c.alpha]
  }

  /** What the raster walk carries from dot to dot: the dot position, the
      pre-rendered sprites of the current line, the frame, the sprite-hit
      flag of the status register and whether v-blank began. */
  datatype Scan = Scan(x: nat, y: nat, sprites: Option<Scanline>, frame: seq<u8>, hit: bool, vblank: bool)

  predicate ScanShape(s: Scan)
  {
    && s.x < NES_SCANLINE_WIDTH && s.y < NES_SCANLINE_COUNT && |s.frame| == NES_FRAME_SIZE
    && (s.sprites.Some? ==> ScanlineShape(s.sprites.value))
  }

  /** The work of one dot: on a visible line, dot 0 pre-renders the line's
      sprites (which may raise the hit flag) and dots 1 .. 256 paint pixel
      x - 1; dot 1 of line 241 begins v-blank; dot 1 of line 261 clears the
      hit flag. Only a painting dot changes the frame. */
  function DotWork(m: VideoMemory, chr: seq<u8>, control: ControlRegister, scroll: ScrollRegister, s: Scan): (r: Result<Scan, Panic>)
    requires VideoShape(m) && ScanShape(s)
    ensures r.Ok? ==> ScanShape(r.value) && r.value.x == s.x && r.value.y == s.y
    ensures r.Ok? && !(s.y < NES_HEIGHT && 1 <= s.x <= NES_WIDTH) ==> r.value.frame == s.frame
    ensures r.Ok? ==> r.value.vblank == (s.vblank || (s.y == 241 && s.x == 1))
  {
    if s.y < NES_HEIGHT then
      if s.x == 0 then
        var drawn := DrawSprites(m, chr, s.y, SPRITE_ZERO);
        match drawn.0
        case Err(p) => Err(p)
        case Ok(line) => Ok(s.(sprites := Some(line), hit := s.hit || drawn.1))
      else if s.x <= NES_WIDTH then
        PaintStep(m, chr, control, scroll, s, s.x - 1, PAINT_DEPTH)
      else Ok(s)
    else if s.y == 241 && s.x == 1 then Ok(s.(vblank := true))
    else if s.y == 261 && s.x == 1 then Ok(s.(hit := false))
    else Ok(s)
  }

  /** How many times PaintStep recurses before painting. The recursion only
      keeps the verifier from unfolding the pixel colour wherever DotWork is
      unfolded; every depth paints the same (PaintStepColors). A plain
      non-recursive function would be unfolded at every use of DotWork,
      dragging the whole pixel composition into proofs about the raster walk
      that never look at colours; a recursive call is unfolded only once. */
  const PAINT_DEPTH: nat := 1

  /** The work of a painting dot: pixel x of line s.y takes its colour, or
      the dot aborts with that pixel's panic. */
  function PaintStep(m: VideoMemory, chr: seq<u8>, control: ControlRegister, scroll: ScrollRegister, s: Scan, x: nat, depth: nat): (r: Result<Scan, Panic>)
    requires VideoShape(m) && ScanShape(s) && s.y < NES_HEIGHT && x < NES_WIDTH
    ensures r.Ok? ==> r.value == s.(frame := r.value.frame) && ScanShape(r.value)
  {
    if depth == 0 then
      PixelAddresses(x, s.y, x, s.y);
      match PixelColor(m, chr, control, scroll, s.sprites, x, s.y)
      case Err(p) => Err(p)
      case Ok(c) => Ok(s.(frame := Paint(s.frame, PixelAddress(x, s.y), c)))
    else PaintStep(m, chr, control, scroll, s, x, depth - 1)
  }

  /** Dot x + 1 of a visible line is a painting dot. */
  lemma DotDispatchesPaint(m: VideoMemory, chr: seq<u8>, control: ControlRegister, scroll: ScrollRegister, s: Scan, x: nat)
    requires VideoShape(m) && ScanShape(s) && s.y < NES_HEIGHT && x < NES_WIDTH && s.x == x + 1
    ensures DotWork(m, chr, control, scroll, s) == PaintStep(m, chr, control, scroll, s, x, PAINT_DEPTH)
  {
  }

  /** A painting step paints the colour of its pixel at the pixel's four
      bytes. */
  lemma PaintStepColors(m: VideoMemory, chr: seq<u8>, control: ControlRegister, scroll: ScrollRegister, s: Scan, x: nat)
    requires VideoShape(m) && ScanShape(s) && s.y < NES_HEIGHT && x < NES_WIDTH
    ensures PixelAddress(x, s.y) + 4 <= NES_FRAME_SIZE
    ensures PaintStep(m, chr, control, scroll, s, x, PAINT_DEPTH) ==
      match PixelColor(m, chr, control, scroll, s.sprites, x, s.y)
      case Err(p) => Err(p)
      case Ok(c) => Ok(s.(frame := Paint(s.frame, PixelAddress(x, s.y), c)))
  {
    PixelAddresses(x, s.y, x, s.y);
  }

  /** A painting dot, dot x + 1 of a visible line, paints the colour of
      pixel x, or aborts with that pixel's panic. */
  lemma DotPaints(m: VideoMemory, chr: seq<u8>, control: ControlRegister, scroll: ScrollRegister, s: Scan, x: nat)
    requires VideoShape(m) && ScanShape(s) && s.y < NES_HEIGHT && x < NES_WIDTH && s.x == x + 1
    ensures PixelAddress(x, s.y) + 4 <= NES_FRAME_SIZE
    ensures DotWork(m, chr, control, scroll, s) ==
      match PixelColor(m, chr, control, scroll, s.sprites, x, s.y)
      case Err(p) => Err(p)
      case Ok(c) => Ok(s.(frame := Paint(s.frame, PixelAddress(x, s.y), c)))
  {
    DotDispatchesPaint(m, chr, control, scroll, s, x);
    PaintStepColors(m, chr, control, scroll, s, x);
  }

  /** The next dot: 341 dots per line, 262 lines per frame. */
  function Advance(s: Scan): (t: Scan)
    requires ScanShape(s)
    ensures ScanShape(t)
  {
    var x := s.x + 1;
    if x >= NES_SCANLINE_WIDTH then
      var y := s.y + 1;
      s.(x := 0, y := if y >= NES_SCANLINE_COUNT then 0 else y)
    else s.(x := x)
  }

  /** n dots from s, stopping at the first that aborts. */
  function Dots(m: VideoMemory, chr: seq<u8>, control: ControlRegister, scroll: ScrollRegister, s: Scan, n: nat): (r: Result<Scan, Panic>)
    requires VideoShape(m) && ScanShape(s)
    ensures r.Ok? ==> ScanShape(r.value)
    decreases n
  {
    if n == 0 then Ok(s)
    else
      var s1 :- DotWork(m, chr, control, scroll, s);
      Dots(m, chr, control, scroll, Advance(s1), n - 1)
  }

  /** Dots in one whole frame, and the dot (line 241, dot 1) where v-blank
      begins. */
  const FRAME_DOTS := 89342
  const V_BLANK_DOT := 82182

  /** The number of the dot s is at, counted from the frame's first dot. */
  function Position(s: Scan): nat
  {
    s.y * NES_SCANLINE_WIDTH + s.x
  }

  /** The dot k dots after dot p. */
  function DotAfter(p: nat, k: nat): nat
  {
    (p + k) % FRAME_DOTS
  }

  /** A dot number names one line and one dot of it. */
  lemma PositionDigits(s: Scan)
    requires ScanShape(s)
    ensures Position(s) < FRAME_DOTS
    ensures Position(s) == V_BLANK_DOT <==> s.y == 241 && s.x == 1
  {
  }

  /** Advancing moves to the next dot number, wrapping at the end of the frame. */
  lemma AdvancePosition(s: Scan)
    requires ScanShape(s)
    ensures Position(Advance(s)) == DotAfter(Position(s), 1)
  {
    PositionDigits(s);
  }

  /** The first of n > 0 dots, then the rest. */
  lemma DotsStep(m: VideoMemory, chr: seq<u8>, control: ControlRegister, scroll: ScrollRegister, s: Scan, n: nat)
    requires VideoShape(m) && ScanShape(s) && n > 0
    ensures DotWork(m, chr, control, scroll, s).Err? ==>
      Dots(m, chr, control, scroll, s, n) == Err(DotWork(m, chr, control, scroll, s).error)
    ensures DotWork(m, chr, control, scroll, s).Ok? ==>
      Dots(m, chr, control, scroll, s, n) == Dots(m, chr, control, scroll, Advance(DotWork(m, chr, control, scroll, s).value), n - 1)
  {
  }

  /** Counting k dots from the next dot is counting k + 1 from this one. */
  lemma DotAfterNext(p: nat, k: nat)
    requires p < FRAME_DOTS
    ensures DotAfter(DotAfter(p, 1), k) == DotAfter(p, k + 1)
  {
  }

  /** Whether the v-blank dot is among the n dots from dot p. */
  predicate PassesVBlank(p: nat, n: nat)
  {
    exists k :: 0 <= k < n && DotAfter(p, k) == V_BLANK_DOT
  }

  /** n dots from s end n dot numbers further on, and have begun v-blank
      exactly when it had begun before or the v-blank dot was among them.
      The position and v-blank flag never depend on the video memory. */
  lemma {:induction false} DotsWalk(m: VideoMemory, chr: seq<u8>, control: ControlRegister, scroll: ScrollRegister, s: Scan, n: nat)
    requires VideoShape(m) && ScanShape(s)
    requires Dots(m, chr, control, scroll, s, n).Ok?
    ensures Position(Dots(m, chr, control, scroll, s, n).value) == DotAfter(Position(s), n)
    ensures Dots(m, chr, control, scroll, s, n).value.vblank == (s.vblank || PassesVBlank(Position(s), n))
    decreases n
  {
    if n > 0 {
      PositionDigits(s);
      DotsStep(m, chr, control, scroll, s, n);
      var t := Advance(DotWork(m, chr, control, scroll, s).value);
      DotMoves(m, chr, control, scroll, s);
      DotsWalk(m, chr, control, scroll, t, n - 1);
      var last := Dots(m, chr, control, scroll, t, n - 1).value;
      WalkStep(Position(s), Position(t), n, s.vblank, t.vblank, Position(last), last.vblank);
    }
  }

  /** One dot that goes through moves to the next dot number and begins
      v-blank exactly at the v-blank dot. */
  lemma DotMoves(m: VideoMemory, chr: seq<u8>, control: ControlRegister, scroll: ScrollRegister, s: Scan)
    requires VideoShape(m) && ScanShape(s)
    requires DotWork(m, chr, control, scroll, s).Ok?
    ensures var t := Advance(DotWork(m, chr, control, scroll, s).value);
      Position(t) == DotAfter(Position(s), 1) && t.vblank == (s.vblank || Position(s) == V_BLANK_DOT)
  {
    PositionDigits(s);
    AdvancePosition(DotWork(m, chr, control, scroll, s).value);
  }

  /** One dot of the walk in terms of dot numbers and v-blank flags. */
  lemma WalkStep(p: nat, next: nat, n: nat, v: bool, v1: bool, end: nat, vend: bool)
    requires p < FRAME_DOTS && n > 0
    requires next == DotAfter(p, 1) && v1 == (v || p == V_BLANK_DOT)
    requires end == DotAfter(next, n - 1) && vend == (v1 || PassesVBlank(next, n - 1))
    ensures end == DotAfter(p, n) && vend == (v || PassesVBlank(p, n))
  {
    DotAfterNext(p, n - 1);
    PassesNext(p, n);
  }

  /** The v-blank dot is among n > 0 dots from p when it is p or among the
      n - 1 dots from the next one. */
  lemma PassesNext(p: nat, n: nat)
    requires p < FRAME_DOTS && n > 0
    ensures PassesVBlank(p, n) == (p == V_BLANK_DOT || PassesVBlank(DotAfter(p, 1), n - 1))
  {
    if PassesVBlank(p, n) && p != V_BLANK_DOT {
      var k :| 0 <= k < n && DotAfter(p, k) == V_BLANK_DOT;
      DotAfterNext(p, k - 1);
      assert DotAfter(DotAfter(p, 1), k - 1) == V_BLANK_DOT;
    }
    if PassesVBlank(DotAfter(p, 1), n - 1) {
      var k :| 0 <= k < n - 1 && DotAfter(DotAfter(p, 1), k) == V_BLANK_DOT;
      DotAfterNext(p, k);
    }
    if p == V_BLANK_DOT {
      assert DotAfter(p, 0) == V_BLANK_DOT;
    }
  }

  /** What `render` hands back besides its state. */
  datatype RenderAction = NoAction | SendNMI

  /** Renderer::render as a function of its state: the dots of three times
      the cycles elapsed, then a non-maskable interrupt (and the finished
      frame) when v-blank began during them and the control register asks
      for it. The subtraction aborts when the cycle went backwards, the
      multiplication when it leaves 64 bits. */
  function RenderSpec(m: VideoMemory, chr: seq<u8>, control: ControlRegister, scroll: ScrollRegister,
                      s: Scan, last_cycle: u64, cycle: u64): Result<(Scan, RenderAction), Panic>
    requires VideoShape(m) && ScanShape(s)
  {
    var n :- Elapsed(last_cycle, cycle);
    var s1 :- Dots(m, chr, control, scroll, s.(vblank := false), n);
    Ok((s1, if s1.vblank && control.gen_nmi then SendNMI else NoAction))
  }

  /** The dots to run: three per cycle since the last render. */
  function Elapsed(last_cycle: u64, cycle: u64): (r: Result<nat, Panic>)
    ensures r.Ok? <==> last_cycle <= cycle && (cycle - last_cycle) * 3 < 0x1_0000_0000_0000_0000
    ensures r.Ok? ==> r.value == (cycle - last_cycle) * 3
  {
    if cycle < last_cycle then Err(ArithmeticOverflow)
    else if (cycle - last_cycle) * 3 >= 0x1_0000_0000_0000_0000 then Err(ArithmeticOverflow)
    else Ok((cycle - last_cycle) * 3)
  }

  /** A render that goes through ends three dots per elapsed cycle further
      on, and sends the interrupt exactly when the control register asks for
      it and the v-blank dot was among those dots. */
  lemma RenderWalk(m: VideoMemory, chr: seq<u8>, control: ControlRegister, scroll: ScrollRegister,
                   s: Scan, last_cycle: u64, cycle: u64)
    requires VideoShape(m) && ScanShape(s)
    requires RenderSpec(m, chr, control, scroll, s, last_cycle, cycle).Ok?
    ensures cycle >= last_cycle
    ensures Position(RenderSpec(m, chr, control, scroll, s, last_cycle, cycle).value.0) ==
              DotAfter(Position(s), (cycle - last_cycle) * 3)
    ensures RenderSpec(m, chr, control, scroll, s, last_cycle, cycle).value.1 == SendNMI <==>
              control.gen_nmi && PassesVBlank(Position(s), (cycle - last_cycle) * 3)
  {
    ElapsedOfRender(m, chr, control, scroll, s, last_cycle, cycle);
    var n := Elapsed(last_cycle, cycle).value;
    var start := s.(vblank := false);
    var d := Dots(m, chr, control, scroll, start, n);
    RenderSteps(m, chr, control, scroll, s, last_cycle, cycle, n, d.value);
    DotsWalk(m, chr, control, scroll, start, n);
    assert Position(start) == Position(s);
    assert RenderSpec(m, chr, control, scroll, s, last_cycle, cycle).value.0 == d.value;
  }

  lemma ElapsedOfRender(m: VideoMemory, chr: seq<u8>, control: ControlRegister, scroll: ScrollRegister,
                        s: Scan, last_cycle: u64, cycle: u64)
    requires VideoShape(m) && ScanShape(s)
    requires RenderSpec(m, chr, control, scroll, s, last_cycle, cycle).Ok?
    ensures Elapsed(last_cycle, cycle).Ok?
  {
  }

  /** A render that goes through is its dots followed by the interrupt decision. */
  lemma RenderSteps(m: VideoMemory, chr: seq<u8>, control: ControlRegister, scroll: ScrollRegister,
                    s: Scan, last_cycle: u64, cycle: u64, n: nat, t: Scan)
    requires VideoShape(m) && ScanShape(s)
    requires Elapsed(last_cycle, cycle) == Ok(n)
    requires Dots(m, chr, control, scroll, s.(vblank := false), n) == Ok(t)
    ensures RenderSpec(m, chr, control, scroll, s, last_cycle, cycle) ==
      Ok((t, if t.vblank && control.gen_nmi then SendNMI else NoAction))
  {
  }

  /** The registers with the status register's sprite-hit flag raised when
      `hit` is set. */
  function WithHit(r: PpuRegisters, hit: bool): (raised: PpuRegisters)
    ensures raised.status.sprite_hit == (r.status.sprite_hit || hit)
  {
    r.(status := r.status.(sprite_hit := r.status.sprite_hit || hit))
  }

  /** The registers with the sprite-hit flag set to `flag`, and nothing
      else changed. */
  function HitSet(r: PpuRegisters, flag: bool): (t: PpuRegisters)
    ensures t.status.sprite_hit == flag && t.control == r.control && t.scroll == r.scroll
  {
    r.(status := r.status.(sprite_hit := flag))
  }

  /** Setting the flag twice keeps the second value. */
  lemma HitSetAgain(r: PpuRegisters, a: bool, b: bool)
    ensures HitSet(HitSet(r, a), b) == HitSet(r, b)
  {
  }

  /** Raising the flag for a hit, then for a later one that includes it,
      is raising it for the later one. */
  lemma WithHitAgain(r: PpuRegisters, a: bool, b: bool)
    requires a ==> b
    ensures WithHit(WithHit(r, a), b) == WithHit(r, b)
  {
  }

  /** A render whose dots abort fails with the dot's panic. */
  lemma RenderAborts(m: VideoMemory, chr: seq<u8>, control: ControlRegister, scroll: ScrollRegister,
                     s: Scan, last_cycle: u64, cycle: u64, n: nat, outcome: Result<Scan, Panic>, p: Panic)
    requires VideoShape(m) && ScanShape(s)
    requires Elapsed(last_cycle, cycle) == Ok(n)
    requires outcome == Dots(m, chr, control, scroll, s.(vblank := false), n) && outcome == Err(p)
    ensures RenderSpec(m, chr, control, scroll, s, last_cycle, cycle) == Err(p)
  {
  }

  // ---------------------------------------------------------------------
  // The renderer

  /** Byte i of name table p, in place and as a value. */
  lemma NameAt(ppu: Ppu, p: nat, i: nat)
    requires ppu.Valid() && p < 4 && i < NAME_TABLE_SIZE
    ensures ppu.Memory().names[p][i] == ppu.names[p, i]
  {
  }

  class SoftwareRenderer {
    var scan_x: nat
    var scan_y: nat
    var last_cycle: u64
    var pre_rendered_sprites: Option<Scanline>
    /** The frame being drawn, four bytes per pixel. */
    const frame: array<u8>
    /** Every frame handed to the push_frame callback so far, in order. */
    var pushed: seq<seq<u8>>

    ghost predicate Valid()
      reads this
    {
      && frame.Length == NES_FRAME_SIZE && scan_x < NES_SCANLINE_WIDTH && scan_y < NES_SCANLINE_COUNT
      && (pre_rendered_sprites.Some? ==> ScanlineShape(pre_rendered_sprites.value))
    }

    /** The raster state as a value; `vblank` is the local flag of the
        render call in progress. */
    ghost function State(ppu: Ppu, vblank: bool): (s: Scan)
      reads this, frame, ppu
      requires Valid()
      ensures ScanShape(s)
    {
      Scan(scan_x, scan_y, pre_rendered_sprites, frame[..], ppu.registers.status.sprite_hit, vblank)
    }

    /** SoftwareRenderer::new: at the first dot of the first line, at cycle
        0, nothing pre-rendered, every frame byte 255, nothing pushed. */
    constructor ()
      ensures Valid() && fresh(frame)
      ensures scan_x == 0 && scan_y == 0 && last_cycle == 0 && pre_rendered_sprites == None
      ensures frame[..] == seq(NES_FRAME_SIZE, _ => 255) && pushed == []
    {
      scan_x, scan_y := 0, 0;
      last_cycle := 0;
      pre_rendered_sprites := None;
      frame := new u8[NES_FRAME_SIZE](_ => 255);
      pushed := [];
    }

    /** render_background, reading the name tables in place. */
    method RenderBackground(ppu: Ppu, table: nat, x: nat, y: nat) returns (r: Result<Option<Color>, Panic>)
      requires ppu.Valid() && table < 2 && x < NES_WIDTH && y < NES_HEIGHT
      ensures r == BackgroundColor(ppu.Memory(), ppu.chr_rom, table, x, y)
    {
      NameIndices(x, y);
      var col, row := x / 8, y / 8;
      NameAt(ppu, table, col + row * 32);
      NameAt(ppu, table, 0x3C0 + col / 4 + (row / 4) * 8);
      assert ppu.palette == ppu.Memory().palette;
      var tile := ppu.names[table, col + row * 32];
      var attribute := ppu.names[table, 0x3C0 + col / 4 + (row / 4) * 8];
      r := TileColor(ppu.chr_rom, ppu.palette, tile, attribute, x, y);
    }

    /** pre_render_sprites: draws sprites 63 down to 0 into an empty line,
        in place, raising the status register's sprite-hit flag whenever
        sprite 0 draws an opaque pixel. */
    method PreRenderSprites(ppu: Ppu, y: nat) returns (r: Result<Scanline, Panic>)
      requires ppu.Valid()
      modifies ppu
      ensures ppu.Valid() && ppu.Memory() == old(ppu.Memory())
      ensures r == DrawSprites(old(ppu.Memory()), ppu.chr_rom, y, SPRITE_ZERO).0
      ensures ppu.registers == WithHit(old(ppu.registers), DrawSprites(old(ppu.Memory()), ppu.chr_rom, y, SPRITE_ZERO).1)
    {
      ghost var m := ppu.Memory();
      ghost var hit := false;
      var background := new Option<Color>[NES_WIDTH](_ => None);
      var foreground := new Option<Color>[NES_WIDTH](_ => None);
      assert Scanline(background[..], foreground[..]) == Scanline(seq(NES_WIDTH, _ => None), seq(NES_WIDTH, _ => None));
      var i: nat := SPRITE_COUNT;
      while i > 0
        invariant i <= SPRITE_COUNT && ppu.Valid() && ppu.Memory() == m
        invariant DrawSprites(m, ppu.chr_rom, y, i) == (Ok(Scanline(background[..], foreground[..])), hit)
        invariant ppu.registers == WithHit(old(ppu.registers), hit)
      {
        i := i - 1;
        var sprite := ppu.oam[i];
        assert sprite == m.oam[i] && ppu.palette == m.palette;
        if !Covers(sprite, y) {
          continue;
        }
        var failure;
        ghost var before := hit;
        failure, hit := DrawSpriteInPlace(ppu, y, sprite, i == 0, background, foreground, hit);
        WithHitAgain(old(ppu.registers), before, hit);
        if failure.Some? {
          AbortStays(m, ppu.chr_rom, y, i, SPRITE_ZERO);
          return Err(failure.value);
        }
      }
      r := Ok(Scanline(background[..], foreground[..]));
    }

    /** One sprite of pre_render_sprites: its eight columns on line y,
        stopping at the right edge of the screen. */
    method DrawSpriteInPlace(ppu: Ppu, y: nat, s: Sprite, first: bool, background: array<Option<Color>>,
                             foreground: array<Option<Color>>, ghost hit: bool)
      returns (failure: Option<Panic>, ghost hit': bool)
      requires ppu.Valid() && Covers(s, y)
      requires background.Length == NES_WIDTH && foreground.Length == NES_WIDTH && background != foreground
      requires hit ==> ppu.registers.status.sprite_hit
      modifies ppu, background, foreground
      ensures ppu.Valid() && ppu.Memory() == old(ppu.Memory()) && (hit ==> hit')
      ensures var d := DrawColumns(SpriteRow(ppu.chr_rom, old(ppu.palette), s, y), s, first, 0,
                                   old(Scanline(background[..], foreground[..])), hit);
        && hit' == d.1
        && (d.0.Ok? ==> failure.None? && d.0.value == Scanline(background[..], foreground[..]))
        && (d.0.Err? ==> failure == Some(d.0.error))
      ensures ppu.registers == WithHit(old(ppu.registers), hit')
    {
      ghost var pixels := SpriteRow(ppu.chr_rom, ppu.palette, s, y);
      ghost var outcome := DrawColumns(pixels, s, first, 0, Scanline(background[..], foreground[..]), hit);
      hit' := hit;
      failure := None;
      var offset := 0;
      while offset < 8 && s.x + offset < NES_WIDTH && failure.None?
        invariant offset <= 8 && ppu.Valid() && ppu.Memory() == old(ppu.Memory()) && ppu.palette == old(ppu.palette)
        invariant failure.None? ==>
          DrawColumns(pixels, s, first, offset, Scanline(background[..], foreground[..]), hit') == outcome
        invariant failure.Some? ==> outcome == (Err(failure.value), hit')
        invariant ppu.registers == WithHit(old(ppu.registers), hit')
      {
        ghost var step := ColumnStep(SpritePixel(ppu.chr_rom, ppu.palette, s, y, offset), BehindBackground(s), first,
                                     s.x + offset, Scanline(background[..], foreground[..]), hit');
        ColumnAdvance(ppu.chr_rom, ppu.palette, s, y, first, offset, Scanline(background[..], foreground[..]), hit', step);
        ghost var before := hit';
        failure, hit' := DrawColumnInPlace(ppu, y, s, first, offset, background, foreground, hit');
        WithHitAgain(old(ppu.registers), before, hit');
        offset := offset + 1;
      }
    }

    /** Column `offset` of sprite s on line y, drawn in place. */
    method DrawColumnInPlace(ppu: Ppu, y: nat, s: Sprite, first: bool, offset: nat,
                             background: array<Option<Color>>, foreground: array<Option<Color>>, ghost hit: bool)
      returns (failure: Option<Panic>, ghost hit': bool)
      requires ppu.Valid() && Covers(s, y) && offset < 8 && s.x + offset < NES_WIDTH
      requires background.Length == NES_WIDTH && foreground.Length == NES_WIDTH && background != foreground
      requires hit ==> ppu.registers.status.sprite_hit
      modifies ppu, background, foreground
      ensures ppu.Valid() && ppu.Memory() == old(ppu.Memory()) && (hit ==> hit')
      ensures ppu.registers == WithHit(old(ppu.registers), hit')
      ensures var step := ColumnStep(SpritePixel(ppu.chr_rom, old(ppu.palette), s, y, offset), BehindBackground(s), first,
                                     s.x + offset, old(Scanline(background[..], foreground[..])), hit);
        && hit' == step.1
        && (step.0.Err? ==> failure == Some(step.0.error))
        && (step.0.Ok? ==> failure.None? && step.0.value == Scanline(background[..], foreground[..]))
    {
      hit' := hit;
      var color := SpritePixel(ppu.chr_rom, ppu.palette, s, y, offset);
      match color {
        case Err(p) =>
          failure := Some(p);
        case Ok(None) =>
          failure := None;
        case Ok(Some(c)) =>
          failure := None;
          if first {
            RaiseSpriteHit(ppu);
            hit' := true;
          }
          PlaceInPlace(background, foreground, BehindBackground(s), s.x + offset, c);
      }
    }

    /** Sets the sprite-hit flag of the status register. */
    static method RaiseSpriteHit(ppu: Ppu)
      requires ppu.Valid()
      modifies ppu
      ensures ppu.Valid() && ppu.Memory() == old(ppu.Memory())
      ensures ppu.registers == WithHit(old(ppu.registers), true)
    {
      ppu.registers := ppu.registers.(status := ppu.registers.status.(sprite_hit := true));
    }

    /** Writes colour c at column x of the layer `behind` selects. */
    static method PlaceInPlace(background: array<Option<Color>>, foreground: array<Option<Color>>,
                               behind: bool, x: nat, c: Color)
      requires background.Length == NES_WIDTH && foreground.Length == NES_WIDTH && background != foreground
      requires x < NES_WIDTH
      modifies background, foreground
      ensures Scanline(background[..], foreground[..]) ==
        Place(old(Scanline(background[..], foreground[..])), behind, x, c)
    {
      if behind {
        background[x] := Some(c);
      } else {
        foreground[x] := Some(c);
      }
    }

    /** render_pixel. */
    method RenderPixel(ppu: Ppu, x: nat, y: nat) returns (r: Result<Color, Panic>)
      requires Valid() && ppu.Valid() && x < NES_WIDTH && y < NES_HEIGHT
      ensures r == PixelColor(ppu.Memory(), ppu.chr_rom, ppu.registers.control, ppu.registers.scroll,
                              pre_rendered_sprites, x, y)
    {
      var front := if pre_rendered_sprites.Some? then pre_rendered_sprites.value.foreground[x] else None;
      if front.Some? {
        return Ok(front.value);
      }
      var place := Scrolled(ppu.registers.control, ppu.registers.scroll, x, y);
      if place.Err? {
        return Err(place.error);
      }
      var background := RenderBackground(ppu, if place.value.0 then 1 else 0, place.value.1, place.value.2);
      if background.Err? {
        return Err(background.error);
      }
      if background.value.Some? {
        return Ok(background.value.value);
      }
      var behind := if pre_rendered_sprites.Some? then pre_rendered_sprites.value.background[x] else None;
      if behind.Some? {
        return Ok(behind.value);
      }
      var solid := ppu.palette.background_solid;
      if solid < |NES_PALETTE| {
        r := Ok(NES_PALETTE[solid]);
      } else {
        r := Err(IndexOutOfBounds);
      }
    }

    /** The work of one dot of `render` (the match on scan_y), in place;
        `vblank` is the render call's has_v_blank flag, returned updated. */
    method Dot(ppu: Ppu, vblank: bool) returns (r: Result<bool, Panic>)
      requires Valid() && ppu.Valid()
      modifies this, frame, ppu
      ensures Valid() && ppu.Valid() && ppu.Memory() == old(ppu.Memory())
      ensures ppu.registers == HitSet(old(ppu.registers), ppu.registers.status.sprite_hit)
      ensures last_cycle == old(last_cycle) && pushed == old(pushed)
      ensures var d := DotWork(old(ppu.Memory()), ppu.chr_rom, old(ppu.registers.control), old(ppu.registers.scroll),
                               old(State(ppu, vblank)));
        && (d.Err? ==> r == Err(d.error))
        && (d.Ok? ==> r == Ok(d.value.vblank) && State(ppu, r.value) == d.value)
    {
      if scan_y < NES_HEIGHT {
        if scan_x == 0 {
          r := SpritesDot(ppu, vblank);
        } else if scan_x <= NES_WIDTH {
          var x := scan_x - 1;
          DotPaints(ppu.Memory(), ppu.chr_rom, ppu.registers.control, ppu.registers.scroll, State(ppu, vblank), x);
          var pixel := PaintDot(ppu, x);
          r := if pixel.Err? then Err(pixel.error) else Ok(vblank);
        } else {
          r := Ok(vblank);
        }
      } else if scan_y == 241 && scan_x == 1 {
        r := Ok(true);
      } else if scan_y == 261 && scan_x == 1 {
        ppu.registers := HitSet(ppu.registers, false);
        HitSetAgain(old(ppu.registers), old(ppu.registers.status.sprite_hit), false);
        r := Ok(vblank);
      } else {
        r := Ok(vblank);
      }
    }

    /** Dot 0 of a visible line: the line's sprites are pre-rendered. */
    method SpritesDot(ppu: Ppu, vblank: bool) returns (r: Result<bool, Panic>)
      requires Valid() && ppu.Valid() && scan_y < NES_HEIGHT && scan_x == 0
      modifies this, ppu
      ensures Valid() && ppu.Valid() && ppu.Memory() == old(ppu.Memory())
      ensures ppu.registers == HitSet(old(ppu.registers), ppu.registers.status.sprite_hit)
      ensures last_cycle == old(last_cycle) && pushed == old(pushed)
      ensures var d := DotWork(old(ppu.Memory()), ppu.chr_rom, old(ppu.registers.control), old(ppu.registers.scroll),
                               old(State(ppu, vblank)));
        && (d.Err? ==> r == Err(d.error))
        && (d.Ok? ==> r == Ok(d.value.vblank) && State(ppu, r.value) == d.value)
    {
      var sprites := PreRenderSprites(ppu, scan_y);
      if sprites.Err? {
        return Err(sprites.error);
      }
      pre_rendered_sprites := Some(sprites.value);
      r := Ok(vblank);
    }

    /** Dots 1 .. 256 of a visible line: pixel x = scan_x - 1 is rendered
        and, unless that aborts, painted. */
    method PaintDot(ppu: Ppu, x: nat) returns (pixel: Result<Color, Panic>)
      requires Valid() && ppu.Valid() && scan_y < NES_HEIGHT && x < NES_WIDTH && scan_x == x + 1
      modifies frame
      ensures PixelAddress(x, scan_y) + 4 <= NES_FRAME_SIZE
      ensures pixel == PixelColor(ppu.Memory(), ppu.chr_rom, ppu.registers.control, ppu.registers.scroll,
                                  pre_rendered_sprites, x, scan_y)
      ensures pixel.Ok? ==> frame[..] == Paint(old(frame[..]), PixelAddress(x, scan_y), pixel.value)
      ensures pixel.Err? ==> frame[..] == old(frame[..])
    {
      PixelAddresses(x, scan_y, x, scan_y);
      pixel := RenderPixel(ppu, x, scan_y);
      if pixel.Ok? {
        PaintInPlace(PixelAddress(x, scan_y), pixel.value);
      }
    }

    /** Writes colour c to the four frame bytes at `address`. */
    method PaintInPlace(address: nat, c: Color)
      requires Valid() && address + 4 <= NES_FRAME_SIZE
      modifies frame
      ensures frame[..] == Paint(old(frame[..]), address, c)
    {
      frame[address] := c.red;
      frame[address + 1] := c.green;
      frame[address + 2] := c.blue;
      frame[address + 3] := c.alpha;
    }

    /** The end of each iteration of `render`: on to the next dot, the next
        line, and after line 261 back to line 0. */
    method NextDot(ppu: Ppu, vblank: bool)
      requires Valid()
      modifies this
      ensures Valid() && State(ppu, vblank) == Advance(old(State(ppu, vblank)))
      ensures last_cycle == old(last_cycle) && pushed == old(pushed)
    {
      scan_x := scan_x + 1;
      if scan_x >= NES_SCANLINE_WIDTH {
        scan_x := 0;
        scan_y := scan_y + 1;
        if scan_y >= NES_SCANLINE_COUNT {
          scan_y := 0;
        }
      }
    }

    /** Renderer::render: three dots per cycle since the last call, then the
        finished frame handed to push_frame (and replaced by a fresh one)
        together with a non-maskable interrupt when v-blank began and the
        control register asks for it. */
    method Render(ppu: Ppu, cycle: u64) returns (r: Result<RenderAction, Panic>)
      requires Valid() && ppu.Valid()
      modifies this, frame, ppu
      ensures Valid() && ppu.Valid() && ppu.Memory() == old(ppu.Memory())
      ensures var spec := RenderSpec(old(ppu.Memory()), ppu.chr_rom, old(ppu.registers.control),
                                     old(ppu.registers.scroll), old(State(ppu, false)), old(last_cycle), cycle);
        && (spec.Err? ==> r == Err(spec.error))
        && (spec.Ok? ==> r == Ok(spec.value.1) && RenderedAs(ppu, old(ppu.registers), old(pushed), cycle, spec.value.0, spec.value.1))
    {
      ghost var m := ppu.Memory();
      ghost var control, scroll := ppu.registers.control, ppu.registers.scroll;
      ghost var start := State(ppu, false);
      var diff := Elapsed(last_cycle, cycle);
      if diff.Err? {
        return Err(diff.error);
      }
      last_cycle := cycle;
      var has_v_blank := false;
      ghost var outcome := Dots(m, ppu.chr_rom, control, scroll, start, diff.value);
      var k := 0;
      while k < diff.value
        invariant k <= diff.value && Valid() && ppu.Valid() && ppu.Memory() == m
        invariant ppu.registers == HitSet(old(ppu.registers), ppu.registers.status.sprite_hit)
        invariant last_cycle == cycle && pushed == old(pushed)
        invariant Dots(m, ppu.chr_rom, control, scroll, State(ppu, has_v_blank), diff.value - k) == outcome
      {
        ghost var registers := ppu.registers;
        var dot := Step(ppu, has_v_blank, diff.value - k);
        HitSetAgain(old(ppu.registers), registers.status.sprite_hit, ppu.registers.status.sprite_hit);
        if dot.Err? {
          RenderAborts(m, ppu.chr_rom, control, scroll, start, old(last_cycle), cycle, diff.value, outcome, dot.error);
          return Err(dot.error);
        }
        has_v_blank := dot.value;
        k := k + 1;
      }
      ghost var t := State(ppu, has_v_blank);
      RenderSteps(m, ppu.chr_rom, control, scroll, start, old(last_cycle), cycle, diff.value, t);
      assert ppu.registers.control == control;
      var action := Conclude(ppu, has_v_blank);
      r := Ok(action);
    }

    /** The end of a render that went through: with v-blank begun and the
        interrupt enabled, the frame is pushed and a fresh one started. */
    method Conclude(ppu: Ppu, vblank: bool) returns (action: RenderAction)
      requires Valid()
      modifies this, frame
      ensures Valid()
      ensures action == if vblank && ppu.registers.control.gen_nmi then SendNMI else NoAction
      ensures scan_x == old(scan_x) && scan_y == old(scan_y) && pre_rendered_sprites == old(pre_rendered_sprites)
      ensures last_cycle == old(last_cycle)
      ensures action == SendNMI ==> pushed == old(pushed) + [old(frame[..])] && frame[..] == seq(NES_FRAME_SIZE, _ => 255)
      ensures action == NoAction ==> pushed == old(pushed) && frame[..] == old(frame[..])
    {
      if vblank && ppu.registers.control.gen_nmi {
        pushed := pushed + [frame[..]];
        forall j | 0 <= j < frame.Length {
          frame[j] := 255;
        }
        action := SendNMI;
      } else {
        action := NoAction;
      }
    }

    /** One dot of the render loop and the move to the next: the first of
        the n > 0 dots still to run, leaving n - 1. */
    method Step(ppu: Ppu, vblank: bool, ghost n: nat) returns (r: Result<bool, Panic>)
      requires Valid() && ppu.Valid() && n > 0
      modifies this, frame, ppu
      ensures Valid() && ppu.Valid() && ppu.Memory() == old(ppu.Memory())
      ensures ppu.registers == HitSet(old(ppu.registers), ppu.registers.status.sprite_hit)
      ensures last_cycle == old(last_cycle) && pushed == old(pushed)
      ensures var d := Dots(old(ppu.Memory()), ppu.chr_rom, old(ppu.registers.control), old(ppu.registers.scroll),
                            old(State(ppu, vblank)), n);
        && (r.Err? ==> d == Err(r.error))
        && (r.Ok? ==> d == Dots(ppu.Memory(), ppu.chr_rom, ppu.registers.control, ppu.registers.scroll,
                                State(ppu, r.value), n - 1))
    {
      DotsStep(ppu.Memory(), ppu.chr_rom, ppu.registers.control, ppu.registers.scroll, State(ppu, vblank), n);
      r := Dot(ppu, vblank);
      if r.Ok? {
        NextDot(ppu, r.value);
      }
    }

    /** The renderer after a render that went through to state t and
        action `action`: at t's dot with t's pre-rendered sprites and hit
        flag, the last cycle recorded, and t's frame either still being
        drawn or, with an interrupt, pushed and replaced by a fresh one. */
    ghost predicate RenderedAs(ppu: Ppu, registers: PpuRegisters, pushed0: seq<seq<u8>>, cycle: u64,
                               t: Scan, action: RenderAction)
      reads this, frame, ppu
    {
      && scan_x == t.x && scan_y == t.y && pre_rendered_sprites == t.sprites && last_cycle == cycle
      && ppu.registers == HitSet(registers, t.hit)
      && (action == SendNMI ==> pushed == pushed0 + [t.frame] && frame[..] == seq(NES_FRAME_SIZE, _ => 255))
      && (action == NoAction ==> pushed == pushed0 && frame[..] == t.frame)
    }
  }
}
