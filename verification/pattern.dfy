/** The pattern-table texture of the GPU front end: 0x1000 bytes of pattern
    memory (256 tiles of 16 bytes) spread into one 2048 x 8 strip of
    two-bit colour numbers, tile i occupying columns 8i .. 8i + 7. */
module PatternTexture {
  import opened Wrappers
  import opened Bytes
  import Software

  /** The strip is 256 tiles of 8 columns wide and 8 rows high. */
  const TEXTURE_SIZE := 16384

  /** The cell of column x, row y of tile i. */
  function TexelAddress(i: nat, x: nat, y: nat): nat
  {
    i * 8 + x + y * 2048
  }

  function TileOf(k: nat): nat { k % 2048 / 8 }
  function ColumnOf(k: nat): nat { k % 8 }
  function RowOf(k: nat): nat { k / 2048 }

  /** Cells and (tile, column, row) triples correspond one to one: each
      triple has a cell inside the strip, and that cell is no other
      triple's. */
  lemma TexelAddressCoordinates(i: nat, x: nat, y: nat)
    requires i < 256 && x < 8 && y < 8
    ensures TexelAddress(i, x, y) < TEXTURE_SIZE
    ensures TileOf(TexelAddress(i, x, y)) == i && ColumnOf(TexelAddress(i, x, y)) == x && RowOf(TexelAddress(i, x, y)) == y
  {
    var k := TexelAddress(i, x, y);
    assert k % 2048 == i * 8 + x && k / 2048 == y;
    assert (i * 8 + x) / 8 == i && (i * 8 + x) % 8 == x;
    assert k % 8 == x;
  }

  /** Every cell of the strip is the cell of its own tile, column and row. */
  lemma CellCoordinates(k: nat)
    requires k < TEXTURE_SIZE
    ensures TileOf(k) < 256 && ColumnOf(k) < 8 && RowOf(k) < 8
    ensures TexelAddress(TileOf(k), ColumnOf(k), RowOf(k)) == k
  {
    assert k % 2048 == TileOf(k) * 8 + ColumnOf(k);
  }

  /** `(v >> k) & 1`. */
  function ShiftedBit(v: u8, k: nat): (b: nat)
    requires k < 8
    ensures b == Digit(Bit(v, k))
  {
    match k
    case 0 => v % 2
    case 1 => v / 2 % 2
    case 2 => v / 4 % 2
    case 3 => v / 8 % 2
    case 4 => v / 16 % 2
    case 5 => v / 32 % 2
    case 6 => v / 64 % 2
    case _ => v / 128 % 2
  }

  /** The colour number of column x, row y of tile i: the low bit from byte
      16i + y, the high bit from byte 16i + y + 8, column 0 being the most
      significant bit. */
  function Texel(data: seq<u8>, i: nat, x: nat, y: nat): (t: nat)
    requires x < 8 && y < 8 && i * 16 + 16 <= |data|
    ensures t < 4
  {
    Digit(Bit(data[i * 16 + y], 7 - x)) + 2 * Digit(Bit(data[i * 16 + y + 8], 7 - x))
  }

  /** The strip a pattern table turns into. */
  function Texture(data: seq<u8>): (t: seq<u8>)
    requires |data| >= 0x1000
    ensures |t| == TEXTURE_SIZE
  {
    seq(TEXTURE_SIZE, k requires 0 <= k < TEXTURE_SIZE =>
      CellCoordinates(k);
      Texel(data, TileOf(k), ColumnOf(k), RowOf(k)) as u8)
  }

  /** Every entry is a colour number 0 .. 3, and column x, row y of tile i
      lands at cell 8i + x + 2048y. */
  lemma TextureCells(data: seq<u8>, i: nat, x: nat, y: nat)
    requires |data| >= 0x1000 && i < 256 && x < 8 && y < 8
    ensures TexelAddress(i, x, y) < TEXTURE_SIZE
    ensures Texture(data)[TexelAddress(i, x, y)] == Texel(data, i, x, y) < 4
  {
    TexelAddressCoordinates(i, x, y);
  }

  /** The strip holds, for each tile, column and row, the same colour
      number the software renderer decodes for that tile. */
  lemma TexelIsColorIndex(data: seq<u8>, i: nat, x: nat, y: nat)
    requires i < 256 && x < 8 && y < 8 && |data| >= 0x1000
    ensures Software.ColorIndex(data, i, x, y) == Ok(Texel(data, i, x, y))
  {
  }

  /** Cells already written: those of earlier tiles, of earlier rows of
      this tile, and of earlier columns of this row. */
  predicate Before(k: nat, i: nat, y: nat, x: nat)
  {
    TileOf(k) < i || (TileOf(k) == i && (RowOf(k) < y || (RowOf(k) == y && ColumnOf(k) < x)))
  }

  /** SharedRenderer::pattern_table_to_texture: for each tile, row and
      column, the two plane bits of that pixel become its cell. The tile's
      16 bytes are sliced out first, so pattern memory shorter than 0x1000
      bytes aborts at the first tile that does not fit. */
  method PatternTableToTexture(data: seq<u8>) returns (r: Result<array<u8>, Panic>)
    ensures r.Err? <==> |data| < 0x1000
    ensures r.Err? ==> r.error == IndexOutOfBounds
    ensures r.Ok? ==> fresh(r.value) && r.value[..] == Texture(data)
  {
    var result := new u8[TEXTURE_SIZE](_ => 0);
    var i := 0;
    while i < 0x100
      invariant i <= 0x100 && i * 16 <= |data|
      invariant forall k :: 0 <= k < TEXTURE_SIZE && TileOf(k) < i ==>
        result[k] == Texel(data, TileOf(k), ColumnOf(k), RowOf(k))
    {
      var sprite_start := i * 0x10;
      var sprite_horizontal_start := i * 0x8;
      if sprite_start + 0x10 > |data| {
        return Err(IndexOutOfBounds);
      }
      var sprite := data[sprite_start .. sprite_start + 0x10];
      var y := 0;
      while y < 8
        invariant y <= 8
        invariant forall k :: 0 <= k < TEXTURE_SIZE && Before(k, i, y, 0) ==>
          result[k] == Texel(data, TileOf(k), ColumnOf(k), RowOf(k))
      {
        var top := sprite[y];
        var bottom := sprite[y + 8];
        var x := 0;
        while x < 8
          invariant x <= 8
          invariant forall k :: 0 <= k < TEXTURE_SIZE && Before(k, i, y, x) ==>
            result[k] == Texel(data, TileOf(k), ColumnOf(k), RowOf(k))
        {
          var top_bit := ShiftedBit(top, 7 - x);
          var bottom_bit := ShiftedBit(bottom, 7 - x);
          var value := bottom_bit * 2 + top_bit;
          WriteCell(result, data, i, x, y, value);
          x := x + 1;
        }
        y := y + 1;
      }
      i := i + 1;
    }
    forall k | 0 <= k < TEXTURE_SIZE
      ensures result[k] == Texture(data)[k]
    {
      CellCoordinates(k);
    }
    r := Ok(result);
  }

  /** Writing the cell of column x, row y of tile i extends the written
      cells by exactly that one. */
  method WriteCell(result: array<u8>, data: seq<u8>, i: nat, x: nat, y: nat, value: nat)
    requires result.Length == TEXTURE_SIZE && i < 256 && x < 8 && y < 8 && i * 16 + 16 <= |data|
    requires value == Texel(data, i, x, y)
    requires forall k :: 0 <= k < TEXTURE_SIZE && Before(k, i, y, x) ==>
      result[k] == Texel(data, TileOf(k), ColumnOf(k), RowOf(k))
    modifies result
    ensures forall k :: 0 <= k < TEXTURE_SIZE && Before(k, i, y, x + 1) ==>
      result[k] == Texel(data, TileOf(k), ColumnOf(k), RowOf(k))
    ensures result[..] == old(result[..])[TexelAddress(i, x, y) := value]
  {
    TexelAddressCoordinates(i, x, y);
    var a := TexelAddress(i, x, y);
    result[a] := value;
    forall k | 0 <= k < TEXTURE_SIZE && Before(k, i, y, x + 1)
      ensures result[k] == Texel(data, TileOf(k), ColumnOf(k), RowOf(k))
    {
      if k != a {
        CellCoordinates(k);
      }
    }
  }
}
