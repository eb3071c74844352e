/** The bookkeeping of the GPU renderer: the dot position it advances three
    dots per CPU cycle, the per-scanline scroll offsets it records for the
    background pass, the sprite-hit and v-blank tests it makes on the dots
    passed, and the palette table and offset uniform it uploads. Drawing
    itself happens on the GPU and is only counted here. */
module Hardware {
  import opened Wrappers
  import opened Bytes
  import opened Ppu
  import Software

  type u64 = x: int | 0 <= x < 0x1_0000_0000_0000_0000

  const SCANLINE_WIDTH := 341
  const SCANLINE_COUNT := 262
  /** One (offset, base table) pair per visible scanline. */
  const OFFSET_DETAILS_SIZE := 480

  /** What the scroll/address register reports through its accessors: the
      x and y scroll and the two base-name-table bits. */
  datatype RenderView = RenderView(x_scroll: u8, y_scroll: u8, name_table_x: bool, name_table_y: bool)

  // ---------------------------------------------------------------------
  // The background pass's tables

  /** The palette table uploaded for the background pass: slot 4q + k holds
      entry k - 1 of background palette q, and every slot 4q holds 0. */
  function PaletteIndexes(p: PaletteMemory): (indexes: seq<nat>)
    requires PaletteShape(p)
    ensures |indexes| == 16
    ensures forall q, k {:trigger indexes[4 * q + k]} :: 0 <= q < 4 && 0 <= k < 4 ==>
      indexes[4 * q + k] == if k == 0 then 0 else p.background[q][k - 1]
  {
    var indexes := seq(16, i requires 0 <= i < 16 =>
      var index := i % 4;
      if index == 0 then 0 else p.background[i / 4][index - 1]);
    forall q, k {:trigger indexes[4 * q + k]} | 0 <= q < 4 && 0 <= k < 4
      ensures indexes[4 * q + k] == if k == 0 then 0 else p.background[q][k - 1]
    {
      assert (4 * q + k) / 4 == q && (4 * q + k) % 4 == k;
    }
    indexes
  }

  /** Every uploaded palette slot names one of the 256 byte values. */
  lemma PaletteIndexesBytes(p: PaletteMemory)
    requires PaletteShape(p)
    ensures forall i :: 0 <= i < 16 ==> PaletteIndexes(p)[i] < 0x100
  {
    forall i | 0 <= i < 16
      ensures PaletteIndexes(p)[i] < 0x100
    {
      assert PaletteIndexes(p)[4 * (i / 4) + i % 4] == PaletteIndexes(p)[i];
    }
  }

  /** The offset uniform: x scroll, y scroll, then the two base-table bits
      as 0 or 1. */
  function OffsetUniform(view: RenderView): (uniform: seq<nat>)
    ensures |uniform| == 4 && uniform[0] < 0x100 && uniform[1] < 0x100 && uniform[2] < 2 && uniform[3] < 2
    ensures (uniform[2] == 1 <==> view.name_table_x) && (uniform[3] == 1 <==> view.name_table_y)
  {
    [view.x_scroll, view.y_scroll, Digit(view.name_table_x), Digit(view.name_table_y)]
  }

  /** write_offset: a visible scanline's pair becomes (offset, base as 0 or
      1); a scanline past the visible ones changes nothing. */
  function WriteOffsetSpec(details: seq<u8>, scanline: nat, offset: u8, base: bool): (r: seq<u8>)
    requires |details| == OFFSET_DETAILS_SIZE
    ensures |r| == OFFSET_DETAILS_SIZE
    ensures forall j :: 0 <= j < OFFSET_DETAILS_SIZE ==>
      r[j] == if j / 2 == scanline then (if j % 2 == 0 then offset else Digit(base)) else details[j]
  {
    if scanline < 240 then details[scanline * 2 := offset][scanline * 2 + 1 := Digit(base)] else details
  }

  class BackgroundRenderer {
    const offset_details: array<u8>

    /** BackgroundRenderer::new: every offset pair starts as zeros. */
    constructor ()
      ensures Valid() && fresh(offset_details)
      ensures forall j :: 0 <= j < OFFSET_DETAILS_SIZE ==> offset_details[j] == 0
    {
      offset_details := new u8[OFFSET_DETAILS_SIZE](_ => 0);
    }

    ghost predicate Valid()
    {
      offset_details.Length == OFFSET_DETAILS_SIZE
    }

    method WriteOffset(scanline: nat, offset: u8, base: bool)
      requires Valid()
      modifies offset_details
      ensures offset_details[..] == WriteOffsetSpec(old(offset_details[..]), scanline, offset, base)
    {
      if scanline < 240 {
        offset_details[scanline * 2] := offset;
        offset_details[scanline * 2 + 1] := if base then 1 else 0;
      }
    }
  }

  // ---------------------------------------------------------------------
  // Scanline crossings

  /** The scanline reached after crossing k line boundaries from line y. */
  function LineAfter(y: nat, k: nat): nat
  {
    (y + k) % SCANLINE_COUNT
  }

  /** One more crossing moves one line on, wrapping after the last. */
  lemma NextLine(y: nat, k: nat)
    ensures LineAfter(y, k) + 1 <= SCANLINE_COUNT
    ensures (LineAfter(y, k) + 1) % SCANLINE_COUNT == LineAfter(y, k + 1)
  {
  }

  lemma Reduced(s: nat, t: nat)
    requires s < SCANLINE_COUNT && s % SCANLINE_COUNT == t
    ensures s == t
  {
  }

  /** The offset table after the n crossings from line y, each recording
      the same offset and base at the line it reaches. */
  function OffsetsAfter(details: seq<u8>, y: nat, n: nat, offset: u8, base: bool): (r: seq<u8>)
    requires |details| == OFFSET_DETAILS_SIZE
    ensures |r| == OFFSET_DETAILS_SIZE
  {
    if n == 0 then details
    else WriteOffsetSpec(OffsetsAfter(details, y, n - 1, offset, base), LineAfter(y, n), offset, base)
  }

  /** How many crossings from line y it takes to reach line s: 1 .. 262. */
  function Ahead(y: nat, s: nat): (k: nat)
    requires y < SCANLINE_COUNT && s < SCANLINE_COUNT
    ensures 1 <= k <= SCANLINE_COUNT && LineAfter(y, k) == s
  {
    if s > y then s - y else s + SCANLINE_COUNT - y
  }

  /** Line s is reached by the k-th crossing only when k is Ahead(y, s)
      plus whole frames. */
  lemma AheadFirst(y: nat, s: nat, k: nat)
    requires y < SCANLINE_COUNT && s < SCANLINE_COUNT && 1 <= k && LineAfter(y, k) == s
    ensures Ahead(y, s) <= k
  {
  }

  /** After n crossings from line y, the pair of every visible line reached
      holds (offset, base) and every other pair is unchanged. */
  lemma {:induction false} OffsetsAfterEntries(details: seq<u8>, y: nat, n: nat, offset: u8, base: bool, j: nat)
    requires |details| == OFFSET_DETAILS_SIZE && y < SCANLINE_COUNT && j < OFFSET_DETAILS_SIZE
    ensures OffsetsAfter(details, y, n, offset, base)[j] ==
      if Ahead(y, j / 2) <= n then (if j % 2 == 0 then offset else Digit(base)) else details[j]
  {
    if n > 0 {
      OffsetsAfterEntries(details, y, n - 1, offset, base, j);
      if j / 2 == LineAfter(y, n) {
        AheadFirst(y, j / 2, n);
      }
    }
  }

  // ---------------------------------------------------------------------
  // The passed! test

  /** passed!(line, col): the walk went from strictly before (line, col) to
      at or after it, comparing (y, x) positions line first. */
  predicate Passed(start_y: nat, start_x: nat, end_y: nat, end_x: nat, line: nat, col: nat)
  {
    && (end_y > line || (end_y == line && end_x >= col))
    && (start_y < line || (start_y == line && start_x < col))
  }

  /** The position of dot (y, x) within its frame. */
  function Position(y: nat, x: nat): nat
  {
    y * SCANLINE_WIDTH + x
  }

  /** For dots on a line, passed! is the test start < dot <= end on frame
      positions. */
  lemma PassedPositions(start_y: nat, start_x: nat, end_y: nat, end_x: nat, line: nat, col: nat)
    requires start_x < SCANLINE_WIDTH && end_x < SCANLINE_WIDTH && col < SCANLINE_WIDTH
    ensures Passed(start_y, start_x, end_y, end_x, line, col) <==>
      Position(start_y, start_x) < Position(line, col) <= Position(end_y, end_x)
  {
    PositionOrder(start_y, start_x, line, col);
    PositionOrder(line, col, end_y, end_x);
  }

  /** Frame positions are ordered as (y, x) pairs, line first. */
  lemma PositionOrder(y: nat, x: nat, y': nat, x': nat)
    requires x < SCANLINE_WIDTH && x' < SCANLINE_WIDTH
    ensures Position(y, x) < Position(y', x') <==> y < y' || (y == y' && x < x')
  {
    if y < y' {
      assert (y + 1) * SCANLINE_WIDTH <= y' * SCANLINE_WIDTH;
    } else if y > y' {
      assert (y' + 1) * SCANLINE_WIDTH <= y * SCANLINE_WIDTH;
    }
  }

  /** When the walk wraps into the next frame and ends before where it
      started, passed! holds for no dot at all: the dots after the wrap are
      compared as if they were still in the old frame. */
  lemma PassedNothingAfterWrap(start_y: nat, start_x: nat, end_y: nat, end_x: nat, line: nat, col: nat)
    requires start_x < SCANLINE_WIDTH && end_x < SCANLINE_WIDTH && col < SCANLINE_WIDTH
    requires Position(end_y, end_x) <= Position(start_y, start_x)
    ensures !Passed(start_y, start_x, end_y, end_x, line, col)
  {
    PassedPositions(start_y, start_x, end_y, end_x, line, col);
  }

  /** The sprite-hit flag after a render: cleared when dot (261, 1) was
      passed, else raised when the dot five lines under sprite zero's y at
      its x was passed, else as it was. */
  function HitAfter(hit: bool, zero: Sprite, start_y: nat, start_x: nat, end_y: nat, end_x: nat): bool
  {
    if Passed(start_y, start_x, end_y, end_x, 261, 1) then false
    else if Passed(start_y, start_x, end_y, end_x, zero.y + 5, zero.x) then true
    else hit
  }

  // ---------------------------------------------------------------------
  // The renderer

  class HardwareRenderer {
    var last_cycle: u64
    var scan_x: nat
    var scan_y: nat
    const background: BackgroundRenderer
    /** How many times the GPU was asked to draw the current picture. */
    var contents_rendered: nat

    ghost predicate Valid()
      reads this, background
    {
      background.Valid() && scan_x < SCANLINE_WIDTH && scan_y < SCANLINE_COUNT
    }

    /** HardwareRenderer::new: no cycles counted, the scan at dot (0, 0). */
    constructor ()
      ensures Valid() && fresh(background) && fresh(background.offset_details)
      ensures last_cycle == 0 && scan_x == 0 && scan_y == 0 && contents_rendered == 0
      ensures forall j :: 0 <= j < OFFSET_DETAILS_SIZE ==> background.offset_details[j] == 0
    {
      last_cycle := 0;
      scan_x := 0;
      scan_y := 0;
      contents_rendered := 0;
      background := new BackgroundRenderer();
    }

    /** sync: the cycle count the next render measures from. */
    method Sync(cycles: u64)
      modifies this
      ensures last_cycle == cycles
      ensures scan_x == old(scan_x) && scan_y == old(scan_y) && contents_rendered == old(contents_rendered)
    {
      last_cycle := cycles;
    }

    /** The dot walk of render: move diff dots on, wrapping at the end of
        each line and of the frame, and record the scroll offset at every
        line reached. */
    method Walk(view: RenderView, diff: nat)
      requires Valid() && scan_x + diff < 0x1_0000_0000_0000_0000
      modifies this, background.offset_details
      ensures Valid() && last_cycle == old(last_cycle) && contents_rendered == old(contents_rendered)
      ensures var total := old(scan_x) + diff;
        && scan_x == total % SCANLINE_WIDTH && scan_y == (old(scan_y) + total / SCANLINE_WIDTH) % SCANLINE_COUNT
        && background.offset_details[..] ==
             OffsetsAfter(old(background.offset_details[..]), old(scan_y), total / SCANLINE_WIDTH, view.x_scroll, view.name_table_x)
    {
      var start_x := scan_x;
      var start_y := scan_y;
      scan_x := scan_x + diff;
      ghost var details := background.offset_details[..];
      ghost var crossed := 0;
      while scan_x >= SCANLINE_WIDTH
        invariant background.Valid() && scan_y < SCANLINE_COUNT
        invariant last_cycle == old(last_cycle) && contents_rendered == old(contents_rendered)
        invariant scan_x + crossed * SCANLINE_WIDTH == start_x + diff
        invariant scan_y == LineAfter(start_y, crossed)
        invariant background.offset_details[..] == OffsetsAfter(details, start_y, crossed, view.x_scroll, view.name_table_x)
        decreases scan_x
      {
        NextLine(start_y, crossed);
        scan_x := scan_x - SCANLINE_WIDTH;
        scan_y := scan_y + 1;
        crossed := crossed + 1;
        while scan_y >= SCANLINE_COUNT
          modifies this
          invariant scan_y <= SCANLINE_COUNT && scan_y % SCANLINE_COUNT == LineAfter(start_y, crossed)
          invariant scan_x + crossed * SCANLINE_WIDTH == start_x + diff
          invariant last_cycle == old(last_cycle) && contents_rendered == old(contents_rendered)
        {
          scan_y := scan_y - SCANLINE_COUNT;
        }
        Reduced(scan_y, LineAfter(start_y, crossed));
        background.WriteOffset(scan_y, view.x_scroll, view.name_table_x);
      }
      Crossings(start_x, diff, scan_x, crossed);
    }

    /** Renderer::render: advance three dots per cycle since the last call,
        recording the scroll offset at each line crossed; raise or clear
        the sprite-hit flag on the dots passed; and with v-blank passed and
        the interrupt enabled, draw the picture and ask for an NMI. The
        cycle going backwards, the dot count leaving 64 bits, or the dot
        position leaving 64 bits aborts. */
    method Render(ppu: Ppu, view: RenderView, cycle: u64) returns (r: Result<Software.RenderAction, Panic>)
      requires Valid() && ppu.Valid()
      modifies this, background.offset_details, ppu
      ensures r.Err? <==> (Software.Elapsed(old(last_cycle), cycle).Err? ||
        old(scan_x) + Software.Elapsed(old(last_cycle), cycle).value >= 0x1_0000_0000_0000_0000)
      ensures r.Ok? ==> var total := old(scan_x) + Software.Elapsed(old(last_cycle), cycle).value;
        && Valid() && last_cycle == cycle
        && scan_x == total % SCANLINE_WIDTH && scan_y == (old(scan_y) + total / SCANLINE_WIDTH) % SCANLINE_COUNT
        && background.offset_details[..] ==
             OffsetsAfter(old(background.offset_details[..]), old(scan_y), total / SCANLINE_WIDTH, view.x_scroll, view.name_table_x)
        && ppu.registers == old(ppu.registers).(status := old(ppu.registers.status).(sprite_hit :=
             HitAfter(old(ppu.registers.status.sprite_hit), ppu.oam[0], old(scan_y), old(scan_x), scan_y, scan_x)))
        && ppu.Valid() && ppu.palette == old(ppu.palette)
        && (r.value == Software.SendNMI <==> Passed(old(scan_y), old(scan_x), scan_y, scan_x, 241, 1) && ppu.registers.control.gen_nmi)
        && contents_rendered == old(contents_rendered) + (if r.value == Software.SendNMI then 1 else 0)
    {
      var elapsed := Software.Elapsed(last_cycle, cycle);
      if elapsed.Err? {
        return Err(elapsed.error);
      }
      var diff := elapsed.value;
      last_cycle := cycle;
      var has_v_blank := false;
      var start_x := scan_x;
      var start_y := scan_y;
      if scan_x + diff >= 0x1_0000_0000_0000_0000 {
        return Err(ArithmeticOverflow);
      }
      Walk(view, diff);
      if Passed(start_y, start_x, scan_y, scan_x, 241, 1) {
        has_v_blank := true;
      }
      var zero := ppu.oam[0];
      if Passed(start_y, start_x, scan_y, scan_x, zero.y + 5, zero.x) {
        ppu.registers := ppu.registers.(status := ppu.registers.status.(sprite_hit := true));
      }
      if Passed(start_y, start_x, scan_y, scan_x, 261, 1) {
        ppu.registers := ppu.registers.(status := ppu.registers.status.(sprite_hit := false));
      }
      if has_v_blank && ppu.registers.control.gen_nmi {
        contents_rendered := contents_rendered + 1;
        r := Ok(Software.SendNMI);
      } else {
        r := Ok(Software.NoAction);
      }
    }
  }

  /** The dot column after the walk, and the number of lines crossed, in
      terms of the dots walked. */
  lemma Crossings(start_x: nat, diff: nat, end_x: nat, crossed: nat)
    requires end_x < SCANLINE_WIDTH && end_x + crossed * SCANLINE_WIDTH == start_x + diff
    ensures end_x == (start_x + diff) % SCANLINE_WIDTH && crossed == (start_x + diff) / SCANLINE_WIDTH
  {
  }
}
