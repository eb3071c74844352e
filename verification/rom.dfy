/** The iNES cartridge image parser: a 16-byte header (magic, PRG and CHR
    sizes, flag bytes 6 and 7, eight skipped bytes) followed by the PRG and CHR
    ROM banks. Parsers thread the remaining input as nom's combinators do. */
module Rom {
  import opened Wrappers
  import opened Bytes

  const MAGIC: seq<u8> := [0x4E, 0x45, 0x53, 0x1A]   // "NES" then 0x1A
  const HEADER_SIZE := 16
  const PRG_BANK := 16384
  const CHR_BANK := 8192

  datatype Mirroring = Horizontal | Vertical

  datatype Flags = Flags(
    mirroring: Mirroring,
    battery_ram: bool,
    has_trainer: bool,
    four_screen: bool,
    uni_system: bool,
    play_choice: bool,
    nes2_test: u8,
    mapper: u8)

  datatype Rom = Rom(flags: Flags, prg_rom: seq<u8>, chr_rom: seq<u8>)

  /** The nom error kinds the parser can fail with. */
  datatype ParseError = Tag | Eof

  /** A parser's success: the input left over and what was parsed. */
  datatype Parsed<T> = Parsed(rest: seq<u8>, output: T)

  /** nom's bit-level input: the bytes left and how many bits of the first
      one are already consumed. Bits are read most significant first. */
  datatype BitInput = BitInput(bytes: seq<u8>, offset: nat)

  /** A bit-level parser's success. */
  datatype Bits = Bits(rest: BitInput, value: u8)

  /** The next `count` bits as a number, for reads that end inside the first
      byte (every read `parse_flags` makes); fails at the end of input. */
  function TakeBits(input: BitInput, count: nat): (r: Result<Bits, ParseError>)
    requires 0 < count && input.offset + count <= 8
    ensures r.Ok? <==> |input.bytes| > 0
    ensures r.Err? ==> r.error == Eof
    ensures r.Ok? ==> r.value.value < Pow2(count)
    ensures r.Ok? ==> r.value.rest == Advance(input, count)
  {
    if |input.bytes| == 0 then Err(Eof)
    else
      var value := input.bytes[0] / Pow2(8 - input.offset - count) % Pow2(count);
      Ok(Bits(Advance(input, count), value))
  }

  /** The input after `count` more bits of the first byte are consumed. */
  function Advance(input: BitInput, count: nat): BitInput
    requires |input.bytes| > 0 && input.offset + count <= 8
  {
    if input.offset + count == 8 then BitInput(input.bytes[1..], 0)
    else BitInput(input.bytes, input.offset + count)
  }

  /** Flag bytes 6 and 7, read as bit fields from the most significant bit down. */
  function ParseFlags(bytes: seq<u8>): Result<Parsed<Flags>, ParseError>
  {
    var lower_mapper :- TakeBits(BitInput(bytes, 0), 4);
    var four_screen :- TakeBits(lower_mapper.rest, 1);
    var has_trainer :- TakeBits(four_screen.rest, 1);
    var battery_ram :- TakeBits(has_trainer.rest, 1);
    var mirroring :- TakeBits(battery_ram.rest, 1);
    var upper_mapper :- TakeBits(mirroring.rest, 4);
    var nes2_test :- TakeBits(upper_mapper.rest, 2);
    var play_choice :- TakeBits(nes2_test.rest, 1);
    var uni_system :- TakeBits(play_choice.rest, 1);
    Ok(Parsed(uni_system.rest.bytes, Flags(
      if mirroring.value == 1 then Vertical else Horizontal,
      battery_ram.value == 1,
      has_trainer.value == 1,
      four_screen.value == 1,
      uni_system.value == 1,
      play_choice.value == 1,
      nes2_test.value,
      // the two nibbles occupy disjoint bits, so `|` is a sum
      upper_mapper.value * 0x10 + lower_mapper.value)))
  }

  /** What byte 6 and byte 7 mean, bit by bit (bit 0 least significant). */
  predicate FlagsMean(f: Flags, byte6: u8, byte7: u8)
  {
    && f.mirroring == (if Bit(byte6, 0) then Vertical else Horizontal)
    && f.battery_ram == Bit(byte6, 1)
    && f.has_trainer == Bit(byte6, 2)
    && f.four_screen == Bit(byte6, 3)
    && f.uni_system == Bit(byte7, 0)
    && f.play_choice == Bit(byte7, 1)
    && f.nes2_test == byte7 / 4 % 4
    && f.mapper == byte7 / 0x10 * 0x10 + byte6 / 0x10
  }

  /** Flag parsing needs exactly two bytes and fails with Eof otherwise; each
      flag comes from its own bit of byte 6 or 7, and the mapper number has
      byte 7's high nibble on top of byte 6's. */
  lemma ParseFlagsSpec(bytes: seq<u8>)
    ensures ParseFlags(bytes).Ok? <==> |bytes| >= 2
    ensures ParseFlags(bytes).Err? ==> ParseFlags(bytes).error == Eof
    ensures ParseFlags(bytes).Ok? ==> ParseFlags(bytes).value.rest == bytes[2..]
    ensures ParseFlags(bytes).Ok? ==> FlagsMean(ParseFlags(bytes).value.output, bytes[0], bytes[1])
  {
    if |bytes| >= 2 {
      ParseFlagsFields(bytes);
    } else if |bytes| == 1 {
      assert TakeBits(BitInput(bytes, 7), 1) == Ok(Bits(BitInput(bytes[1..], 0), bytes[0] % 2));
      assert TakeBits(BitInput(bytes[1..], 0), 4).Err?;
    }
  }

  /** The nine bit reads of two flag bytes, each as a division of its byte. */
  lemma ParseFlagsFields(bytes: seq<u8>)
    requires |bytes| >= 2
    ensures ParseFlags(bytes) == Ok(Parsed(bytes[2..], Flags(
      if bytes[0] % 2 == 1 then Vertical else Horizontal,
      bytes[0] / 2 % 2 == 1, bytes[0] / 4 % 2 == 1, bytes[0] / 8 % 2 == 1,
      bytes[1] % 2 == 1, bytes[1] / 2 % 2 == 1, bytes[1] / 4 % 4,
      bytes[1] / 16 * 0x10 + bytes[0] / 16)))
  {
    FlagByteReads(bytes);
    FlagByteReads(bytes[1..]);
    assert bytes[1..][1..] == bytes[2..];
  }

  /** The reads of one flag byte, both as `parse_flags` splits byte 6 and as
      it splits byte 7. */
  lemma FlagByteReads(bytes: seq<u8>)
    requires |bytes| >= 1
    ensures TakeBits(BitInput(bytes, 0), 4) == Ok(Bits(BitInput(bytes, 4), bytes[0] / 16))
    ensures TakeBits(BitInput(bytes, 4), 1) == Ok(Bits(BitInput(bytes, 5), bytes[0] / 8 % 2))
    ensures TakeBits(BitInput(bytes, 5), 1) == Ok(Bits(BitInput(bytes, 6), bytes[0] / 4 % 2))
    ensures TakeBits(BitInput(bytes, 4), 2) == Ok(Bits(BitInput(bytes, 6), bytes[0] / 4 % 4))
    ensures TakeBits(BitInput(bytes, 6), 1) == Ok(Bits(BitInput(bytes, 7), bytes[0] / 2 % 2))
    ensures TakeBits(BitInput(bytes, 7), 1) == Ok(Bits(BitInput(bytes[1..], 0), bytes[0] % 2))
  {
  }

  /** nom's `tag`: the input must start with `t`. */
  function MatchTag(bytes: seq<u8>, t: seq<u8>): (r: Result<seq<u8>, ParseError>)
    ensures r.Ok? <==> |bytes| >= |t| && bytes[..|t|] == t
    ensures r.Ok? ==> r.value == bytes[|t|..]
    ensures r.Err? ==> r.error == Tag
  {
    if |bytes| >= |t| && bytes[..|t|] == t then Ok(bytes[|t|..]) else Err(Tag)
  }

  /** nom's `u8`: one byte. */
  function TakeU8(bytes: seq<u8>): (r: Result<Parsed<u8>, ParseError>)
    ensures r.Ok? <==> |bytes| >= 1
    ensures r.Ok? ==> r.value == Parsed(bytes[1..], bytes[0])
    ensures r.Err? ==> r.error == Eof
  {
    if |bytes| == 0 then Err(Eof) else Ok(Parsed(bytes[1..], bytes[0]))
  }

  /** nom's `take`: exactly `count` bytes. */
  function TakeBytes(bytes: seq<u8>, count: nat): (r: Result<Parsed<seq<u8>>, ParseError>)
    ensures r.Ok? <==> |bytes| >= count
    ensures r.Ok? ==> r.value == Parsed(bytes[count..], bytes[..count])
    ensures r.Err? ==> r.error == Eof
  {
    if |bytes| < count then Err(Eof) else Ok(Parsed(bytes[count..], bytes[..count]))
  }

  /** Whole image: header, then PRG ROM, then CHR ROM; the rest is returned.
      A trainer flag does not move the PRG start. */
  function ParseRom(bytes: seq<u8>): (r: Result<Parsed<Rom>, ParseError>)
  {
    var afterTag :- MatchTag(bytes, MAGIC);
    var prg_size :- TakeU8(afterTag);
    var chr_size :- TakeU8(prg_size.rest);
    var flags :- ParseFlags(chr_size.rest);
    var skipped :- TakeBytes(flags.rest, 8);
    var prg_rom :- TakeBytes(skipped.rest, PRG_BANK * prg_size.output);
    var chr_rom :- TakeBytes(prg_rom.rest, CHR_BANK * chr_size.output);
    Ok(Parsed(chr_rom.rest, Rom(flags.output, prg_rom.output, chr_rom.output)))
  }

  /** The image size byte 4 and byte 5 announce. */
  function ImageSize(bytes: seq<u8>): nat
    requires |bytes| >= 6
  {
    HEADER_SIZE + PRG_BANK * bytes[4] + CHR_BANK * bytes[5]
  }

  /** Parsing succeeds exactly when the magic matches and the input holds the
      header and both announced banks; the banks are the bytes right after the
      header, their sizes are 16384 * byte 4 and 8192 * byte 5, and the rest
      is left over. A bad or missing magic is a Tag error, anything short an
      Eof error. */
  lemma ParseRomSpec(bytes: seq<u8>)
    ensures var r := ParseRom(bytes);
      && (r.Ok? <==> |bytes| >= 6 && bytes[..4] == MAGIC && |bytes| >= ImageSize(bytes))
      && (r.Err? ==> (r.error == Tag <==> |bytes| < 4 || bytes[..4] != MAGIC))
      && (r.Ok? ==>
            var prg := PRG_BANK * bytes[4];
            var chr := CHR_BANK * bytes[5];
            && r.value.output.prg_rom == bytes[16..16 + prg]
            && r.value.output.chr_rom == bytes[16 + prg..16 + prg + chr]
            && r.value.rest == bytes[16 + prg + chr..]
            && FlagsMean(r.value.output.flags, bytes[6], bytes[7]))
  {
    if |bytes| >= 16 && bytes[..4] == MAGIC {
      ParseFlagsSpec(bytes[6..]);
      assert bytes[4..][1..] == bytes[5..];
      assert bytes[5..][1..] == bytes[6..];
      assert bytes[6..][2..] == bytes[8..];
      assert bytes[8..][8..] == bytes[16..];
    }
  }

  /** The two flag bytes that decode to `f`: the inverse of ParseFlags. */
  function EncodeFlags(f: Flags): (bytes: seq<u8>)
    requires f.nes2_test < 4
    ensures |bytes| == 2
  {
    [ f.mapper % 0x10 * 0x10 + (if f.four_screen then 8 else 0) + (if f.has_trainer then 4 else 0)
        + (if f.battery_ram then 2 else 0) + (if f.mirroring == Vertical then 1 else 0),
      f.mapper / 0x10 * 0x10 + f.nes2_test * 4 + (if f.play_choice then 2 else 0)
        + (if f.uni_system then 1 else 0) ]
  }

  /** Encoded flag bytes mean exactly the flags they were made from. */
  lemma EncodeFlagsMean(f: Flags)
    requires f.nes2_test < 4
    ensures FlagsMean(f, EncodeFlags(f)[0], EncodeFlags(f)[1])
  {
    EncodeByte6(f);
    EncodeByte7(f);
  }

  lemma EncodeByte6(f: Flags)
    requires f.nes2_test < 4
    ensures var b6 := EncodeFlags(f)[0];
      && f.mirroring == (if Bit(b6, 0) then Vertical else Horizontal)
      && f.battery_ram == Bit(b6, 1) && f.has_trainer == Bit(b6, 2) && f.four_screen == Bit(b6, 3)
      && b6 / 0x10 == f.mapper % 0x10
  {
    var b6 := EncodeFlags(f)[0];
    var l := f.mapper % 0x10;
    var m0 := if f.mirroring == Vertical then 1 else 0;
    var m1 := if f.battery_ram then 1 else 0;
    var m2 := if f.has_trainer then 1 else 0;
    var m3 := if f.four_screen then 1 else 0;
    NibbleBits(l);
    assert b6 == m0 + 2 * m1 + 4 * m2 + 8 * m3 + 16 * (l % 2) + 32 * (l / 2 % 2) + 64 * (l / 4 % 2) + 128 * (l / 8);
    Compose(b6, m0, m1, m2, m3, l % 2, l / 2 % 2, l / 4 % 2, l / 8);
  }

  lemma EncodeByte7(f: Flags)
    requires f.nes2_test < 4
    ensures var b7 := EncodeFlags(f)[1];
      && f.uni_system == Bit(b7, 0) && f.play_choice == Bit(b7, 1)
      && f.nes2_test == b7 / 4 % 4 && b7 / 0x10 == f.mapper / 0x10
  {
    var b7 := EncodeFlags(f)[1];
    var u := f.mapper / 0x10;
    var m0 := if f.uni_system then 1 else 0;
    var m1 := if f.play_choice then 1 else 0;
    NibbleBits(u);
    assert b7 == m0 + 2 * m1 + 4 * (f.nes2_test % 2) + 8 * (f.nes2_test / 2)
                 + 16 * (u % 2) + 32 * (u / 2 % 2) + 64 * (u / 4 % 2) + 128 * (u / 8);
    Compose(b7, m0, m1, f.nes2_test % 2, f.nes2_test / 2, u % 2, u / 2 % 2, u / 4 % 2, u / 8);
    assert b7 == (m0 + 2 * m1) + 4 * (f.nes2_test + 4 * u);
    assert b7 / 4 == f.nes2_test + 4 * u;
  }

  /** A nibble is the sum of its four bits' values. */
  lemma NibbleBits(n: int)
    requires 0 <= n < 0x10
    ensures n == n % 2 + 2 * (n / 2 % 2) + 4 * (n / 4 % 2) + 8 * (n / 8)
  {
    assert n / 4 == n / 2 / 2;
    assert n / 8 == n / 4 / 2;
  }

  /** Two flag records that mean the same bytes are equal. */
  lemma FlagsMeanUnique(f: Flags, g: Flags, byte6: u8, byte7: u8)
    requires FlagsMean(f, byte6, byte7) && FlagsMean(g, byte6, byte7)
    ensures f == g
  {
  }

  /** A cartridge whose bank sizes a header can announce. */
  predicate Encodable(rom: Rom)
  {
    && |rom.prg_rom| % PRG_BANK == 0 && |rom.prg_rom| / PRG_BANK < 0x100
    && |rom.chr_rom| % CHR_BANK == 0 && |rom.chr_rom| / CHR_BANK < 0x100
    && rom.flags.nes2_test < 4
  }

  /** An iNES image of `rom`: header with zeroed bytes 8-15, then the banks. */
  function EncodeRom(rom: Rom): seq<u8>
    requires Encodable(rom)
  {
    MAGIC + [|rom.prg_rom| / PRG_BANK, |rom.chr_rom| / CHR_BANK] + EncodeFlags(rom.flags)
    + [0, 0, 0, 0, 0, 0, 0, 0] + rom.prg_rom + rom.chr_rom
  }

  /** Parsing an encoded image gives back the cartridge and whatever followed it. */
  lemma ParseEncodeRom(rom: Rom, rest: seq<u8>)
    requires Encodable(rom)
    ensures ParseRom(EncodeRom(rom) + rest) == Ok(Parsed(rest, rom))
  {
    var bytes := EncodeRom(rom) + rest;
    var prg, chr := |rom.prg_rom|, |rom.chr_rom|;
    assert bytes[..4] == MAGIC;
    assert bytes[4] == prg / PRG_BANK && bytes[5] == chr / CHR_BANK;
    assert bytes[6] == EncodeFlags(rom.flags)[0] && bytes[7] == EncodeFlags(rom.flags)[1];
    assert bytes[16..16 + prg] == rom.prg_rom;
    assert bytes[16 + prg..16 + prg + chr] == rom.chr_rom;
    assert bytes[16 + prg + chr..] == rest;
    ParseRomSpec(bytes);
    EncodeFlagsMean(rom.flags);
    FlagsMeanUnique(ParseRom(bytes).value.output.flags, rom.flags, bytes[6], bytes[7]);
  }
}
