# emulateme in Dafny

A model of the core of emulateme, an NES emulator: the 6502 processor
(opcode decoding, disassembly, the interpreter of every instruction), the
CPU address map with its RAM mirrors, save RAM, cartridge ROM, controllers
and OAM DMA, the picture processor's register file and video memory, the
iNES cartridge parser, the serial joypad, save states, the software picture
generator with its dot and scanline state machine, and the small
integer-exact pieces of the GPU front ends (the pattern-table texture, the
hardware renderer's scan stepper and the background pass's tables) and of
the emulator server (the length-prefixed framing and the joypad and memory
requests).

Each source file is one Dafny module, in its own file:

| file | module | source |
|---|---|---|
| wrappers.dfy | Wrappers | `Option`, `Result` and the ways a Rust program panics |
| bytes.dfy | Bytes | `u8`/`u16`, single bits, `&`, `\|`, `^`, `!` on bytes, little-endian words |
| rom.dfy | Rom | src/rom.rs |
| controller.dfy | Controller | src/controller.rs |
| cpu.dfy | Processor | src/cpu.rs |
| ppu.dfy | Ppu | src/ppu.rs |
| memory.dfy | Memory | src/memory.rs |
| decoder.dfy | Decoder | src/decoder.rs |
| disassembler.dfy | Disassembler | src/disassembler.rs |
| interpreter.dfy | Interpreter | src/interpreter.rs |
| software.dfy | Software | src/software.rs |
| state.dfy | SaveState | src/state.rs |
| delimiter.dfy | Framing | emserver/src/delimiter.rs |
| server.dfy | Server | emserver/src/server.rs |
| pattern.dfy | PatternTexture | emgui/src/hardware/shared.rs |
| hwrenderer.dfy | Hardware | emhardware/src/renderer.rs, emhardware/src/background.rs |

Rust's fixed-width integers are modelled as bounded integers. Where the
source wraps (`wrapping_add`, `u8` shifts) the model reduces explicitly;
where the source uses plain `+`, `-`, `%` or an index that a debug build
checks, the model returns an explicit `Panic` outcome (`ArithmeticOverflow`,
`IndexOutOfBounds`, `DivisionByZero`) instead of silently wrapping, so that
every contract also says when the program would abort. Structures the
source updates in place (the video chip, the CPU bus, the controllers, the
renderers, the framing buffer) are classes whose methods are proved against
pure specification functions; the pure parts (decoding, disassembly,
conversions, parsing) are functions with lemmas.

## Model

| member | source | states |
|---|---|---|
| Rom.ParseFlagsSpec | src/rom.rs:31-59 | flag parsing fails with Eof on fewer than two bytes, otherwise consumes exactly two; mirroring is bit 0 of byte 6 (Vertical when set), battery bit 1, trainer bit 2, four-screen bit 3; uni_system is bit 0 of byte 7, play_choice bit 1, nes2_test bits 3-2; the mapper is byte 7's high nibble over byte 6's |
| Rom.ParseFlagsFields | src/rom.rs:31-59 | the nine bit-field reads, each as a division of its byte, and the two bytes consumed |
| Rom.ParseRomSpec | src/rom.rs:61-83 | parsing succeeds exactly when the magic `N E S 0x1A` matches and the input holds 16 header bytes plus 16384 x byte 4 of PRG and 8192 x byte 5 of CHR; PRG starts at byte 16 whatever the trainer flag says, CHR follows it, the rest is returned; a bad magic is a Tag error, a short input Eof |
| Rom.EncodeFlagsMean | src/rom.rs:31-59 | the two flag bytes built from a flag record decode to that record (the inverse of parse_flags) |
| Rom.FlagsMeanUnique | src/rom.rs:31-59 | two flag records read from the same two bytes are equal |
| Rom.ParseEncodeRom | src/rom.rs:61-83 | parsing an image built from a cartridge, followed by any bytes, gives back the cartridge and those bytes |
| Controller.SerialBit | src/controller.rs:48-56 | the value reported is 0 or 1, and 1 exactly when bit `clock % 8` of the flags is set |
| Controller.MaskIsBit | src/controller.rs:51 | `flags & (1 << c)` is non-zero exactly when bit c is set |
| Controller.ButtonAtIsBitValue | src/controller.rs:18-29 | serial position k reports the flag 2^k: A, B, SELECT, START, UP, DOWN, LEFT, RIGHT |
| Controller.NoControllerUnpressed | src/controller.rs:10-12 | the unconnected port reads like a controller with nothing pressed, at any clock |
| Controller.GenericController.constructor | src/controller.rs:31-35 | a default controller has clock 0 and nothing pressed |
| Controller.GenericController.Press | src/controller.rs:38-40 | every flag is replaced and the clock is kept |
| Controller.GenericController.Set | src/controller.rs:42-44 | the bits of the named flag become the value, every other bit and the clock are kept |
| Controller.GenericController.Read | src/controller.rs:48-56 | the current serial bit is returned, the clock advances by exactly one and the flags are kept |
| Controller.SerialPeriod | src/controller.rs:49 | the serial output repeats every eight reads |
| Controller.EightReadsInOrder | src/controller.rs:18-29 | eight reads from a multiple of 8 report A, B, SELECT, START, UP, DOWN, LEFT, RIGHT in that order |
| Controller.EightReadsRecoverFlags | src/controller.rs:48-56 | the eight reported bits put back together are exactly the pressed flags |
| Processor.FlagMasks | src/cpu.rs:9-20 | C=0x01, Z=0x02, I=0x04, D=0x08, B=0x10, ENABLED=0x20, V=0x40, N=0x80 |
| Processor.SetFlag | src/cpu.rs:7-20 | setting a status flag changes that bit to the value and keeps every other bit |
| Processor.NewRegisters | src/cpu.rs:45-54 | a = x = y = 0, sp = 0xFD, and p has exactly ENABLED and INTERRUPT (0x24) |
| Processor.VectorOr | src/cpu.rs:62-64 | a read that fails gives the default 0x8000, a read that succeeds its word, and only a read that aborts aborts |
| Processor.VectorsFromRom | src/cpu.rs:58-66 | with a program ROM the three vectors are its little-endian words at 0xFFFA, 0xFFFC and 0xFFFE, and the reads add six cycles and change nothing else |
| Processor.VectorsWithoutRom | src/cpu.rs:58-66 | with an empty program ROM the first vector read aborts with a remainder by zero |
| Ppu.ControlBitsOfFromBits | src/ppu.rs:142-153 | decoding the control byte loses nothing: re-encoding it gives the byte back |
| Ppu.ControlFromBitsOfBits | src/ppu.rs:142-153 | bit k of the control byte is the k-th field: decoding the encoding of a register gives it back |
| Ppu.MaskBitsOfFromBits | src/ppu.rs:157-168 | decoding the mask byte loses nothing |
| Ppu.MaskFromBitsOfBits | src/ppu.rs:157-168 | bit k of the mask byte is the k-th field |
| Ppu.StatusBits | src/ppu.rs:172-177 | sprite-0 hit is bit 6, v-blank bit 7, and every other bit is zero |
| Ppu.SpriteReadWrite | src/ppu.rs:111-129 | writing byte k of a sprite is seen by a read of byte k and by no read of another byte (0 y, 1 tile number, 2 attributes, 3 x) |
| Ppu.SpriteFromBytes | src/ppu.rs:387-396 | the sprite built from bytes 4i..4i+3 reads back those four bytes in order |
| Ppu.OamFromBytes | src/ppu.rs:387-396 | a 256-byte image makes 64 sprites, byte 4s+k being field k of sprite s |
| Ppu.CellOf | src/ppu.rs:222-250 | the storage cell a palette offset names: 0x00 and 0x10 share the solid background, other offsets name colour (o-1)%4 of palette (o-1)/4 (or the same from 0x11), and colour 3 exists nowhere |
| Ppu.PaletteGetFlagged | src/ppu.rs:198-220 | a palette read succeeds exactly at offsets 0x00 and 0x10 (mod 0x20), returning the solid background; every other offset underflows and aborts |
| Ppu.PaletteSet | src/ppu.rs:222-250 | a palette write keeps the palette's shape (four palettes of three colours) |
| Ppu.PaletteSetCells | src/ppu.rs:222-250 | after a write, the cell the address names holds the value and every other cell is unchanged; a write to colour 3 changes nothing |
| Ppu.PaletteSolidMirror | src/ppu.rs:222-250 | a write through 0x00 or 0x10 is seen through both |
| Ppu.NameLocation | src/ppu.rs:267-273 | a name-table address names table ((a-0x2000)/0x400)%4, byte (a-0x2000)%0x400, always in range |
| Ppu.WriteVideo | src/ppu.rs:279-293 | a successful video write keeps the memory's shape |
| Ppu.VideoUnmapped | src/ppu.rs:264-293 | writes fail with UnmappedWrite exactly below 0x2000 and from 0x4000 up; reads fail with UnmappedRead exactly from 0x4000 up |
| Ppu.NameMirrors | src/ppu.rs:267-273 | two name-table addresses reach the same byte exactly when they are a multiple of 0x1000 apart |
| Ppu.NameTableReadAfterWrite | src/ppu.rs:264-293 | a name-table write succeeds and is seen at its address and every mirror of it, by no other name-table byte, and leaves OAM and palette unchanged |
| Ppu.ScrollTwoWrites | src/ppu.rs:339-349 | two scroll writes from a reset latch set x then y and reset the latch |
| Ppu.AddressTwoWrites | src/ppu.rs:351-359 | two address writes from a reset latch set the address high byte first, whatever it was, and reset the latch |
| Ppu.ReadDataLagsByOne | src/ppu.rs:373-385 | a data-port read returns the buffered byte and the second of two reads returns the byte the first one fetched |
| Ppu.Ppu.constructor | src/ppu.rs:398-403 | power-on: default registers (v-blank set), every sprite at y = 0xFF, zeroed name tables and palette |
| Ppu.Ppu.WriteCtrl | src/ppu.rs:307-311 | the control register becomes the decoded byte and nothing else changes |
| Ppu.Ppu.WriteMask | src/ppu.rs:313-315 | the mask register becomes the decoded byte and nothing else changes |
| Ppu.Ppu.WriteOamAddress | src/ppu.rs:321-323 | the OAM address becomes the value and nothing else changes |
| Ppu.Ppu.WriteOamData | src/ppu.rs:332-337 | field `address % 4` of sprite `address / 4` becomes the value, every other sprite is unchanged |
| Ppu.Ppu.WriteScroll | src/ppu.rs:339-349 | the scroll latch takes x on the first write and y on the second, and toggles |
| Ppu.Ppu.WriteAddress | src/ppu.rs:351-359 | the address takes its high byte on the first write and its low byte on the second, and the latch toggles |
| Ppu.Ppu.WriteMemory | src/ppu.rs:279-293 | the video memory afterwards is the pure write applied to the memory before, and a failed write changes nothing |
| Ppu.Ppu.WriteData | src/ppu.rs:361-371 | the video write at the current address, then the address advances by 32 or 1; a failed write changes nothing and an address past 0xFFFF aborts |
| Ppu.Ppu.ReadData | src/ppu.rs:373-385 | the buffered byte is returned, the buffer is refilled from the current address and the address advances by 32 or 1 |
| Ppu.Ppu.ReadMemory | src/ppu.rs:264-277 | pattern bytes come from CHR ROM (beyond its end aborts), name tables through their mirrors, the palette through get, and 0x4000 up is unmapped |
| Ppu.Ppu.ReplaceOam | src/ppu.rs:387-396 | sprite i becomes bytes 4i..4i+3 of the image and nothing else changes |
| Memory.ReadTargetOf | src/memory.rs:81-106 | the region a read reaches: RAM at a % 0x800 below 0x2000, the three readable PPU ports, 0x4015 to 0x4017, save RAM at a - 0x6000, program ROM at a - 0x8000 |
| Memory.WriteTargetOf | src/memory.rs:114-142 | the region a write reaches: RAM, the seven writable PPU ports, the ignored sound and controller registers, OAM DMA at 0x4014, save RAM |
| Memory.RamMirrors | src/memory.rs:83-87 | below 0x2000, addresses 0x800 apart reach the same RAM byte, for reads and writes |
| Memory.UnmappedReads | src/memory.rs:81-106 | a read is unmapped exactly in 0x2000..=0x5FFF outside the ports 0x2002, 0x2004, 0x2007 and 0x4015..=0x4017 |
| Memory.UnmappedWrites | src/memory.rs:114-142 | a write is unmapped exactly in the PPU range outside its seven ports, in 0x4018..=0x5FFF and in program ROM |
| Memory.GetSpec | src/memory.rs:108-112 | a read adds exactly one cycle, then reads without a cycle |
| Memory.PassGetFrame | src/memory.rs:81-106 | a read never changes RAM, save RAM, video memory, the buttons or the cycle count; only the data port changes PPU registers and only 0x4016 advances the controller clock |
| Memory.PassGetRegions | src/memory.rs:81-106 | RAM reads give ram[a % 0x800], save-RAM reads saved[a - 0x6000], ROM reads prg[(a - 0x8000) % len], and 0x4015 reads 0 |
| Memory.DmaFrom | src/memory.rs:63-74 | a successful DMA read loop returns one byte per remaining address and costs two cycles per byte |
| Memory.DmaStepOk | src/memory.rs:67-73 | a successful read stores its byte and the loop goes on after one extra cycle |
| Memory.DmaStepErr | src/memory.rs:67-68 | a failing read ends the transfer with its error |
| Memory.DmaDone | src/memory.rs:67-73 | at the end of the page the bytes read so far are the result |
| Memory.DmaOutcome | src/memory.rs:63-79 | the transfer's error is the DMA's error; a complete transfer of 256 bytes is installed as OAM and one wait cycle follows |
| Memory.RamPage | src/memory.rs:63-68 | the 256 bytes of a RAM page, in address order, through the RAM mirror |
| Memory.DmaRamReads | src/memory.rs:67-73 | reading the rest of a RAM page by DMA succeeds, returns the page's bytes in order and changes only the cycle count, by two per byte |
| Memory.DmaRamStep | src/memory.rs:67-73 | one DMA read of a RAM page: the next page byte, two cycles |
| Memory.DmaFromRam | src/memory.rs:63-79 | DMA from a RAM page succeeds, installs the page as OAM, changes nothing else and takes 513 cycles (256 reads, 256 extra, 1 wait) |
| Memory.DmaRamPage | src/memory.rs:63-74 | the reads of a whole RAM page return the page and take 512 cycles |
| Memory.DmaSpriteFields | src/memory.rs:63-79 | after DMA from RAM, field k of sprite s is RAM byte page * 0x100 + 4s + k |
| Memory.SetSpec | src/memory.rs:144-148 | a write adds exactly one cycle, then writes without a cycle, keeping the bus's shape |
| Memory.PassSetShape | src/memory.rs:114-142 | a write keeps the bus's shape |
| Memory.RamWriteThenRead | src/memory.rs:114-120 | a RAM write succeeds, is seen at every mirror of its address, by no other RAM byte, and changes nothing else on the bus |
| Memory.SavedWriteThenRead | src/memory.rs:133-137 | a save-RAM write succeeds, is seen at its address only, and changes nothing else on the bus |
| Memory.IgnoredAndRefusedWrites | src/memory.rs:128-138 | writes to 0x4000..=0x4013 and 0x4015..=0x4017 succeed and change only the cycle count; writes at 0x8000 and up fail with UnmappedWrite |
| Memory.GetShortSpec | src/memory.rs:150-155 | get_short keeps the bus's shape |
| Memory.GetShortLittleEndian | src/memory.rs:150-155 | from program ROM, get_short is the word with the low byte at the address and the high byte after it, and costs two cycles |
| Memory.GetRam | src/memory.rs:83-87 | a RAM read gives the byte at the address modulo 0x800 and only adds a cycle |
| Memory.SetRam | src/memory.rs:116-120 | a RAM write succeeds, stores at the address modulo 0x800 and only adds a cycle |
| Memory.GetPrg | src/memory.rs:99-103 | a ROM read gives the byte at (a - 0x8000) modulo the ROM length and only adds a cycle |
| Memory.GetShortWraps | src/memory.rs:152 | at 0xFFFF the high byte comes from address 0x0000 (wrapping_add), which is RAM |
| Memory.PowerOnBus | src/memory.rs:167-176 | the bus after Memory::new has its shape: zeroed RAM and save RAM, no cycles, a power-on PPU |
| Memory.Memory.constructor | src/memory.rs:167-176 | Memory::new: no cycles, zeroed RAM and save RAM, a power-on PPU, the cartridge and controller as handed over |
| Memory.Memory.Cycle | src/memory.rs:55-57 | the cycle count goes up by one and nothing else changes |
| Memory.Memory.CycleMany | src/memory.rs:59-61 | the cycle count goes up by `times` and nothing else changes |
| Memory.Memory.PassGet | src/memory.rs:81-106 | the result and the new bus are the read specification applied to the old bus |
| Memory.Memory.Get | src/memory.rs:108-112 | the result and the new bus are one cycle then the read |
| Memory.Memory.PassSet | src/memory.rs:114-142 | the result and the new bus are the write specification applied to the old bus |
| Memory.Memory.Set | src/memory.rs:144-148 | the result and the new bus are one cycle then the write |
| Memory.Memory.GetShort | src/memory.rs:150-155 | the result and the new bus are the two reads, low byte first |
| Memory.Memory.DmaRead | src/memory.rs:68-72 | one DMA step: a read and an extra cycle, the byte stored as the next buffer entry, as the transfer specification unfolds |
| Memory.Memory.DmaTransfer | src/memory.rs:65-73 | the 256-byte buffer and the bus after the loop are the transfer specification |
| Memory.Memory.OamDma | src/memory.rs:63-79 | the result and the new bus are the OAM DMA specification: the reads, the copy into OAM, one wait cycle |
| Memory.Memory.InstallOam | src/memory.rs:75-76 | the buffer replaces OAM, then one wait cycle, nothing else changes |
| Decoder.GetAddress | src/decoder.rs:15-20 | an address is read only when both bytes arrive, the first as the low byte; it stops after the first missing byte |
| Decoder.DecodeSpec | src/decoder.rs:210-471 | decode yields an instruction exactly when the opcode arrives, is in the table and every operand byte its mode takes arrives; it calls `next` once for the opcode and once per operand byte (1, 2 or 3 in all), operands little-endian; on None the calls stop at the first missing byte |
| Decoder.DecodeStopsAtCalls | src/decoder.rs:210-471 | decode looks at no byte after the ones it asked for, so what follows an instruction is never consumed |
| Decoder.OpcodeTable | src/decoder.rs:214-469 | exactly the opcodes with low nibble 3, 7 or F, low nibble B except 0xEB, and 0x9C and 0x9E decode to None; exactly 0x02, 0x12, ..., 0xF2 except 0x82, 0xA2, 0xC2, 0xE2 decode to STP; only 0x00 decodes to BRK |
| Decoder.SbcAlias | src/decoder.rs:447-449 | 0xEB decodes exactly like 0xE9, SBC immediate |
| Decoder.DecoderIterator.constructor | src/decoder.rs:474-475 | the counter starts at 0 |
| Decoder.DecoderIterator.Next | src/decoder.rs:477-483 | call k answers f(k) and advances the counter by one; the u16 counter overflowing past 0xFFFF aborts and leaves the counter where it was |
| Disassembler.HexDigit | src/disassembler.rs:14-16 | a digit value prints as an upper-case hexadecimal digit |
| Disassembler.DigitValue | src/disassembler.rs:14-16 | reading a digit succeeds exactly on hexadecimal digits and gives a value below 16 |
| Disassembler.DigitValueOfHexDigit | src/disassembler.rs:14-16 | a printed digit reads back as its value |
| Disassembler.Hex2 | src/disassembler.rs:14-16 | `{:02X}` prints exactly two hexadecimal digits |
| Disassembler.Hex4 | src/disassembler.rs:30-32 | `{:04X}` prints exactly four hexadecimal digits |
| Disassembler.Hex2RoundTrip | src/disassembler.rs:14-16 | two printed digits read back as the byte |
| Disassembler.Hex4RoundTrip | src/disassembler.rs:30-32 | four printed digits read back as the word |
| Disassembler.SignedWord | src/disassembler.rs:9 | `as i16` gives a value in -0x8000..0x7FFF |
| Disassembler.WrappingAddI16 | src/disassembler.rs:11 | `wrapping_add` on i16 stays in -0x8000..0x7FFF |
| Disassembler.TargetArithmetic | src/disassembler.rs:7-12 | the target is pc + 2 + the sign-extended offset modulo 2^16, so the offset is recovered from target - (pc + 2) modulo 256 |
| Disassembler.Name | src/disassembler.rs:62-534 | every operation prints as a three-letter name |
| Disassembler.DisassembleNext | src/disassembler.rs:62-534 | the disassembler driven by decode gives text exactly when decode gives an instruction |
| Disassembler.NamesDistinct | src/disassembler.rs:62-534 | distinct operations print distinct names: every name reads back as its operation |
| Disassembler.AssembleSplits | src/disassembler.rs:14-60 | a line is the name, then the operand text |
| Disassembler.ParseImmediate | src/disassembler.rs:14-16 | ` #$hh` reads back as immediate hh |
| Disassembler.ParseZeroPage | src/disassembler.rs:18-20 | ` $hh` reads back as zero page hh |
| Disassembler.ParseZeroPageIndexed | src/disassembler.rs:22-28 | ` $hh,X` and ` $hh,Y` read back as the indexed zero-page modes |
| Disassembler.ParseAddress | src/disassembler.rs:30-32 | ` $hhhh` reads back as an absolute address, or for a branch as the offset reaching that target |
| Disassembler.ParseAbsoluteIndexed | src/disassembler.rs:34-40 | ` $hhhh,X` and ` $hhhh,Y` read back as the indexed absolute modes |
| Disassembler.ParseIndirectX | src/disassembler.rs:42-44 | ` ($hh,X)` reads back as indexed-indirect hh |
| Disassembler.ParseIndirectY | src/disassembler.rs:46-48 | ` ($hh),Y` reads back as indirect-indexed hh |
| Disassembler.ParseIndirect | src/disassembler.rs:58-60 | ` ($hhhh)` reads back as the indirect jump's address |
| Disassembler.DisassembleSplits | src/disassembler.rs:62-534 | every line is the operation's name followed by its operand text (accumulator shifts print ` A`, branches the `$hhhh` target) |
| Disassembler.OperandRoundTrip | src/disassembler.rs:14-60 | the operand text of every instruction whose mode fits its operation (relative exactly for branches, which DecodeFits shows of every decoded instruction) reads back as its mode and operand |
| Disassembler.AssembleDisassemble | src/disassembler.rs:62-534 | every instruction whose mode fits its operation comes back from its text: name, addressing mode, operand digits, and the branch offset from the printed target |
| Disassembler.RowFits | src/decoder.rs:214-469 | in every row of the opcode table, an entry uses relative addressing exactly when its operation is a branch |
| Disassembler.DecodeFits | src/decoder.rs:210-471 | every instruction decode yields fits its mode: relative addressing exactly for the eight branches |
| Disassembler.DecodedRoundTrip | src/disassembler.rs:14-534 | every instruction decode yields, at any pc, comes back from its disassembled text |
| Interpreter.Lift | src/interpreter.rs:1546-1550 | a memory error becomes `Memory(error)`; a memory access that panicked stays a panic |
| Interpreter.SetFlags | src/interpreter.rs:154-157 | Z is set exactly when the value is 0, N exactly when its top bit is set, and no other flag changes |
| Interpreter.Add | src/interpreter.rs:159-182 | with carry in c, the result is (a + b + c) mod 256 and the carry out is set exactly when a + b + c exceeds 255 |
| Interpreter.AddOverflow | src/interpreter.rs:165-174 | V is set when the signed sum leaves [-128, 127], and also when, with carry in, the signed a + b is -129 (the code tests the wrapped intermediate) |
| Interpreter.AddTo | src/interpreter.rs:159-182 | A gets the sum, C and V its carry and overflow, Z and N describe the new A, and X, Y, SP and PC are kept |
| Interpreter.SubFrom | src/interpreter.rs:184-186 | A becomes A - value - (1 - C) mod 256 and C is set exactly when nothing is borrowed |
| Interpreter.SubArithmetic | src/interpreter.rs:184-186 | adding the complement of v subtracts v, borrowing one when the carry is clear |
| Interpreter.Compare | src/interpreter.rs:188-193 | C says reg >= value, Z says reg == value, N is the top bit of the wrapped difference, no other flag changes |
| Interpreter.BitTest | src/interpreter.rs:501-521 | Z says A and the value share no set bit, N and V copy bits 7 and 6 of the value, no other flag changes |
| Interpreter.Asl | src/interpreter.rs:195-204 | the result with the carry as ninth bit is twice the input |
| Interpreter.Lsr | src/interpreter.rs:206-215 | twice the result plus the carry is the input |
| Interpreter.Rol | src/interpreter.rs:217-231 | the result with the new carry as ninth bit is twice the input plus the old carry |
| Interpreter.Ror | src/interpreter.rs:233-247 | twice the result plus the new carry is the input with the old carry as ninth bit |
| Interpreter.RorAfterRol | src/interpreter.rs:217-247 | ror undoes rol, value and carry |
| Interpreter.RolAfterRor | src/interpreter.rs:217-247 | rol undoes ror, value and carry |
| Interpreter.PushedStatus | src/interpreter.rs:461-465 | the pushed status is p with ENABLED and BREAK set and every other bit kept |
| Interpreter.PulledStatus | src/interpreter.rs:473-476 | the pulled status has ENABLED set, BREAK clear, and every other bit as pulled |
| Interpreter.StatusRoundTrip | src/interpreter.rs:461-481 | pushing then pulling the status returns p with ENABLED set and BREAK clear |
| Interpreter.BranchTarget | src/interpreter.rs:249-260 | the new pc is pc plus the signed offset, modulo 0x10000 |
| Interpreter.BranchMatchesDisassembly | src/interpreter.rs:249-260 | a taken branch at `at` lands on the target the disassembler prints for it |
| Interpreter.PageNext | src/interpreter.rs:27-34 | the high byte of a jmp (ind) pointer is read from the same page, at the low byte plus one, wrapping within the page |
| Interpreter.PushWritesStack | src/interpreter.rs:114-120 | push stores the byte in RAM at 0x100 + sp, lowers sp by one with wrap-around, takes one cycle and cannot fail |
| Interpreter.PopReadsStack | src/interpreter.rs:127-131 | pop raises sp by one with wrap-around and returns the RAM byte at the new 0x100 + sp, in one cycle, and cannot fail |
| Interpreter.PushThenPop | src/interpreter.rs:114-131 | pop after push returns the pushed byte and restores sp |
| Interpreter.PushAddressWritesStack | src/interpreter.rs:122-125 | the high byte goes to 0x100 + sp and the low byte to the slot below, sp ends two lower |
| Interpreter.PopAddressReadsStack | src/interpreter.rs:133-138 | the low byte comes from the slot above sp and the high byte from the one above that, sp ends two higher |
| Interpreter.PushAddressThenPopAddress | src/interpreter.rs:122-138 | pop_address after push_address returns the address and restores every register |
| Interpreter.CallEffect | src/interpreter.rs:649-657 | jsr from a non-zero pc pushes pc - 1, jumps to the operand and takes three cycles |
| Interpreter.CallLeavesReturnAddress | src/interpreter.rs:649-657 | after jsr the two slots above sp hold pc - 1, low byte first, and two pops bring sp back |
| Interpreter.ReturnEffect | src/interpreter.rs:670-676 | rts pulls an address and continues one past it, in five cycles, and panics when the address is 0xFFFF |
| Interpreter.ReturnLands | src/interpreter.rs:670-676 | rts from a frame whose address is not 0xFFFF lands one past that address |
| Interpreter.CallFrameReturns | src/interpreter.rs:649-676 | the frame jsr leaves never holds 0xFFFF and gives sp and pc back to rts |
| Interpreter.CallThenReturn | src/interpreter.rs:649-676 | rts after jsr restores every register, including pc, in eight cycles |
| Interpreter.InterruptEffect | src/interpreter.rs:140-152 | an interrupt pushes pc and the status with ENABLED and BREAK set, lowers sp by three, jumps to the handler, and cannot fail |
| Interpreter.InterruptLeavesFrame | src/interpreter.rs:140-152 | after an interrupt the slot above sp holds the pushed status and the two above it the interrupted pc |
| Interpreter.ReturnFromInterruptEffect | src/interpreter.rs:659-668 | rti pulls the status (ENABLED set, BREAK clear), then pc, raises sp by three, takes five cycles, and cannot fail |
| Interpreter.InterruptFrameReturns | src/interpreter.rs:140-152 | the frame an interrupt leaves is exactly the one rti takes down |
| Interpreter.InterruptThenReturn | src/interpreter.rs:659-668 | rti after an interrupt restores every register except that the status comes back with ENABLED set and BREAK clear, in eight cycles |
| Interpreter.PushOpEffect | src/interpreter.rs:461-489 | pha and php store their byte at 0x100 + sp, lower sp and take two cycles |
| Interpreter.PullAEffect | src/interpreter.rs:491-499 | pla raises sp, loads A from the stack slot with Z and N from it, three cycles |
| Interpreter.PullStatusEffect | src/interpreter.rs:473-481 | plp raises sp and makes the stack slot the status, ENABLED set and BREAK clear, three cycles |
| Interpreter.PushStatusThenPull | src/interpreter.rs:461-481 | php then plp gives back the status with ENABLED set and BREAK clear and every other register unchanged |
| Interpreter.PushAThenPull | src/interpreter.rs:483-499 | pha then pla gives back A, with Z and N set from it |
| Interpreter.FetchPrg | src/interpreter.rs:1569-1577 | a fetch from program ROM below 0xFFFF returns the byte, moves pc on by one and takes one cycle |
| Interpreter.FetchLastPanics | src/interpreter.rs:1569-1577 | a fetch at 0xFFFF panics, because pc cannot move past the last address |
| Interpreter.DecodeFromPrg | src/interpreter.rs:1566-1579 | decoding from program ROM gives the instruction the decoder reads from the bytes at pc (or None for an opcode without an entry), with pc moved past those bytes and one cycle per byte |
| Interpreter.StepInvalidOp | src/interpreter.rs:1579-1586 | step on an opcode without an entry reports InvalidOp with that byte, after its fetch and a second read |
| Interpreter.StepExecutesDecoded | src/interpreter.rs:1566-1586 | step on a decodable instruction in program ROM runs exactly that instruction, with pc already past it |
| Interpreter.ExecuteHalts | src/interpreter.rs:263-269 | brk reports Break and stp reports Stop, and neither changes the machine |
| Interpreter.NewVectors | src/cpu.rs:58-66 | the three vectors are read through the bus, and the new bus is what those reads leave |
| Interpreter.Cpu.constructor | src/cpu.rs:70-82 | the bus is powered on and cycled once, the vectors are the program ROM's words at 0xFFFA, 0xFFFC and 0xFFFE, the registers start at pc or else the reset vector, and the bus stands at seven cycles |
| Interpreter.Cpu.GetPtr | src/interpreter.rs:20-25 | reads a pointer from page zero, its high byte at the next page-zero address |
| Interpreter.Cpu.GetPtrA | src/interpreter.rs:27-34 | reads the jmp (ind) pointer, its high byte from the same page |
| Interpreter.Cpu.GetZpo | src/interpreter.rs:40-44 | one cycle, then the byte at offset + register within page zero |
| Interpreter.Cpu.GetAo | src/interpreter.rs:50-56 | an extra cycle when the index crosses a page, then the byte at address + offset modulo 0x10000 |
| Interpreter.Cpu.GetDi | src/interpreter.rs:58-64 | the pointer at offset + register in page zero, one cycle, then the byte it points at |
| Interpreter.Cpu.GetDo | src/interpreter.rs:66-76 | the pointer at offset, an extra cycle on a page crossing, then the byte at pointer + register modulo 0x10000 |
| Interpreter.Cpu.SetDi | src/interpreter.rs:94-100 | as get_di, ending in a write |
| Interpreter.Cpu.SetDo | src/interpreter.rs:102-112 | as get_do, ending in a write; pointer + register past 0xFFFF panics |
| Interpreter.Cpu.Push | src/interpreter.rs:114-120 | the registers and bus afterwards are those PushWritesStack describes |
| Interpreter.Cpu.PushAddress | src/interpreter.rs:122-125 | high byte then low byte, as PushAddressWritesStack describes |
| Interpreter.Cpu.Pop | src/interpreter.rs:127-131 | as PopReadsStack describes |
| Interpreter.Cpu.PopAddress | src/interpreter.rs:133-138 | low byte then high byte, as PopAddressReadsStack describes |
| Interpreter.Cpu.Interrupt | src/interpreter.rs:140-152 | as InterruptEffect describes |
| Interpreter.Cpu.Branch | src/interpreter.rs:249-260 | one cycle, pc moved to the branch target, and one more cycle when the high byte of pc changed |
| Interpreter.Cpu.Read | src/interpreter.rs:36-76 | the operand byte of a reading instruction: immediate, or read at the address its mode computes with the mode's cycles |
| Interpreter.Cpu.ReadOp | src/interpreter.rs:742-1107 | ldx, ldy, ora, and, eor, adc, cpx, cpy (and lda, cmp, sbc at 1199-1371, bit at 501-521): read the operand, update the registers with the flags above; a failed read changes no register |
| Interpreter.Cpu.StoreOp | src/interpreter.rs:1109-1197 | sta, stx and sty write their register at the mode's address, with the extra cycle of the indexed modes and (zp),Y |
| Interpreter.Cpu.Shift | src/interpreter.rs:195-247 | asl, lsr, rol and ror set Z and N from the result and C from the bit shifted out, then take a cycle |
| Interpreter.Cpu.ShiftOp | src/interpreter.rs:1373-1544 | the shifts on A, or read, shifted and written back to the mode's address (one extra cycle for absolute,X) |
| Interpreter.Cpu.CountOp | src/interpreter.rs:361-459 | inc and dec read, step by one with wrap-around, set Z and N, take their cycles and write back; zero page,X panics when offset + X passes 0xFF |
| Interpreter.Cpu.TransferOp | src/interpreter.rs:321-359 | inx, iny, dex, dey (and the transfers at 523-579 and flag operations at 581-635) change their registers as listed, in one cycle |
| Interpreter.Cpu.Nop | src/interpreter.rs:271-319 | the no-ops take only their cycles, with one more for absolute,X across a page, and never touch the bus |
| Interpreter.Cpu.PushOp | src/interpreter.rs:461-489 | as PushOpEffect describes |
| Interpreter.Cpu.Pull | src/interpreter.rs:473-499 | as PullAEffect and PullStatusEffect describe |
| Interpreter.Cpu.StackOp | src/interpreter.rs:461-499 | pha and php push A or the pushed status; pla and plp pull into A or the status |
| Interpreter.Cpu.Jump | src/interpreter.rs:637-647 | jmp goes straight to the operand, or through the pointer at it |
| Interpreter.Cpu.Call | src/interpreter.rs:649-657 | as CallEffect describes; pc 0 panics on pc - 1 |
| Interpreter.Cpu.ReturnFromInterrupt | src/interpreter.rs:659-668 | as ReturnFromInterruptEffect describes |
| Interpreter.Cpu.Return | src/interpreter.rs:670-676 | as ReturnEffect describes |
| Interpreter.Cpu.ControlOp | src/interpreter.rs:263-676 | brk gives Break, stp gives Stop, and jmp, jsr, rti and rts behave as above |
| Interpreter.Cpu.BranchOp | src/interpreter.rs:678-740 | each branch tests its flag and branches when the test holds, else changes nothing |
| Interpreter.Cpu.Execute | src/interpreter.rs:262-1545 | one decoded instruction, dispatched to its family |
| Interpreter.Cpu.Fetch | src/interpreter.rs:1569-1577 | reads at pc, then moves pc on, panicking at 0xFFFF; a failed read is None |
| Interpreter.Cpu.DecodeNext | src/interpreter.rs:1579 | the decoder driven by Fetch; with program ROM at pc it agrees with the decoder (DecodeFromPrg) |
| Interpreter.Cpu.Step | src/interpreter.rs:1566-1587 | decodes and runs one instruction; when nothing decodes it reads the byte at the starting pc again and reports InvalidOp or the memory error |
| Software.ColorIndex | src/software.rs:115-125 | the colour number of a pattern pixel is below 4, and exists exactly when both plane bytes lie inside the pattern memory |
| Software.ColorIndexMasks | src/software.rs:116-125 | the colour number is the plane-0 bit under mask `1 << (7 - x)` plus twice the plane-1 bit, with the planes eight bytes apart at 16 * tile + y |
| Software.SpriteColorCases | src/software.rs:115-134 | a pixel is transparent exactly when both plane bits are clear; otherwise colour number 1, 2 or 3 picks that palette entry's master colour |
| Software.SpriteColorOutOfRange | src/software.rs:115-134 | the pixel aborts exactly when a plane byte is past the pattern memory or the chosen palette entry is not below 64 |
| Software.NameIndices | src/software.rs:136-150 | the tile number and the attribute byte of every visible pixel lie inside the name table, the attribute byte in 0x3C0 .. 0x3FF |
| Software.PaletteSelector | src/software.rs:151-155 | the selected background palette is below 4 |
| Software.PaletteSelectorShifts | src/software.rs:151-155 | the selector is the two attribute bits at shift 2 * ((col / 2) % 2) + 4 * ((row / 2) % 2) |
| Software.Scrolled | src/software.rs:226-244 | the scrolled pixel is (x + scroll.x) mod 256, (y + scroll.y) mod 256 in the name table flipped once per wrap; it aborts exactly when y + scroll.y lies in 240 .. 255 |
| Software.UnscrolledPosition | src/software.rs:226-244 | with no scroll every pixel reads itself in the table the control register selects |
| Software.ScrollAborts | src/software.rs:238-242 | some visible line of a column aborts exactly when the vertical scroll is not 0 |
| Software.ColumnsLayer | src/software.rs:188-213 | after drawing a sprite's columns from `offset`, each layer holds at column x the sprite's opaque pixel there if x is among the drawn columns and the layer is the sprite's, and else what it held before |
| Software.ColumnsHit | src/software.rs:198-205 | drawing a sprite's columns raises the hit exactly when it was raised already or the sprite is sprite 0 with an opaque pixel on screen |
| Software.SpritesLayer | src/software.rs:162-217 | drawing sprites 63 down to i leaves in each layer, at each column, the pixel of the lowest-numbered sprite opaque there (TopSprite) |
| Software.SpritesHit | src/software.rs:162-217 | pre-rendering a line raises the sprite hit exactly when sprite 0 covers the line with an opaque pixel on screen |
| Software.AbortStays | src/software.rs:162-217 | once a sprite aborts, the whole pre-rendering of the line aborts with the same panic |
| Software.PixelComposite | src/software.rs:219-252 | a pixel is the front sprite's colour, else the scrolled background's where opaque, else the behind-background sprite's, else the shared background colour, with each abort passed on |
| Software.PixelAddresses | src/software.rs:284-286 | every visible pixel's four bytes lie inside the frame, and two different pixels never share a byte |
| Software.Paint | src/software.rs:286 | painting writes the colour's four bytes at the address and leaves every other byte as it was |
| Software.DotWork | src/software.rs:273-300 | one dot keeps the position, touches the frame only at a visible pixel, and begins v-blank exactly at line 241, dot 1 |
| Software.DotPaints | src/software.rs:279-287 | at dots 1 .. 256 of a visible line the dot renders pixel scan_x - 1 and paints it at its address, or aborts with the pixel's panic |
| Software.Advance | src/software.rs:302-311 | the move to the next dot keeps the position inside the 341 x 262 raster |
| Software.PositionDigits | src/software.rs:302-311 | the dot number y * 341 + x is below 89342, and is 82182 exactly at line 241, dot 1 |
| Software.AdvancePosition | src/software.rs:302-311 | the move to the next dot adds one to the dot number, modulo 89342 |
| Software.DotsWalk | src/software.rs:272-312 | n dots that go through end n dot numbers further on, and have begun v-blank exactly when the v-blank dot was among them |
| Software.Elapsed | src/software.rs:267 | the dots to run are three per cycle since the last render; a cycle before the last one, or a product past 64 bits, panics |
| Software.RenderWalk | src/software.rs:266-321 | a render that goes through ends 3 * (cycle - last_cycle) dots further on and sends the interrupt exactly when the control register asks for it and the v-blank dot was passed |
| Software.RenderAborts | src/software.rs:272-312 | a dot that aborts aborts the whole render |
| Software.SoftwareRenderer.constructor | src/software.rs:254-262 | the first dot of the first line, cycle 0, nothing pre-rendered, a frame of 255s, nothing pushed |
| Software.SoftwareRenderer.RenderBackground | src/software.rs:136-160 | the background colour of the pixel, reading the name tables in place |
| Software.SoftwareRenderer.PreRenderSprites | src/software.rs:162-217 | the two layers of the line drawn in place, with the hit flag raised as SpritesHit describes |
| Software.SoftwareRenderer.DrawSpriteInPlace | src/software.rs:188-213 | one sprite's columns on the line, stopping at the right edge of the screen |
| Software.SoftwareRenderer.RenderPixel | src/software.rs:219-252 | the pixel's colour as PixelComposite describes |
| Software.SoftwareRenderer.Dot | src/software.rs:273-300 | the work of one dot, in place: sprites at dot 0, a pixel at dots 1 .. 256, v-blank at line 241 and the hit flag cleared at line 261 |
| Software.SoftwareRenderer.NextDot | src/software.rs:302-311 | on to the next dot, the next line, and after line 261 back to line 0 |
| Software.SoftwareRenderer.Step | src/software.rs:272-312 | one iteration of the render loop |
| Software.SoftwareRenderer.Conclude | src/software.rs:314-320 | with v-blank begun and the interrupt enabled, the frame is pushed and replaced by a frame of 255s and SendNMI returned; otherwise nothing changes |
| Software.SoftwareRenderer.Render | src/software.rs:266-321 | the renderer ends in the state RenderSpec gives (position, sprites, hit flag, frame, frames pushed), with the action RenderWalk describes |
| SaveState.RegistersRoundTrip | src/state.rs:105-129 | the CPU registers survive a save and a restore in both orders, the status byte with all eight bits |
| SaveState.PpuRegistersRoundTrip | src/state.rs:131-252 | every flag and field of the picture processor's register file survives a save and a restore in both orders |
| SaveState.MemoryToState | src/state.rs:310-322 | the mirror of video memory holds every sprite converted in order, every name table's bytes and the palette |
| SaveState.CollectTablesExact | src/state.rs:302-304 | collecting the name tables succeeds exactly when each holds 0x400 bytes, and then keeps their contents |
| SaveState.MemoryRestoreExact | src/state.rs:296-308 | restoring video memory fails exactly when there are not 64 sprites or not four name tables of 0x400 bytes; otherwise every sprite, byte and palette entry is the stored one |
| SaveState.MemoryRoundTrip | src/state.rs:296-322 | saving video memory and restoring it gives it back |
| SaveState.MemoryStateRoundTrip | src/state.rs:296-322 | a mirror that restores is the mirror of what it restores to |
| SaveState.Save | src/state.rs:324-336 | the state keeps the RAM and the controller cycles as they are |
| SaveState.Restore | src/state.rs:338-359 | a restored console has 0x800 bytes of RAM, 0x2000 of save RAM and well-formed video memory |
| SaveState.RestoreRejects | src/state.rs:338-359 | with program ROM, restore never aborts, and gives None exactly when the RAM is not 0x800 bytes or the video memory does not restore |
| SaveState.RestoreAfterSave | src/state.rs:324-359 | save then restore gives the console back with its registers, RAM, controller cycles and picture processor unchanged, the vectors read again, save RAM zeroed and the cycle counter at 6 |
| SaveState.SaveAfterRestore | src/state.rs:324-359 | a state that restores is the save of the console it restores to |
| SaveState.RestoredVectorsRead | src/state.rs:354 | the restored vectors are the three words Vectors::new reads from program ROM, in six cycles |
| Framing.BigEndian | emserver/src/delimiter.rs:14 | a k-byte big-endian value is below 256^k |
| Framing.BeBytes | emserver/src/server.rs:125 | the k-byte big-endian encoding of n has k bytes and reads back as n |
| Framing.BeBytesInjective | emserver/src/server.rs:125 | two encodings of the same width are equal only for equal values |
| Framing.Header | emserver/src/server.rs:125 | the header of a length is eight bytes that read back as the length |
| Framing.HeaderOfBigEndian | emserver/src/delimiter.rs:14 | any eight bytes are the header of the length they read as |
| Framing.BigEndianInjective | emserver/src/delimiter.rs:14 | byte strings of one length with one big-endian value are equal |
| Framing.PopReadsHeader | emserver/src/delimiter.rs:12-30 | with no size pending and eight bytes buffered, pop consumes the header and hands out the payload exactly when it has all arrived |
| Framing.PopShortHeader | emserver/src/delimiter.rs:13-21 | with no size pending and fewer than eight bytes, pop returns nothing and changes nothing |
| Framing.PopPendingSize | emserver/src/delimiter.rs:21-29 | with a size pending, pop hands out and removes that many bytes and clears the size exactly when they are buffered, else changes nothing |
| Framing.PopEmptyFrame | emserver/src/delimiter.rs:12-30 | a zero-length frame pops as an empty payload |
| Framing.PopKeepsStream | emserver/src/delimiter.rs:12-30 | pop never loses or invents a byte: the unread bytes before are the frame handed out followed by the unread bytes after |
| Framing.PopWholeFrame | emserver/src/delimiter.rs:12-30 | when the unread bytes begin with a whole frame, pop hands out its payload |
| Framing.PopNothingUnread | emserver/src/delimiter.rs:12-30 | with nothing unread, pop returns nothing |
| Framing.Delimiter.constructor | emserver/src/delimiter.rs:1-5 | nothing pending, nothing buffered |
| Framing.Delimiter.Push | emserver/src/delimiter.rs:8-10 | the data is appended to the buffer and to the unread bytes, and nothing else changes |
| Framing.Delimiter.Pop | emserver/src/delimiter.rs:12-30 | size, buffer and result as the pop function gives them, with the stream kept as PopKeepsStream states |
| Server.InputFlags | emserver/src/server.rs:21-59 | bit k of the flags is set exactly when the button the controller reports k-th is held |
| Server.FlagsUpToBits | emserver/src/server.rs:23-55 | after the first k `\|=` steps exactly the held buttons among the first k are set |
| Server.FlagsComplete | emserver/src/server.rs:21-59 | the eight steps give the converted input, and it is 0 exactly when no button is held |
| Server.FlagsFromInput | emserver/src/server.rs:21-59 | the conversion sets one bit per held button and is 0 exactly when none is held |
| Server.InputSerialOrder | emserver/src/server.rs:21-59 | pressed into the controller, the converted input reads out 1 at serial position k exactly when that button is held |
| Server.GetValues | emserver/src/server.rs:70-88 | the values and the bus state are those of reading every requested address, in the map's iteration order |
| Server.ValuesFrame | emserver/src/server.rs:73-85 | the reads leave RAM, save RAM and video memory unchanged |
| Server.ValuesRequested | emserver/src/server.rs:73-85 | only requested keys come back, and every value is a byte |
| Server.ValuesUntouched | emserver/src/server.rs:73-85 | a key no longer visited keeps what the map held for it |
| Server.GetValuesOutcome | emserver/src/server.rs:70-88 | keys whose address reads nothing are left out, not zero-filled; keys whose truncated address is in RAM carry the RAM byte there |
| Server.Frame | emserver/src/server.rs:122-131 | a message goes out as its eight-byte big-endian length followed by its bytes |
| Server.FramesPrefix | emserver/src/server.rs:122-131 | frame parsing is unambiguous: frames followed by more bytes that make up other frames start with the same messages |
| Server.SameFrame | emserver/src/server.rs:122-131 | two frames that start one byte string are the same frame |
| Server.RunKeepsStream | emserver/src/delimiter.rs:8-30 | across any run of pushes and pops, the frames popped followed by what is unread are what was unread followed by what arrived |
| Server.Drain | emserver/src/delimiter.rs:12-30 | with the frames of some messages unread, as many pops as messages hand out exactly those messages |
| Server.RunAppend | emserver/src/delimiter.rs:8-30 | running two stretches of events is running the first, then the second from where the first left off |
| Server.FramesArriveInOrder | emserver/src/delimiter.rs:8-30 | however sent frames are split into arriving chunks and wherever pops fall, the pops hand out a prefix of the messages in order, and enough further pops hand out all of them once each |
| PatternTexture.TexelAddressCoordinates | emgui/src/hardware/shared.rs:40 | the cell of tile i, column x, row y lies in the strip and belongs to no other (tile, column, row) |
| PatternTexture.CellCoordinates | emgui/src/hardware/shared.rs:40 | every cell of the strip is the cell of its own tile, column and row |
| PatternTexture.ShiftedBit | emgui/src/hardware/shared.rs:35-36 | `(v >> k) & 1` is bit k of v |
| PatternTexture.Texel | emgui/src/hardware/shared.rs:31-38 | a cell holds a colour number below 4 |
| PatternTexture.TextureCells | emgui/src/hardware/shared.rs:24-43 | column x, row y of tile i lands at cell 8i + x + 2048y with its colour number |
| PatternTexture.TexelIsColorIndex | emgui/src/hardware/shared.rs:31-38 | the strip holds the same colour number the software renderer decodes for that tile pixel |
| PatternTexture.PatternTableToTexture | emgui/src/hardware/shared.rs:17-46 | pattern memory shorter than 0x1000 bytes aborts on a slice; otherwise a fresh 16384-cell strip whose every cell is its tile pixel's colour number |
| Hardware.PaletteIndexes | emhardware/src/background.rs:37-47 | slot 4q + k of the uploaded table holds entry k - 1 of background palette q, and every slot 4q holds 0 |
| Hardware.PaletteIndexesBytes | emhardware/src/background.rs:37-47 | every uploaded slot is a byte value |
| Hardware.OffsetUniform | emhardware/src/background.rs:28-33 | the uniform is the two scroll bytes and the two base-table bits as 0 or 1 |
| Hardware.WriteOffsetSpec | emhardware/src/background.rs:91-96 | a visible scanline's pair becomes (offset, base); every other byte and every line past 239 is left alone |
| Hardware.BackgroundRenderer.constructor | emhardware/src/background.rs:352 | every offset pair starts as zeros |
| Hardware.BackgroundRenderer.WriteOffset | emhardware/src/background.rs:91-96 | as WriteOffsetSpec states |
| Hardware.NextLine | emhardware/src/renderer.rs:262-266 | one more line crossing moves one line on, wrapping after line 261 |
| Hardware.Ahead | emhardware/src/renderer.rs:260-273 | every line is reached after 1 to 262 crossings |
| Hardware.AheadFirst | emhardware/src/renderer.rs:260-273 | no crossing reaches a line before Ahead does |
| Hardware.OffsetsAfterEntries | emhardware/src/renderer.rs:260-273 | after n crossings the pair of every visible line reached holds the scroll offset and base, and every other pair is unchanged |
| Hardware.PassedPositions | emhardware/src/renderer.rs:275-280 | for dots on a line, passed! is start < dot <= end on dot numbers within the frame |
| Hardware.PositionOrder | emhardware/src/renderer.rs:275-280 | dot numbers are ordered as (line, column) pairs, line first |
| Hardware.PassedNothingAfterWrap | emhardware/src/renderer.rs:275-280 | a walk that wraps into the next frame and ends before its start passes no dot at all |
| Hardware.Crossings | emhardware/src/renderer.rs:257-273 | the walk ends at column (start + dots) mod 341 after (start + dots) / 341 line crossings |
| Hardware.HardwareRenderer.constructor | emhardware/src/renderer.rs:222-235 | no cycles counted, the scan at dot (0, 0), nothing drawn, all offset pairs zero |
| Hardware.HardwareRenderer.Sync | emhardware/src/renderer.rs:240-242 | the cycle count the next render measures from; nothing else changes |
| Hardware.HardwareRenderer.Walk | emhardware/src/renderer.rs:257-273 | the scan ends at column (x + dots) mod 341 of line (y + crossings) mod 262, with the scroll offset recorded at every line reached |
| Hardware.HardwareRenderer.Render | emhardware/src/renderer.rs:248-308 | aborts exactly when the cycle goes back or a count leaves 64 bits; otherwise walks as Walk states, clears the sprite hit when dot (261, 1) was passed and else raises it when the dot five lines under sprite 0 was, and sends the interrupt and draws exactly when dot (241, 1) was passed and the control register asks for it |

## Left out

- GPU plumbing: wgpu pipelines, bind groups, textures, buffers, shaders and `render_contents`. They are foreign calls with no visible semantics, so a draw is only counted (`contents_rendered`) and the buffer uploads are modelled as the values uploaded (`PaletteIndexes`, `OffsetUniform`).
- `flush` of the hardware renderer: it only waits on the GPU device.
- Floating point (clear colours, vertex positions): none of it reaches the modelled logic.
- Concurrency: the mutex-wrapped render information, controllers and stream table, and the emulator and tokio threads.
- Network and socket I/O (`read_into`, the connection handlers, `main`): a connection is modelled as a run of `Arrive` and `Take` events, and `send_message` as the bytes it writes.
- Window, UI and streaming code, including the letterbox arithmetic; the prost-generated message code and its build script.
- The GUI crate's copies of the pattern decode, the per-dot renderer, the hardware renderer and the palette tables: they repeat logic modelled once here.
- `println!` diagnostics in the video chip and in `get_values`, and the `Display` text of CPU errors: output only.
- `NesInstance::run_frames` and `NesInstance::new`: they drive a renderer type and a `RenderAction::SendFrame` variant that belong to a different revision from the software renderer shown.
- The `push_frame` callback: it is modelled as the sequence `pushed` of frames handed to it, in order.
- Iteration order of a `HashMap`: `get_values` takes it as a parameter (any order that visits each key once), and its contracts hold for every such order.
- The hardware renderer's register accessors (`x_scroll`, `y_scroll`, `name_table_x`, `name_table_y`) belong to a register type the shown video chip does not define; their values are the `RenderView` parameter.
- The save state is modelled against its own text: its control flags without the base-name-table bits, and a render register (t, v, x, w) and controller cycle pair that the shown video chip and bus do not have.
- `usize` is taken as 64 bits wide; sizes that stay far below that (scan positions, indexes) are unbounded naturals.
- The bus is modelled with one pair of controllers, a `GenericController` in port one and a `NoController` in port two, the pair the stream server builds (emserver/src/server.rs:66, 116); the generic `Memory<'a, C1, C2>` over any controller types is not.
- Interpreter.Cpu.constructor: requires a non-empty program ROM; with an empty one the source aborts on the first vector read, and that abort is stated by `Processor.VectorsWithoutRom`.
- Memory.Memory.CycleMany: the bus cycle counter is an unbounded natural, so the 64-bit overflow of `cycles +=` after 2^64 cycles is not modelled.

Behaviour of the code that the contracts make explicit:

- A pixel with no opaque front sprite whose scrolled row y + scroll.y lies in 240 .. 255 aborts rendering (an underflow in a debug build), since the vertical wrap subtracts 256 rather than 240 (`Scrolled`, `ScrollAborts`, with the layer order of `PixelComposite`). So a non-zero vertical scroll aborts on some line unless front sprites cover every such pixel.
- A rendered pixel whose chosen palette entry is 64 or more aborts (`SpriteColorOutOfRange`), and so does a pattern read past the end of the pattern memory by a layer the pixel reaches.
- Palette `get` underflows for every offset except 0x00 and 0x10 (`Ppu.PaletteGetFlagged`).
- A restored console does not keep its cycle counter or save RAM: the counter restarts and ends at 6 after the six vector reads, and save RAM comes back zeroed (`SaveState.RestoreAfterSave`).
- The hardware renderer's `passed!` compares (line, column) pairs without accounting for a wrap into the next frame: a walk that wraps and ends before its start passes no dot, so neither v-blank nor the hit flag changes (`Hardware.PassedNothingAfterWrap`).
- Fetching an instruction byte at pc 0xFFFF overflows `pc + 1` (`Interpreter.FetchLastPanics`).
