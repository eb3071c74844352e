/** The emulator server's message plumbing: the controller buttons a client
    sends, the memory values it asks for, and the framing every message
    travels in. */
module Server {
  import opened Wrappers
  import opened Bytes
  import opened Controller
  import opened Memory
  import opened Framing

  // ---------------------------------------------------------------------
  // Controller input

  /** The controller message: one boolean per button. */
  datatype ControllerInput = ControllerInput(
    a: bool, b: bool, select: bool, start: bool,
    up: bool, down: bool, left: bool, right: bool)

  /** Whether the button the shift register reports at position k is held. */
  function Held(input: ControllerInput, k: nat): bool
    requires k < 8
  {
    match k
    case 0 => input.a case 1 => input.b case 2 => input.select case 3 => input.start
    case 4 => input.up case 5 => input.down case 6 => input.left case _ => input.right
  }

  /** The ControllerFlags the conversion builds: bit k set exactly when the
      button reported at serial position k is held. */
  function InputFlags(input: ControllerInput): (flags: u8)
    ensures forall k :: 0 <= k < 8 ==> Bit(flags, k) == Held(input, k)
  {
    var bs := seq(8, k requires 0 <= k < 8 => Held(input, k));
    BitOfByteOf(bs);
    ByteOf(bs)
  }

  /** The flags of the buttons before serial position k that are held,
      or-ed in one at a time. */
  function FlagsUpTo(input: ControllerInput, k: nat): u8
    requires k <= 8
  {
    if k == 0 then 0
    else if Held(input, k - 1) then Or(FlagsUpTo(input, k - 1), BitValue(k - 1))
    else FlagsUpTo(input, k - 1)
  }

  /** Bit j of the flags so far is set exactly when button j comes before
      position k and is held. */
  lemma {:induction false} FlagsUpToBits(input: ControllerInput, k: nat)
    requires k <= 8
    ensures forall j :: 0 <= j < 8 ==> Bit(FlagsUpTo(input, k), j) == (j < k && Held(input, j))
  {
    if k == 0 {
      ZeroIffNoBits(0);
    } else {
      var c := k - 1;
      FlagsUpToBits(input, c);
      if Held(input, c) {
        forall j | 0 <= j < 8 ensures Bit(FlagsUpTo(input, k), j) == (j < k && Held(input, j)) {
          BitOfBitValue(c, j);
        }
      }
    }
  }

  /** Each `|=` step of the conversion, spelled out per button: or-ing in a
      held button's flag extends the flags so far by that button. */
  lemma FlagSteps(input: ControllerInput)
    ensures FlagsUpTo(input, 0) == 0
    ensures (if input.a then Or(FlagsUpTo(input, 0), A) else FlagsUpTo(input, 0)) == FlagsUpTo(input, 1)
    ensures (if input.b then Or(FlagsUpTo(input, 1), B) else FlagsUpTo(input, 1)) == FlagsUpTo(input, 2)
    ensures (if input.select then Or(FlagsUpTo(input, 2), SELECT) else FlagsUpTo(input, 2)) == FlagsUpTo(input, 3)
    ensures (if input.start then Or(FlagsUpTo(input, 3), START) else FlagsUpTo(input, 3)) == FlagsUpTo(input, 4)
    ensures (if input.up then Or(FlagsUpTo(input, 4), UP) else FlagsUpTo(input, 4)) == FlagsUpTo(input, 5)
    ensures (if input.down then Or(FlagsUpTo(input, 5), DOWN) else FlagsUpTo(input, 5)) == FlagsUpTo(input, 6)
    ensures (if input.left then Or(FlagsUpTo(input, 6), LEFT) else FlagsUpTo(input, 6)) == FlagsUpTo(input, 7)
    ensures (if input.right then Or(FlagsUpTo(input, 7), RIGHT) else FlagsUpTo(input, 7)) == FlagsUpTo(input, 8)
  {
  }

  /** Or-ing in all eight buttons gives the converted input; nothing held
      gives the empty set. */
  lemma FlagsComplete(input: ControllerInput)
    ensures FlagsUpTo(input, 8) == InputFlags(input)
    ensures InputFlags(input) == 0 <==> input == ControllerInput(false, false, false, false, false, false, false, false)
  {
    FlagsUpToBits(input, 8);
    ByteOfSameBits(FlagsUpTo(input, 8), BitsOf(InputFlags(input)));
    ByteOfBitsOf(InputFlags(input));
    ZeroIffNoBits(InputFlags(input));
    if InputFlags(input) == 0 {
      assert !Held(input, 0) && !Held(input, 1) && !Held(input, 2) && !Held(input, 3);
      assert !Held(input, 4) && !Held(input, 5) && !Held(input, 6) && !Held(input, 7);
    }
  }

  /** From<&ControllerInput> for ControllerFlags: starts from the empty set
      and ors in the flag of every held button, in the order A, B, SELECT,
      START, UP, DOWN, LEFT, RIGHT. Each boolean sets exactly its own bit,
      and nothing held gives the empty set. */
  method FlagsFromInput(input: ControllerInput) returns (flags: u8)
    ensures flags == InputFlags(input)
    ensures flags == 0 <==> input == ControllerInput(false, false, false, false, false, false, false, false)
  {
    FlagSteps(input);
    flags := 0;
    if input.a { flags := Or(flags, A); }
    if input.b { flags := Or(flags, B); }
    if input.select { flags := Or(flags, SELECT); }
    if input.start { flags := Or(flags, START); }
    if input.up { flags := Or(flags, UP); }
    if input.down { flags := Or(flags, DOWN); }
    if input.left { flags := Or(flags, LEFT); }
    if input.right { flags := Or(flags, RIGHT); }
    FlagsComplete(input);
  }

  /** A converted input fed to the controller: eight reads from a clock at a
      multiple of 8 report A at position 0 through RIGHT at position 7. */
  lemma InputSerialOrder(input: ControllerInput, clock: nat)
    requires clock % 8 == 0
    ensures forall k :: 0 <= k < 8 ==> (Reads(InputFlags(input), clock, 8)[k] == 1 <==> Held(input, k))
  {
    var out := Reads(InputFlags(input), clock, 8);
    forall k | 0 <= k < 8 ensures out[k] == 1 <==> Held(input, k) {
      SamePosition(clock, k);
    }
  }

  // ---------------------------------------------------------------------
  // Memory values

  type u32 = x: int | 0 <= x < 0x1_0000_0000

  /** `order` visits every requested key exactly once: the iteration order
      of the request map, which the program leaves to the hash map. */
  predicate IterationOrder(requests: map<string, u32>, order: seq<string>)
  {
    && (forall i :: 0 <= i < |order| ==> order[i] in requests)
    && (forall key :: key in requests ==> key in order)
    && (forall i, j :: 0 <= i < j < |order| ==> order[i] != order[j])
  }

  /** The map after recording one read: a successful read is inserted, a
      failed one is left out. */
  function Recorded(values: map<string, u32>, key: string, r: Result<u8, MemoryError>): map<string, u32>
  {
    match r
    case Ok(v) => values[key := v]
    case Err(_) => values
  }

  /** get_values from the i-th visited key on: each requested address is
      truncated to 16 bits and read without a bus cycle. */
  function ValuesFrom(b: Bus, prg: seq<u8>, chr: seq<u8>, requests: map<string, u32>, order: seq<string>,
                      i: nat, values: map<string, u32>): (out: (map<string, u32>, Bus))
    requires BusShape(b) && i <= |order|
    requires forall k :: 0 <= k < |order| ==> order[k] in requests
    ensures BusShape(out.1)
    decreases |order| - i
  {
    if i == |order| then (values, b)
    else
      var key := order[i];
      PassGetFrame(b, prg, chr, requests[key] % 0x1_0000);
      var (r, b') := PassGetSpec(b, prg, chr, requests[key] % 0x1_0000);
      ValuesFrom(b', prg, chr, requests, order, i + 1, Recorded(values, key, r))
  }

  /** NesInstance::get_values on the instance's bus. */
  method GetValues(memory: Memory, requests: map<string, u32>, order: seq<string>) returns (values: map<string, u32>)
    requires memory.Valid() && IterationOrder(requests, order)
    modifies memory.ppu, memory.pad
    ensures memory.Valid()
    ensures (values, memory.State()) ==
      ValuesFrom(old(memory.State()), memory.rom.prg_rom, memory.rom.chr_rom, requests, order, 0, map[])
  {
    values := map[];
    ghost var outcome := ValuesFrom(memory.State(), memory.rom.prg_rom, memory.rom.chr_rom, requests, order, 0, map[]);
    var i := 0;
    while i < |order|
      invariant 0 <= i <= |order| && memory.Valid()
      invariant ValuesFrom(memory.State(), memory.rom.prg_rom, memory.rom.chr_rom, requests, order, i, values) == outcome
    {
      var key := order[i];
      var address := requests[key] % 0x1_0000;
      var r := memory.PassGet(address);
      values := Recorded(values, key, r);
      i := i + 1;
    }
  }

  /** A read never changes RAM, save RAM or video memory, so neither does
      collecting values. */
  lemma {:induction false} ValuesFrame(b: Bus, prg: seq<u8>, chr: seq<u8>, requests: map<string, u32>,
                                       order: seq<string>, i: nat, values: map<string, u32>)
    requires BusShape(b) && i <= |order|
    requires forall k :: 0 <= k < |order| ==> order[k] in requests
    ensures var b' := ValuesFrom(b, prg, chr, requests, order, i, values).1;
      b'.ram == b.ram && b'.saved == b.saved && b'.video == b.video && b'.cycles == b.cycles
    decreases |order| - i
  {
    if i < |order| {
      var key := order[i];
      PassGetFrame(b, prg, chr, requests[key] % 0x1_0000);
      var (r, b') := PassGetSpec(b, prg, chr, requests[key] % 0x1_0000);
      ValuesFrame(b', prg, chr, requests, order, i + 1, Recorded(values, key, r));
    }
  }

  /** Only requested keys come back, and every value is a byte. */
  lemma {:induction false} ValuesRequested(b: Bus, prg: seq<u8>, chr: seq<u8>, requests: map<string, u32>,
                                           order: seq<string>, i: nat, values: map<string, u32>)
    requires BusShape(b) && i <= |order|
    requires forall k :: 0 <= k < |order| ==> order[k] in requests
    requires values.Keys <= requests.Keys && forall key :: key in values ==> values[key] < 0x100
    ensures var out := ValuesFrom(b, prg, chr, requests, order, i, values).0;
      out.Keys <= requests.Keys && forall key :: key in out ==> out[key] < 0x100
    decreases |order| - i
  {
    if i < |order| {
      var key := order[i];
      PassGetFrame(b, prg, chr, requests[key] % 0x1_0000);
      var (r, b') := PassGetSpec(b, prg, chr, requests[key] % 0x1_0000);
      ValuesRequested(b', prg, chr, requests, order, i + 1, Recorded(values, key, r));
    }
  }

  /** Keys not visited any more keep whatever the map held for them. */
  lemma {:induction false} ValuesUntouched(b: Bus, prg: seq<u8>, chr: seq<u8>, requests: map<string, u32>,
                                           order: seq<string>, i: nat, values: map<string, u32>, key: string)
    requires BusShape(b) && i <= |order|
    requires forall k :: 0 <= k < |order| ==> order[k] in requests
    requires forall k :: i <= k < |order| ==> order[k] != key
    ensures var out := ValuesFrom(b, prg, chr, requests, order, i, values).0;
      (key in out <==> key in values) && (key in out ==> out[key] == values[key])
    decreases |order| - i
  {
    if i < |order| {
      var k := order[i];
      PassGetFrame(b, prg, chr, requests[k] % 0x1_0000);
      var (r, b') := PassGetSpec(b, prg, chr, requests[k] % 0x1_0000);
      ValuesUntouched(b', prg, chr, requests, order, i + 1, Recorded(values, k, r), key);
    }
  }

  /** The outcome of visiting the j-th key: what its read recorded, and
      from then on the map keeps it. */
  lemma {:induction false} ValuesAt(b: Bus, prg: seq<u8>, chr: seq<u8>, requests: map<string, u32>,
                                    order: seq<string>, i: nat, values: map<string, u32>, j: nat)
    requires BusShape(b) && i <= j < |order|
    requires forall k :: 0 <= k < |order| ==> order[k] in requests
    requires forall k, l :: 0 <= k < l < |order| ==> order[k] != order[l]
    requires order[j] !in values
    requires ReadTargetOf(requests[order[j]] % 0x1_0000) == ReadNothing
      || (requests[order[j]] % 0x1_0000) <= 0x1FFF
    ensures var out := ValuesFrom(b, prg, chr, requests, order, i, values).0;
      var address := requests[order[j]] % 0x1_0000;
      && (ReadTargetOf(address) == ReadNothing ==> order[j] !in out)
      && (address <= 0x1FFF ==> order[j] in out && out[order[j]] == b.ram[address % 0x800])
    decreases |order| - i
  {
    var key := order[i];
    var address := requests[key] % 0x1_0000;
    PassGetFrame(b, prg, chr, address);
    var (r, b') := PassGetSpec(b, prg, chr, address);
    var values' := Recorded(values, key, r);
    if i < j {
      assert order[j] !in values';
      ValuesAt(b', prg, chr, requests, order, i + 1, values', j);
    } else {
      PassGetRegions(b, prg, chr, address);
      ValuesUntouched(b', prg, chr, requests, order, i + 1, values', key);
    }
  }

  /** What get_values returns, for any iteration order: keys whose address
      maps to nothing are left out rather than zero-filled, and keys whose
      truncated address falls in RAM carry the RAM byte there. */
  lemma GetValuesOutcome(b: Bus, prg: seq<u8>, chr: seq<u8>, requests: map<string, u32>, order: seq<string>)
    requires BusShape(b) && IterationOrder(requests, order)
    ensures var out := ValuesFrom(b, prg, chr, requests, order, 0, map[]).0;
      && out.Keys <= requests.Keys
      && (forall key :: key in out ==> out[key] < 0x100)
      && (forall key :: key in requests && ReadTargetOf(requests[key] % 0x1_0000) == ReadNothing ==> key !in out)
      && (forall key :: key in requests && requests[key] % 0x1_0000 <= 0x1FFF ==>
            key in out && out[key] == b.ram[(requests[key] % 0x1_0000) % 0x800])
  {
    var out := ValuesFrom(b, prg, chr, requests, order, 0, map[]).0;
    ValuesRequested(b, prg, chr, requests, order, 0, map[]);
    forall key | key in requests && (ReadTargetOf(requests[key] % 0x1_0000) == ReadNothing
                                     || requests[key] % 0x1_0000 <= 0x1FFF)
      ensures ReadTargetOf(requests[key] % 0x1_0000) == ReadNothing ==> key !in out
      ensures requests[key] % 0x1_0000 <= 0x1FFF ==>
        key in out && out[key] == b.ram[(requests[key] % 0x1_0000) % 0x800]
    {
      var j :| 0 <= j < |order| && order[j] == key;
      ValuesAt(b, prg, chr, requests, order, 0, map[], j);
    }
  }

  // ---------------------------------------------------------------------
  // Framing

  /** send_message's bytes on the wire: the payload's length as eight
      big-endian bytes, then the payload. */
  function Frame(data: seq<u8>): (f: seq<u8>)
    requires |data| < 0x1_0000_0000_0000_0000
    ensures |f| == 8 + |data| && f[..8] == Header(|data|) && f[8..] == data
  {
    var f := Header(|data|) + data;
    assert f[..8] == Header(|data|);
    f
  }

  /** Payloads whose lengths fit the eight-byte header. */
  predicate Sendable(payloads: seq<seq<u8>>)
  {
    forall i :: 0 <= i < |payloads| ==> |payloads[i]| < 0x1_0000_0000_0000_0000
  }

  /** A sequence of messages as sent, one frame after another. */
  function Frames(payloads: seq<seq<u8>>): seq<u8>
    requires Sendable(payloads)
  {
    if |payloads| == 0 then [] else Frame(payloads[0]) + Frames(payloads[1..])
  }

  /** The frames of a message followed by more messages. */
  lemma FramesCons(p: seq<u8>, rest: seq<seq<u8>>)
    requires |p| < 0x1_0000_0000_0000_0000 && Sendable(rest)
    ensures Sendable([p] + rest) && Frames([p] + rest) == Frame(p) + Frames(rest)
  {
    var s := [p] + rest;
    assert s[0] == p && s[1..] == rest;
  }

  /** The frame a pop hands out, if any, as it was on the wire. */
  function Emitted(r: Option<seq<u8>>): seq<u8>
    requires r.Some? ==> |r.value| < 0x1_0000_0000_0000_0000
  {
    match r
    case None => []
    case Some(p) => Frame(p)
  }

  /** The payloads a take hands out, ahead of the ones handed out after it. */
  function Handed(r: Option<seq<u8>>, rest: seq<seq<u8>>): seq<seq<u8>>
  {
    match r
    case None => rest
    case Some(p) => [p] + rest
  }

  lemma FramesHanded(r: Option<seq<u8>>, rest: seq<seq<u8>>)
    requires r.Some? ==> |r.value| < 0x1_0000_0000_0000_0000
    requires Sendable(rest)
    ensures Sendable(Handed(r, rest)) && Frames(Handed(r, rest)) == Emitted(r) + Frames(rest)
  {
    match r
    case None =>
    case Some(p) => FramesCons(p, rest);
  }

  /** One step of a run that starts with an arrival. */
  lemma RunArrive(events: seq<Event>, data: seq<u8>, size: Option<u64>, buffer: seq<u8>)
    requires |events| > 0 && events[0] == Arrive(data)
    ensures Run(events, size, buffer) == Run(events[1..], size, buffer + data)
    ensures Arrived(events) == data + Arrived(events[1..])
  {
  }

  /** One step of a run that starts with a take. */
  lemma RunTake(events: seq<Event>, size: Option<u64>, buffer: seq<u8>, r: Option<seq<u8>>, size': Option<u64>, buffer': seq<u8>)
    requires |events| > 0 && events[0] == Take
    requires (r, size', buffer') == PopSpec(size, buffer)
    ensures var (rest, size'', buffer'') := Run(events[1..], size', buffer');
      Run(events, size, buffer) == (Handed(r, rest), size'', buffer'')
    ensures Arrived(events) == Arrived(events[1..])
  {
  }

  /** A pop never loses or invents a byte, stated with the frame it hands
      out. */
  lemma PopEmits(size: Option<u64>, buffer: seq<u8>, r: Option<seq<u8>>, size': Option<u64>, buffer': seq<u8>)
    requires (r, size', buffer') == PopSpec(size, buffer)
    ensures r.Some? ==> |r.value| < 0x1_0000_0000_0000_0000
    ensures Unread(size, buffer) == Emitted(r) + Unread(size', buffer')
  {
    PopKeepsStream(size, buffer);
  }

  lemma Associative<T>(u: seq<T>, v: seq<T>, w: seq<T>)
    ensures (u + v) + w == u + (v + w)
  {
  }

  /** What a run hands out, re-encoded as frames, followed by what it leaves
      unread, is what was unread before followed by what arrived. */
  predicate StreamKept(events: seq<Event>, size: Option<u64>, buffer: seq<u8>)
  {
    var (popped, size', buffer') := Run(events, size, buffer);
    Frames(popped) + Unread(size', buffer') == Unread(size, buffer) + Arrived(events)
  }

  /** The bytes a run pops out, re-encoded, plus what it leaves unread, are
      what was unread before plus what arrived. */
  lemma {:induction false} RunKeepsStream(events: seq<Event>, size: Option<u64>, buffer: seq<u8>)
    ensures StreamKept(events, size, buffer)
    decreases |events|
  {
    if |events| > 0 {
      match events[0]
      case Arrive(data) =>
        RunKeepsStream(events[1..], size, buffer + data);
        ArriveKeepsStream(events, data, size, buffer);
      case Take =>
        var (_, size', buffer') := PopSpec(size, buffer);
        RunKeepsStream(events[1..], size', buffer');
        TakeKeepsStream(events, size, buffer);
    }
  }

  /** An arrival appends to the buffer and to what arrived alike. */
  lemma ArriveKeepsStream(events: seq<Event>, data: seq<u8>, size: Option<u64>, buffer: seq<u8>)
    requires |events| > 0 && events[0] == Arrive(data)
    requires StreamKept(events[1..], size, buffer + data)
    ensures StreamKept(events, size, buffer)
  {
    RunArrive(events, data, size, buffer);
    var (popped, size', buffer') := Run(events[1..], size, buffer + data);
    assert Unread(size, buffer + data) == Unread(size, buffer) + data;
    Associative(Unread(size, buffer), data, Arrived(events[1..]));
  }

  /** A take moves one frame, if any, from the unread bytes to the frames
      handed out. */
  lemma TakeKeepsStream(events: seq<Event>, size: Option<u64>, buffer: seq<u8>)
    requires |events| > 0 && events[0] == Take
    requires StreamKept(events[1..], PopSpec(size, buffer).1, PopSpec(size, buffer).2)
    ensures StreamKept(events, size, buffer)
  {
    var (r, size', buffer') := PopSpec(size, buffer);
    RunTake(events, size, buffer, r, size', buffer');
    PopEmits(size, buffer, r, size', buffer');
    var (rest, size'', buffer'') := Run(events[1..], size', buffer');
    FramesHanded(r, rest);
    var tail := Unread(size'', buffer'');
    Associative(Emitted(r), Frames(rest), tail);
    Associative(Emitted(r), Unread(size', buffer'), Arrived(events[1..]));
  }

  /** Frame parsing is unambiguous: if the frames of `a` followed by
      anything are the frames of `b`, then `a` is a prefix of `b` and the
      anything is the frames of the rest of `b`. */
  lemma {:induction false} FramesPrefix(a: seq<seq<u8>>, x: seq<u8>, b: seq<seq<u8>>)
    requires Sendable(a) && Sendable(b)
    requires Frames(a) + x == Frames(b)
    ensures |a| <= |b| && a == b[..|a|] && x == Frames(b[|a|..])
    decreases |a|
  {
    if |a| == 0 {
      assert b[0..] == b;
    } else {
      FirstFrame(a, x, b);
      FramesPrefix(a[1..], x, b[1..]);
      PrefixCons(a, b);
    }
  }

  /** The first frames agree and the rest of `a`'s frames, followed by `x`,
      are the rest of `b`'s. */
  lemma FirstFrame(a: seq<seq<u8>>, x: seq<u8>, b: seq<seq<u8>>)
    requires Sendable(a) && Sendable(b) && |a| > 0
    requires Frames(a) + x == Frames(b)
    ensures |b| > 0 && a[0] == b[0] && Frames(a[1..]) + x == Frames(b[1..])
  {
    FramesFirst(a);
    assert |b| > 0;
    FramesFirst(b);
    Associative(Frame(a[0]), Frames(a[1..]), x);
    SameFrame(a[0], b[0], Frames(a[1..]) + x, Frames(b[1..]));
  }

  lemma FramesFirst(a: seq<seq<u8>>)
    requires Sendable(a) && |a| > 0
    ensures Frames(a) == Frame(a[0]) + Frames(a[1..])
  {
  }

  lemma PrefixCons<T>(a: seq<T>, b: seq<T>)
    requires 0 < |a| <= |b| && a[0] == b[0] && a[1..] == b[1..][..|a| - 1]
    ensures a == b[..|a|] && b[|a|..] == b[1..][|a| - 1..]
  {
    assert a == [a[0]] + a[1..];
  }

  /** Two frames that start the same byte string are the same frame. */
  lemma SameFrame(p: seq<u8>, q: seq<u8>, x: seq<u8>, y: seq<u8>)
    requires |p| < 0x1_0000_0000_0000_0000 && |q| < 0x1_0000_0000_0000_0000
    requires Frame(p) + x == Frame(q) + y
    ensures p == q && x == y
  {
    assert Frame(p)[..8] == (Frame(p) + x)[..8] == (Frame(q) + y)[..8] == Frame(q)[..8];
    assert |p| == |q|;
    assert Frame(p) == (Frame(p) + x)[..8 + |p|] == (Frame(q) + y)[..8 + |q|] == Frame(q);
    assert p == Frame(p)[8..] == Frame(q)[8..] == q;
    assert x == (Frame(p) + x)[8 + |p|..] == (Frame(q) + y)[8 + |q|..] == y;
  }

  /** `m` takes in a row. */
  function Takes(m: nat): seq<Event>
  {
    seq(m, _ => Take)
  }

  lemma TakesFirst(m: nat)
    requires m > 0
    ensures |Takes(m)| > 0 && Takes(m)[0] == Take && Takes(m)[1..] == Takes(m - 1)
  {
  }

  /** With the frames of `payloads` unread, enough takes hand out exactly
      those payloads, in order. */
  lemma {:induction false} Drain(size: Option<u64>, buffer: seq<u8>, payloads: seq<seq<u8>>, m: nat)
    requires Sendable(payloads) && m >= |payloads|
    requires Unread(size, buffer) == Frames(payloads)
    ensures Run(Takes(m), size, buffer).0 == payloads
    decreases m
  {
    if m > 0 {
      TakesFirst(m);
      var (r, size', buffer') := PopSpec(size, buffer);
      RunTake(Takes(m), size, buffer, r, size', buffer');
      if |payloads| == 0 {
        PopNothingUnread(size, buffer);
        Drain(size', buffer', payloads, m - 1);
      } else {
        DrainFirst(size, buffer, payloads, r, size', buffer');
        Drain(size', buffer', payloads[1..], m - 1);
        assert payloads == [payloads[0]] + payloads[1..];
      }
    }
  }

  /** With a frame unread first, a take hands out its payload and leaves the
      frames of the rest. */
  lemma DrainFirst(size: Option<u64>, buffer: seq<u8>, payloads: seq<seq<u8>>, r: Option<seq<u8>>, size': Option<u64>, buffer': seq<u8>)
    requires Sendable(payloads) && |payloads| > 0
    requires Unread(size, buffer) == Frames(payloads)
    requires (r, size', buffer') == PopSpec(size, buffer)
    ensures r == Some(payloads[0]) && Unread(size', buffer') == Frames(payloads[1..])
  {
    FramesFirst(payloads);
    PopWholeFrame(size, buffer, payloads[0], Frames(payloads[1..]));
    PopEmits(size, buffer, r, size', buffer');
    SameFrame(payloads[0], payloads[0], Unread(size', buffer'), Frames(payloads[1..]));
  }

  /** Running two stretches of events is running the first, then the second
      from where the first left off. */
  lemma {:induction false} RunAppend(first: seq<Event>, second: seq<Event>, size: Option<u64>, buffer: seq<u8>)
    ensures RunsAppend(first, second, size, buffer)
    decreases |first|
  {
    if |first| > 0 {
      match first[0]
      case Arrive(data) =>
        RunAppend(first[1..], second, size, buffer + data);
        ArriveAppends(first, second, data, size, buffer);
      case Take =>
        var (_, size', buffer') := PopSpec(size, buffer);
        RunAppend(first[1..], second, size', buffer');
        TakeAppends(first, second, size, buffer);
    } else {
      assert first + second == second;
      assert Run(first, size, buffer) == ([], size, buffer);
      var out := Run(second, size, buffer);
      assert [] + out.0 == out.0;
    }
  }

  predicate RunsAppend(first: seq<Event>, second: seq<Event>, size: Option<u64>, buffer: seq<u8>)
  {
    var (p1, s1, b1) := Run(first, size, buffer);
    var (p2, s2, b2) := Run(second, s1, b1);
    Run(first + second, size, buffer) == (p1 + p2, s2, b2)
  }

  lemma ArriveAppends(first: seq<Event>, second: seq<Event>, data: seq<u8>, size: Option<u64>, buffer: seq<u8>)
    requires |first| > 0 && first[0] == Arrive(data)
    requires RunsAppend(first[1..], second, size, buffer + data)
    ensures RunsAppend(first, second, size, buffer)
  {
    assert (first + second)[0] == first[0] && (first + second)[1..] == first[1..] + second;
    RunArrive(first, data, size, buffer);
    RunArrive(first + second, data, size, buffer);
  }

  lemma TakeAppends(first: seq<Event>, second: seq<Event>, size: Option<u64>, buffer: seq<u8>)
    requires |first| > 0 && first[0] == Take
    requires RunsAppend(first[1..], second, PopSpec(size, buffer).1, PopSpec(size, buffer).2)
    ensures RunsAppend(first, second, size, buffer)
  {
    assert (first + second)[0] == first[0] && (first + second)[1..] == first[1..] + second;
    var (r, size', buffer') := PopSpec(size, buffer);
    RunTake(first, size, buffer, r, size', buffer');
    RunTake(first + second, size, buffer, r, size', buffer');
    var p1 := Run(first[1..], size', buffer').0;
    var p2 := Run(second, Run(first[1..], size', buffer').1, Run(first[1..], size', buffer').2).0;
    HandedAppend(r, p1, p2);
  }

  lemma HandedAppend(r: Option<seq<u8>>, p1: seq<seq<u8>>, p2: seq<seq<u8>>)
    ensures Handed(r, p1 + p2) == Handed(r, p1) + p2
  {
    match r
    case None =>
    case Some(p) => Associative([p], p1, p2);
  }

  /** The framing round trip: however the bytes of a sequence of sent
      messages are split into chunks as they arrive, and wherever pops are
      made in between, the pops hand out a prefix of the messages in order;
      as many further pops as there were messages hand out all of them,
      each exactly once. */
  lemma FramesArriveInOrder(events: seq<Event>, payloads: seq<seq<u8>>)
    requires Sendable(payloads) && Arrived(events) == Frames(payloads)
    ensures var popped := Run(events, None, []).0;
      |popped| <= |payloads| && popped == payloads[..|popped|]
    ensures Run(events + Takes(|payloads|), None, []).0 == payloads
  {
    var (popped, size, buffer) := Run(events, None, []);
    RunKeepsStream(events, None, []);
    FramesPrefix(popped, Unread(size, buffer), payloads);
    Drain(size, buffer, payloads[|popped|..], |payloads|);
    RunAppend(events, Takes(|payloads|), None, []);
    assert payloads == popped + payloads[|popped|..];
  }
}
