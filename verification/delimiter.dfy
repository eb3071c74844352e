/** The receiving side of the emulator server's framing: bytes arrive in
    arbitrary chunks, and a Delimiter cuts complete frames (an eight-byte
    big-endian length, then that many payload bytes) off the front of what
    it has buffered. */
module Framing {
  import opened Wrappers
  import opened Bytes

  type u64 = x: int | 0 <= x < 0x1_0000_0000_0000_0000

  /** 256 to the power k: one more than the largest k-byte value. */
  function Power(k: nat): (p: nat)
    ensures p >= 1
  {
    if k == 0 then 1 else 0x100 * Power(k - 1)
  }

  /** The value of a byte string read most significant byte first, as
      `u64::from_be_bytes` reads its eight bytes. */
  function BigEndian(bs: seq<u8>): (n: nat)
    ensures n < Power(|bs|)
  {
    if |bs| == 0 then 0 else BigEndian(bs[..|bs| - 1]) * 0x100 + bs[|bs| - 1]
  }

  lemma QuotientBound(n: nat, p: nat)
    requires n < 0x100 * p
    ensures n / 0x100 < p
  {
  }

  /** The k-byte big-endian encoding of n, as `to_be_bytes` writes it; it
      reads back as n. */
  function BeBytes(n: nat, k: nat): (bs: seq<u8>)
    requires n < Power(k)
    ensures |bs| == k && BigEndian(bs) == n
  {
    if k == 0 then []
    else
      QuotientBound(n, Power(k - 1));
      var front := BeBytes(n / 0x100, k - 1);
      assert (front + [n % 0x100])[..k - 1] == front;
      front + [n % 0x100]
  }

  /** Two encodings of the same width are equal only for equal values. */
  lemma BeBytesInjective(m: nat, n: nat, k: nat)
    requires m < Power(k) && n < Power(k) && BeBytes(m, k) == BeBytes(n, k)
    ensures m == n
  {
  }

  lemma EightBytes()
    ensures Power(8) == 0x1_0000_0000_0000_0000
  {
  }

  /** The eight-byte header announcing a frame of n bytes. */
  function Header(n: u64): (h: seq<u8>)
    ensures |h| == 8 && BigEndian(h) == n
  {
    EightBytes();
    BeBytes(n, 8)
  }

  /** Eight bytes and the header of the length they announce are the same
      bytes. */
  lemma HeaderOfBigEndian(h: seq<u8>)
    requires |h| == 8
    ensures BigEndian(h) < 0x1_0000_0000_0000_0000 && Header(BigEndian(h)) == h
  {
    EightBytes();
    BigEndianInjective(h, Header(BigEndian(h)));
  }

  /** Byte strings of the same length and value are equal. */
  lemma {:induction false} BigEndianInjective(a: seq<u8>, b: seq<u8>)
    requires |a| == |b| && BigEndian(a) == BigEndian(b)
    ensures a == b
  {
    if |a| > 0 {
      var k := |a| - 1;
      LastDigit(BigEndian(a[..k]), a[k], BigEndian(b[..k]), b[k]);
      BigEndianInjective(a[..k], b[..k]);
      assert a == a[..k] + [a[k]] && b == b[..k] + [b[k]];
    }
  }

  /** A number in base 256 determines its last digit and the rest. */
  lemma LastDigit(x: nat, d: u8, y: nat, e: u8)
    requires x * 0x100 + d == y * 0x100 + e
    ensures x == y && d == e
  {
  }

  /** What one `pop` does to the announced size and the buffer, and what it
      returns. */
  function PopSpec(size: Option<u64>, buffer: seq<u8>): (Option<seq<u8>>, Option<u64>, seq<u8>)
  {
    var (size1, buffer1) := ReadHeader(size, buffer);
    match size1
    case None => (None, size1, buffer1)
    case Some(n) =>
      if |buffer1| >= n then (Some(buffer1[..n]), None, buffer1[n..]) else (None, size1, buffer1)
  }

  /** The first half of `pop`: with no size pending and at least eight bytes
      buffered, the first eight become the pending size. */
  function ReadHeader(size: Option<u64>, buffer: seq<u8>): (Option<u64>, seq<u8>)
  {
    if size.None? && |buffer| >= 8 then
      EightBytes();
      var n: u64 := BigEndian(buffer[..8]);
      (Some(n), buffer[8..])
    else (size, buffer)
  }

  /** The bytes a delimiter has taken in but not yet handed out: the header
      of a pending size, if there is one, then the buffer. */
  function Unread(size: Option<u64>, buffer: seq<u8>): seq<u8>
  {
    match size
    case None => buffer
    case Some(n) => Header(n) + buffer
  }

  /** With no size pending and at least eight bytes buffered, `pop` consumes
      exactly those eight bytes as the big-endian length; what follows is
      handed out only when the whole payload is there. */
  lemma PopReadsHeader(buffer: seq<u8>)
    requires |buffer| >= 8
    ensures var n := BigEndian(buffer[..8]);
      PopSpec(None, buffer) ==
        if |buffer| - 8 >= n then (Some(buffer[8..8 + n]), None, buffer[8 + n..])
        else (None, Some(n), buffer[8..])
  {
    var n := BigEndian(buffer[..8]);
    if |buffer| - 8 >= n {
      assert buffer[8..][..n] == buffer[8..8 + n];
      assert buffer[8..][n..] == buffer[8 + n..];
    }
  }

  /** With fewer than eight bytes and no size pending, `pop` returns nothing
      and consumes nothing. */
  lemma PopShortHeader(buffer: seq<u8>)
    requires |buffer| < 8
    ensures PopSpec(None, buffer) == (None, None, buffer)
  {
  }

  /** With a size pending, `pop` hands out the first `size` bytes, removes
      them and clears the size exactly when that many are buffered, and
      otherwise changes nothing. */
  lemma PopPendingSize(n: u64, buffer: seq<u8>)
    ensures var (r, size', buffer') := PopSpec(Some(n), buffer);
      && (r.Some? <==> |buffer| >= n)
      && (r.Some? ==> r.value == buffer[..n] && size' == None && buffer' == buffer[n..])
      && (r.None? ==> size' == Some(n) && buffer' == buffer)
  {
  }

  /** A zero-length frame pops as an empty payload. */
  lemma PopEmptyFrame(rest: seq<u8>)
    ensures PopSpec(None, Header(0) + rest) == (Some([]), None, rest)
  {
    PopReadsHeader(Header(0) + rest);
    assert (Header(0) + rest)[..8] == Header(0);
    assert (Header(0) + rest)[8..] == rest;
  }

  /** `pop` never loses or invents a byte: what was unread before is the
      frame it handed out (header and payload) followed by what is unread
      after. */
  lemma PopKeepsStream(size: Option<u64>, buffer: seq<u8>)
    ensures var (r, size', buffer') := PopSpec(size, buffer);
      Unread(size, buffer) ==
        (match r case None => [] case Some(p) => Header(|p|) + p) + Unread(size', buffer')
  {
    var (size1, buffer1) := ReadHeader(size, buffer);
    ReadHeaderKeepsStream(size, buffer);
    match size1
    case None =>
    case Some(n) =>
      if |buffer1| >= n {
        assert buffer1 == buffer1[..n] + buffer1[n..];
      }
  }

  /** Reading the header moves its eight bytes from the buffer into the
      pending size, so the unread bytes stay the same. */
  lemma ReadHeaderKeepsStream(size: Option<u64>, buffer: seq<u8>)
    ensures Unread(ReadHeader(size, buffer).0, ReadHeader(size, buffer).1) == Unread(size, buffer)
  {
    if size.None? && |buffer| >= 8 {
      HeaderOfBigEndian(buffer[..8]);
      assert buffer == buffer[..8] + buffer[8..];
    }
  }

  /** When the unread bytes begin with a whole frame, `pop` hands out its
      payload. */
  lemma PopWholeFrame(size: Option<u64>, buffer: seq<u8>, payload: seq<u8>, rest: seq<u8>)
    requires |payload| < 0x1_0000_0000_0000_0000
    requires Unread(size, buffer) == Header(|payload|) + payload + rest
    ensures PopSpec(size, buffer).0 == Some(payload)
  {
    match size
    case None => PopBufferedFrame(buffer, payload, rest);
    case Some(n) => PopPendingFrame(n, buffer, payload, rest);
  }

  lemma PopBufferedFrame(buffer: seq<u8>, payload: seq<u8>, rest: seq<u8>)
    requires |payload| < 0x1_0000_0000_0000_0000
    requires buffer == Header(|payload|) + payload + rest
    ensures PopSpec(None, buffer).0 == Some(payload)
  {
    var h := Header(|payload|);
    assert buffer[..8] == h;
    var tail := buffer[8..];
    assert tail == payload + rest;
    assert tail[..|payload|] == payload;
    var n: u64 := |payload|;
    assert ReadHeader(None, buffer) == (Some(n), tail);
  }

  lemma PopPendingFrame(n: u64, buffer: seq<u8>, payload: seq<u8>, rest: seq<u8>)
    requires |payload| < 0x1_0000_0000_0000_0000
    requires Header(n) + buffer == Header(|payload|) + payload + rest
    ensures PopSpec(Some(n), buffer).0 == Some(payload)
  {
    assert Header(n) == (Header(n) + buffer)[..8] == Header(|payload|);
    assert n == |payload|;
    assert buffer == (Header(n) + buffer)[8..] == payload + rest;
    assert buffer[..n] == payload;
  }

  /** Nothing unread: `pop` returns nothing. */
  lemma PopNothingUnread(size: Option<u64>, buffer: seq<u8>)
    requires Unread(size, buffer) == []
    ensures PopSpec(size, buffer) == (None, None, [])
  {
  }

  /** The server's input side: chunks arrive from the socket and frames are
      taken off. */
  datatype Event = Arrive(data: seq<u8>) | Take

  /** The state after a run of events from a given state, with the payloads
      the takes handed out, in order. */
  function Run(events: seq<Event>, size: Option<u64>, buffer: seq<u8>): (out: (seq<seq<u8>>, Option<u64>, seq<u8>))
    ensures forall i :: 0 <= i < |out.0| ==> |out.0[i]| < 0x1_0000_0000_0000_0000
    decreases |events|
  {
    if |events| == 0 then ([], size, buffer)
    else match events[0]
      case Arrive(data) => Run(events[1..], size, buffer + data)
      case Take =>
        var (r, size', buffer') := PopSpec(size, buffer);
        var (rest, size'', buffer'') := Run(events[1..], size', buffer');
        (match r case None => rest case Some(p) => [p] + rest, size'', buffer'')
  }

  /** All bytes that arrive during a run. */
  function Arrived(events: seq<Event>): seq<u8>
    decreases |events|
  {
    if |events| == 0 then []
    else (match events[0] case Arrive(data) => data case Take => []) + Arrived(events[1..])
  }

  class Delimiter {
    /** The length announced by a header already consumed, while its payload
        is still incomplete. */
    var size: Option<u64>
    var buffer: seq<u8>

    /** Delimiter::default: nothing pending, nothing buffered. */
    constructor ()
      ensures size == None && buffer == []
    {
      size := None;
      buffer := [];
    }

    /** Appends the data to the end of the buffer and changes nothing else. */
    method Push(data: seq<u8>)
      modifies this
      ensures buffer == old(buffer) + data && size == old(size)
      ensures Unread(size, buffer) == Unread(old(size), old(buffer)) + data
    {
      buffer := buffer + data;
    }

    /** Takes the next complete frame's payload, if it has fully arrived. */
    method Pop() returns (r: Option<seq<u8>>)
      modifies this
      ensures (r, size, buffer) == PopSpec(old(size), old(buffer))
      ensures Unread(old(size), old(buffer)) ==
        (match r case None => [] case Some(p) => Header(|p|) + p) + Unread(size, buffer)
    {
      PopKeepsStream(size, buffer);
      if size.None? && |buffer| >= 8 {
        var header := buffer[..8];
        EightBytes();
        var n: u64 := BigEndian(header);
        buffer := buffer[8..];
        size := Some(n);
      }
      match size {
        case None =>
          r := None;
        case Some(n) =>
          if |buffer| >= n {
            size := None;
            r := Some(buffer[..n]);
            buffer := buffer[n..];
          } else {
            r := None;
          }
      }
    }
  }
}
