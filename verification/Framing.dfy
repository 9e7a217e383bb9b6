/**
 The length-prefixed frame codec of util/length_prefixed_codec.h: a 4-byte big-endian
 payload length, then the payload.  `Decode` says what one call does to the unread bytes
 of a Buffer; the lemmas say what that means for whole streams.
 */
module Framing {
  import opened Bytes
  import opened BigEndian
  import opened ByteBuffer

  const U32_MODULUS := 0x1_0000_0000

  /** The largest limit for which the 32-bit sum 4 + len cannot wrap. */
  const SAFE_LIMIT := U32_MODULUS - 5

  /** One frame.  The length field keeps only the low 32 bits of the payload size. */
  function Frame(payload: bytes): bytes {
    Octets(|payload|, 4) + payload
  }

  function Frames(payloads: seq<bytes>): bytes {
    if payloads == [] then [] else Frame(payloads[0]) + Frames(payloads[1..])
  }

  /** What the receiver's limit lets through: neither empty nor too long. */
  predicate Sendable(payload: bytes, max: nat) {
    1 <= |payload| <= max
  }

  predicate AllSendable(payloads: seq<bytes>, max: nat) {
    forall p :: p in payloads ==> Sendable(p, max)
  }

  /** Good: everything seen so far is legal.  Bad: an illegal length, the connection must
      go.  Overrun: the 32-bit sum 4 + len wrapped and the code would copy past the
      readable bytes. */
  datatype Verdict = Good | Bad | Overrun

  datatype Decoded = Decoded(frames: seq<bytes>, verdict: Verdict, rest: bytes)

  /** What the head of the unread bytes allows: take one frame, or stop with a verdict. */
  datatype Peeled = Take(payload: bytes, tail: bytes) | Stop(verdict: Verdict)

  function Peel(input: bytes, max: nat): (r: Peeled)
    ensures r.Take? ==> input == Frame(r.payload) + r.tail && Sendable(r.payload, max) && |r.tail| < |input|
  {
    if |input| < 4 then
      Stop(Good)
    else
      var len := Value(input[..4]);
      if len == 0 || len > max then
        Stop(Bad)
      else if |input| < (4 + len) % U32_MODULUS then
        Stop(Good)
      else if |input| < 4 + len then
        Stop(Overrun)
      else
        OctetsOfValue(input[..4]);
        assert input == input[..4] + input[4..4 + len] + input[4 + len..];
        Take(input[4..4 + len], input[4 + len..])
  }

  function Decode(input: bytes, max: nat): Decoded
    decreases |input|
  {
    match Peel(input, max)
    case Stop(verdict) => Decoded([], verdict, input)
    case Take(payload, tail) =>
      var r := Decode(tail, max);
      Decoded([payload] + r.frames, r.verdict, r.rest)
  }

  method EncodeFrame(payload: bytes) returns (out: bytes)
    ensures out == Frame(payload)
  {
    var len := |payload| % U32_MODULUS;
    out := seq(4 + |payload|, _ => 0);
    out := out[0 := len / 0x100_0000 % 256];
    out := out[1 := len / 0x1_0000 % 256];
    out := out[2 := len / 0x100 % 256];
    out := out[3 := len % 256];
    out := out[..4] + payload;
    FourOctets(|payload|);
    assert out[..4] == Octets(|payload|, 4);
  }

  lemma {:induction false} FourOctets(n: nat)
    ensures var len := n % U32_MODULUS;
            Octets(n, 4) == [len / 0x100_0000 % 256, len / 0x1_0000 % 256, len / 0x100 % 256, len % 256]
  {
    var n1 := n / 256;
    var n2 := n1 / 256;
    var n3 := n2 / 256;
    assert Octets(n3, 1) == [n3 % 256];
    assert Octets(n2, 2) == [n3 % 256, n2 % 256];
    assert Octets(n1, 3) == [n3 % 256, n2 % 256, n1 % 256];
    LowWord(n);
  }

  /** Masking octets out of the low 32 bits gives the same octets as out of the whole number. */
  lemma {:induction false} LowWord(n: nat)
    ensures var len := n % U32_MODULUS;
            && len % 256 == n % 256
            && len / 0x100 % 256 == n / 256 % 256
            && len / 0x1_0000 % 256 == n / 256 / 256 % 256
            && len / 0x100_0000 % 256 == n / 256 / 256 / 256 % 256
  {
    var n1 := n / 256;
    var n2 := n1 / 256;
    var n3 := n2 / 256;
    FourDigits(n % 256, n1 % 256, n2 % 256, n3 % 256);
    var low := (n3 % 256) * 0x100_0000 + (n2 % 256) * 0x1_0000 + (n1 % 256) * 0x100 + n % 256;
    assert n == (n3 / 256) * U32_MODULUS + low;
    assert n % U32_MODULUS == low;
  }

  lemma {:induction false} FourDigits(b0: nat, b1: nat, b2: nat, b3: nat)
    requires b0 < 256 && b1 < 256 && b2 < 256 && b3 < 256
    ensures var len := b3 * 0x100_0000 + b2 * 0x1_0000 + b1 * 0x100 + b0;
            && 0 <= len < U32_MODULUS
            && len % 256 == b0
            && len / 0x100 % 256 == b1
            && len / 0x1_0000 % 256 == b2
            && len / 0x100_0000 % 256 == b3
  {
    var len := b3 * 0x100_0000 + b2 * 0x1_0000 + b1 * 0x100 + b0;
    assert len / 0x100 == b3 * 0x1_0000 + b2 * 0x100 + b1;
    assert len / 0x1_0000 == b3 * 0x100 + b2;
    assert len / 0x100_0000 == b3;
  }

  lemma {:induction false} ValueOfFour(b0: byte, b1: byte, b2: byte, b3: byte)
    ensures Value([b0, b1, b2, b3]) == (b0 as int) * 0x100_0000 + (b1 as int) * 0x1_0000 + (b2 as int) * 0x100 + b3
  {
    assert [b0, b1, b2, b3][..3] == [b0, b1, b2] && [b0, b1, b2][..2] == [b0, b1] && [b0, b1][..1] == [b0];
    assert Value([b0]) == b0;
    assert Value([b0, b1]) == (b0 as int) * 0x100 + b1;
    assert Value([b0, b1, b2]) == (b0 as int) * 0x1_0000 + (b1 as int) * 0x100 + b2;
  }

  /** The big-endian length at the head of the unread bytes. */
  method PeekUint32(input: Buffer) returns (n: nat)
    requires input.Valid() && |input.Readable()| >= 4
    ensures n == Value(input.Readable()[..4])
  {
    var b0 := input.PeekAt(0);
    var b1 := input.PeekAt(1);
    var b2 := input.PeekAt(2);
    var b3 := input.PeekAt(3);
    n := (b0 as int) * 0x100_0000 + (b1 as int) * 0x1_0000 + (b2 as int) * 0x100 + b3;
    ghost var s := input.Readable()[..4];
    assert s == [b0, b1, b2, b3];
    ValueOfFour(b0, b1, b2, b3);
  }

  /** Takes one frame off the buffer, if its head allows. */
  method TakeFrame(input: Buffer, max: nat) returns (payload: Option<bytes>, verdict: Verdict)
    requires input.Valid() && max < U32_MODULUS
    modifies input
    ensures input.Valid() && input.data == old(input.data)
    ensures match Peel(old(input.Readable()), max)
            case Stop(v) => payload == None && verdict == v && input.Readable() == old(input.Readable())
            case Take(p, tail) => payload == Some(p) && verdict == Good && input.Readable() == tail
  {
    hide Frame, Value;
    var readable := input.ReadableBytes();
    if readable < 4 {
      return None, Good;
    }
    var len := PeekUint32(input);
    if len == 0 || len > max {
      return None, Bad;
    }
    if readable < (4 + len) % U32_MODULUS {
      return None, Good;
    }
    if readable < 4 + len {
      return None, Overrun;
    }
    ghost var before := input.Readable();
    input.Retrieve(4);
    var s := input.RetrieveAsString(len);
    assert input.Readable() == before[4 + len..] && s == before[4..4 + len];
    return Some(s), Good;
  }

  /** Splits every complete frame off the buffer and appends it to out. */
  method DecodeBuffer(input: Buffer, out: seq<bytes>, max: nat) returns (frames: seq<bytes>, verdict: Verdict)
    requires input.Valid() && max < U32_MODULUS
    modifies input
    ensures input.Valid() && input.data == old(input.data)
    ensures var r := Decode(old(input.Readable()), max);
            frames == out + r.frames && verdict == r.verdict && input.Readable() == r.rest
  {
    hide Peel;
    frames := out;
    ghost var whole := Decode(input.Readable(), max);
    while true
      invariant input.Valid() && input.data == old(input.data)
      invariant var r := Decode(input.Readable(), max);
                out + whole.frames == frames + r.frames && whole.verdict == r.verdict && whole.rest == r.rest
      decreases |input.Readable()|
    {
      var payload, stop := TakeFrame(input, max);
      if payload.None? {
        return frames, stop;
      }
      ghost var r := Decode(input.Readable(), max);
      assert frames + ([payload.value] + r.frames) == frames + [payload.value] + r.frames;
      frames := frames + [payload.value];
    }
  }

  // ----- what is on the wire -----

  ghost predicate Incomplete(rest: bytes, max: nat) {
    |rest| < 4 || (1 <= Value(rest[..4]) <= max && |rest| < 4 + Value(rest[..4]))
  }

  ghost predicate Illegal(rest: bytes, max: nat) {
    |rest| >= 4 && !(1 <= Value(rest[..4]) <= max)
  }

  /** The one way to read a stream: whole legal frames, then bytes that start no further frame. */
  ghost predicate Reads(stream: bytes, max: nat, r: Decoded) {
    && stream == Frames(r.frames) + r.rest
    && AllSendable(r.frames, max)
    && Ends(r.rest, max, r.verdict)
  }

  ghost predicate Ends(rest: bytes, max: nat, verdict: Verdict) {
    match verdict
    case Good => Incomplete(rest, max)
    case Bad => Illegal(rest, max)
    case Overrun => false
  }

  lemma PeelFrame(payload: bytes, tail: bytes, max: nat)
    requires Sendable(payload, max) && max <= SAFE_LIMIT
    ensures Peel(Frame(payload) + tail, max) == Take(payload, tail)
  {
    var s := Frame(payload) + tail;
    assert s[..4] == Octets(|payload|, 4);
    assert Pow256(4) == U32_MODULUS by {
      assert Pow256(4) == 256 * Pow256(3) && Pow256(3) == 256 * Pow256(2) && Pow256(2) == 256 * Pow256(1);
    }
    ValueOfOctets(|payload|, 4);
    assert s[4..4 + |payload|] == payload && s[4 + |payload|..] == tail;
  }

  lemma PeelStops(rest: bytes, max: nat, verdict: Verdict)
    requires max <= SAFE_LIMIT
    ensures Peel(rest, max) == Stop(verdict) <==> Ends(rest, max, verdict)
  {
  }

  lemma {:induction false} DecodeReads(stream: bytes, max: nat)
    requires max <= SAFE_LIMIT
    ensures Reads(stream, max, Decode(stream, max))
    decreases |stream|
  {
    hide Peel, Ends, Frame;
    match Peel(stream, max)
    case Stop(verdict) =>
      PeelStops(stream, max, verdict);
      assert stream == Frames([]) + stream;
    case Take(payload, tail) =>
      DecodeReads(tail, max);
      var r := Decode(tail, max);
      assert ([payload] + r.frames)[1..] == r.frames;
      assert Frame(payload) + (Frames(r.frames) + r.rest) == Frame(payload) + Frames(r.frames) + r.rest;
  }

  lemma {:induction false} ReadsDecode(stream: bytes, max: nat, r: Decoded)
    requires max <= SAFE_LIMIT
    requires Reads(stream, max, r)
    ensures Decode(stream, max) == r
    decreases |r.frames|
  {
    hide Peel, Ends, Frame;
    if r.frames == [] {
      assert stream == r.rest;
      PeelStops(stream, max, r.verdict);
    } else {
      var payload := r.frames[0];
      var tail := Frames(r.frames[1..]) + r.rest;
      assert stream == Frame(payload) + tail;
      assert payload in r.frames;
      PeelFrame(payload, tail, max);
      ReadsDecode(tail, max, Decoded(r.frames[1..], r.verdict, r.rest));
      assert [payload] + r.frames[1..] == r.frames;
    }
  }

  /** Decode finds exactly the reading of the stream, and there is only one. */
  lemma DecodeIsTheReading(stream: bytes, max: nat, r: Decoded)
    requires max <= SAFE_LIMIT
    ensures Decode(stream, max) == r <==> Reads(stream, max, r)
  {
    hide Peel, Ends, Frame;
    DecodeReads(stream, max);
    if Reads(stream, max, r) {
      ReadsDecode(stream, max, r);
    }
  }

  /** Copying past the readable bytes is possible exactly for limits above SAFE_LIMIT. */
  lemma OverrunIffLimitTooLarge(max: nat)
    requires max < U32_MODULUS
    ensures (exists stream: bytes :: Decode(stream, max).verdict == Overrun) <==> max > SAFE_LIMIT
  {
    if max <= SAFE_LIMIT {
      forall stream: bytes
        ensures Decode(stream, max).verdict != Overrun
      {
        DecodeReads(stream, max);
      }
    } else {
      var stream: bytes := [255, 255, 255, 252];
      ValueOfFour(255, 255, 255, 252);
      assert stream[..4] == stream;
      assert Decode(stream, max).verdict == Overrun;
    }
  }

  // ----- packet boundaries -----

  lemma PeelExtends(a: bytes, b: bytes, max: nat)
    ensures Peel(a, max).Take? ==> Peel(a + b, max) == Take(Peel(a, max).payload, Peel(a, max).tail + b)
    ensures Peel(a, max) == Stop(Bad) ==> Peel(a + b, max) == Stop(Bad)
  {
    if |a| >= 4 {
      var len := Value(a[..4]);
      assert (a + b)[..4] == a[..4];
      if |a| >= 4 + len {
        assert (a + b)[4..4 + len] == a[4..4 + len];
        assert (a + b)[4 + len..] == a[4 + len..] + b;
      }
    }
  }

  /** Decoding a prefix and then going on with what it left is decoding it all at once. */
  lemma {:induction false} DecodeSplit(a: bytes, b: bytes, max: nat)
    ensures var r := Decode(a, max);
            var t := Decode(r.rest + b, max);
            Decode(a + b, max) == Decoded(r.frames + t.frames, t.verdict, t.rest)
    decreases |a|
  {
    hide Peel;
    match Peel(a, max)
    case Stop(_) =>
      var t := Decode(a + b, max);
      assert [] + t.frames == t.frames;
    case Take(payload, tail) =>
      PeelExtends(a, b, max);
      DecodeSplit(tail, b, max);
      var r := Decode(tail, max);
      var t := Decode(r.rest + b, max);
      assert [payload] + (r.frames + t.frames) == [payload] + r.frames + t.frames;
  }

  /** Once the codec has said Bad, no later byte changes the frames or the verdict. */
  lemma {:induction false} BadIsSticky(a: bytes, b: bytes, max: nat)
    requires Decode(a, max).verdict == Bad
    ensures Decode(a + b, max) == Decoded(Decode(a, max).frames, Bad, Decode(a, max).rest + b)
    decreases |a|
  {
    hide Peel;
    PeelExtends(a, b, max);
    if Peel(a, max).Take? {
      BadIsSticky(Peel(a, max).tail, b, max);
    }
  }

  /** Calling decode after every arriving chunk, from the state the last call left. */
  function Feed(before: Decoded, chunks: seq<bytes>, max: nat): Decoded
    decreases |chunks|
  {
    if chunks == [] then
      before
    else
      var r := Decode(before.rest + chunks[0], max);
      Feed(Decoded(before.frames + r.frames, r.verdict, r.rest), chunks[1..], max)
  }

  const FRESH := Decoded([], Good, [])

  lemma {:induction false} FeedFrom(seen: bytes, chunks: seq<bytes>, max: nat)
    ensures Feed(Decode(seen, max), chunks, max) == Decode(seen + Flatten(chunks), max)
    decreases |chunks|
  {
    hide Peel;
    if chunks == [] {
      assert seen + [] == seen;
    } else {
      DecodeSplit(seen, chunks[0], max);
      FeedFrom(seen + chunks[0], chunks[1..], max);
      assert seen + chunks[0] + Flatten(chunks[1..]) == seen + Flatten(chunks);
    }
  }

  /** However the stream is cut into packets, the outcome is that of one call on all of it. */
  lemma BoundariesDoNotMatter(chunks: seq<bytes>, max: nat)
    ensures Feed(FRESH, chunks, max) == Decode(Flatten(chunks), max)
  {
    FeedFrom([], chunks, max);
    assert [] + Flatten(chunks) == Flatten(chunks);
  }

  /** The same, performed on a Buffer. */
  method ReceiveAll(chunks: seq<bytes>, max: nat) returns (frames: seq<bytes>, verdict: Verdict, input: Buffer)
    requires max < U32_MODULUS
    ensures input.Valid()
    ensures Decoded(frames, verdict, input.Readable()) == Decode(Flatten(chunks), max)
  {
    input := new Buffer();
    frames, verdict := [], Good;
    var i := 0;
    while i < |chunks|
      invariant 0 <= i <= |chunks|
      invariant input.Valid() && fresh(input) && fresh(input.data)
      invariant Feed(FRESH, chunks, max) == Feed(Decoded(frames, verdict, input.Readable()), chunks[i..], max)
    {
      input.Append(chunks[i]);
      assert chunks[i..][1..] == chunks[i + 1..];
      frames, verdict := DecodeBuffer(input, frames, max);
      i := i + 1;
    }
    BoundariesDoNotMatter(chunks, max);
  }

  // ----- round trips -----

  /** A list of payloads comes back whole, with nothing left, exactly when all are sendable. */
  lemma RoundTrip(payloads: seq<bytes>, max: nat)
    requires max <= SAFE_LIMIT
    ensures Decode(Frames(payloads), max) == Decoded(payloads, Good, []) <==> AllSendable(payloads, max)
  {
    hide Peel, Frame;
    assert Frames(payloads) + [] == Frames(payloads);
    DecodeIsTheReading(Frames(payloads), max, Decoded(payloads, Good, []));
  }

  /** A receiver that has only got part of the stream holds a prefix of the payloads. */
  lemma PrefixDecodesToPrefix(part: bytes, payloads: seq<bytes>, max: nat)
    requires max <= SAFE_LIMIT && AllSendable(payloads, max)
    requires part <= Frames(payloads)
    ensures Decode(part, max).verdict == Good
    ensures Decode(part, max).frames <= payloads
  {
    hide Peel, Frame;
    var missing := Frames(payloads)[|part|..];
    assert part + missing == Frames(payloads);
    RoundTrip(payloads, max);
    DecodeSplit(part, missing, max);
    DecodeReads(part, max);
    if Decode(part, max).verdict == Bad {
      BadIsSticky(part, missing, max);
    }
  }

  lemma {:induction false} FramesSplit(a: seq<bytes>, b: seq<bytes>)
    ensures Frames(a + b) == Frames(a) + Frames(b)
  {
    if a == [] {
      assert a + b == b;
    } else {
      assert (a + b)[1..] == a[1..] + b;
      FramesSplit(a[1..], b);
      assert Frame(a[0]) + (Frames(a[1..]) + Frames(b)) == Frames(a) + Frames(b);
    }
  }
}
