/**
 The log pipeline of LogPipeline.dfy end to end: from the accepted pushes to the frames that a
 receiver decodes.
 */
module LogDelivery {
  import opened Bytes
  import opened Framing
  import opened LogPipeline
  import Log = LogProtocol

  const U64_MODULUS := 0x1_0000_0000_0000_0000

  ghost predicate SendableItem(item: Log.Item<bytes>, max: nat) {
    match item
    case Message(m) => Sendable(m, max)
    case LossReport(n) => n < U64_MODULUS
  }

  lemma ItemPayload(item: Log.Item<bytes>, max: nat)
    requires SendableItem(item, max) && max >= 48
    ensures Sendable(Payload(item), max)
  {
    if item.LossReport? {
      TwentyDigits();
      DecimalLength(item.n, 20);
    }
  }

  lemma TwentyDigits()
    ensures U64_MODULUS < Pow10(20)
  {
    assert Pow10(5) == 100_000 by { assert Pow10(2) == 100; assert Pow10(4) == 10_000; }
    assert Pow10(7) == 10_000_000;
    assert Pow10(9) == 1_000_000_000;
    assert Pow10(11) == 100_000_000_000;
    assert Pow10(13) == 10_000_000_000_000;
    assert Pow10(15) == 1_000_000_000_000_000;
    assert Pow10(17) == 100_000_000_000_000_000;
    assert Pow10(19) == 10_000_000_000_000_000_000;
  }

  /** Every accepted push fits a frame, and the count of refused ones fits 64 bits. */
  ghost predicate WithinLimits(l: Log.State<bytes>, max: nat) {
    (forall m :: m in l.accepted ==> Sendable(m, max)) && l.failed < U64_MODULUS
  }

  lemma {:induction false} ItemsOf(items: seq<Log.Item<bytes>>, item: Log.Item<bytes>)
    requires item in items
    ensures item.Message? ==> item.value in Log.Values(items)
    ensures item.LossReport? ==> item.n <= Log.Losses(items)
  {
    if item == items[0] {
    } else {
      ItemsOf(items[1..], item);
    }
  }

  lemma HandedIsAccepted(l: Log.State<bytes>, item: Log.Item<bytes>)
    requires Log.Inv(l) && item in l.handed
    ensures item.Message? ==> item.value in l.accepted
    ensures item.LossReport? ==> item.n <= l.failed
  {
    hide Log.EdgesAlternate, Log.Values, Log.Losses;
    ItemsOf(l.handed, item);
    assert forall v :: v in Log.Values(l.handed) ==> v in Log.Values(l.handed) + Log.Values(Log.Batch(l.drainer)) + l.q.items;
  }

  lemma SentIsSendable(s: State, max: nat)
    requires Log.Inv(s.log) && OnTheWire(s) && WithinLimits(s.log, max) && max >= 48
    ensures AllSendable(Payloads(s.sent), max)
  {
    hide Log.Inv, Payload, Frames, Sendable;
    var ps := Payloads(s.sent);
    forall p | p in ps
      ensures Sendable(p, max)
    {
      var i :| 0 <= i < |ps| && ps[i] == p;
      var item := s.sent[i];
      assert s.log.handed[s.base + i] == (s.sent + s.toSend)[i] == item;
      HandedIsAccepted(s.log, item);
      ItemPayload(item, max);
    }
  }

  /** A receiver that got the start of the kernel's bytes, in whatever packets, also when the
      connection has been lost since. */
  lemma Received(s: State, chunks: seq<bytes>, max: nat)
    requires Log.Inv(s.log) && OnTheWire(s) && WithinLimits(s.log, max) && 48 <= max <= SAFE_LIMIT
    requires Flatten(chunks) <= s.c.taken
    ensures var got := Feed(FRESH, chunks, max);
            && got.verdict == Good
            && got.frames <= Payloads(s.sent)
            && (Open(s) && s.c.out == [] && Flatten(chunks) == s.c.taken ==>
                  got.frames == Payloads(s.sent) && got.rest == [])
  {
    SentIsSendable(s, max);
    hide Log.Inv, Frame, Frames, Peel, Feed, Decode, Payloads, Flatten;
    var ps := Payloads(s.sent);
    var stream := Flatten(chunks);
    BoundariesDoNotMatter(chunks, max);
    PrefixDecodesToPrefix(stream, ps, max);
    RoundTrip(ps, max);
    if Open(s) && s.c.out == [] && stream == s.c.taken {
      assert stream + [] == stream == Frames(ps);
    }
  }

  /** End to end, over every run: what the receiver decodes is, without error and in order,
      the first of the payloads sent on this connection, and all of them once it has read
      everything and the backlog is empty; and the messages among those, after the ones
      handed over before this connection, are the first accepted pushes in lock order. */
  lemma EndToEnd(s0: State, es: seq<Event>, chunks: seq<bytes>, max: nat)
    requires Begins(s0) && 48 <= max <= SAFE_LIMIT && CanRun(s0, es)
    requires var s := Exec(s0, es);
             WithinLimits(s.log, max) && Flatten(chunks) <= s.c.taken
    ensures var s := Exec(s0, es);
            var got := Feed(FRESH, chunks, max);
            && got.verdict == Good
            && got.frames <= Payloads(s.sent)
            && (Open(s) && s.c.out == [] && Flatten(chunks) == s.c.taken ==>
                  got.frames == Payloads(s.sent) && got.rest == [])
            && s.base <= |s.log.handed|
            && Log.Values(s.log.handed[..s.base]) + Log.Values(s.sent) <= s.log.accepted
  {
    hide Log.Inv, CanRun, Exec, Next, Enabled, Feed, WithinLimits, Log.Values;
    BeginsOnTheWire(s0);
    WireRun(s0, es);
    var s := Exec(s0, es);
    Received(s, chunks, max);
    SentInPushOrder(s);
  }

  lemma SentInPushOrder(s: State)
    requires Log.Inv(s.log) && OnTheWire(s)
    ensures Log.Values(s.log.handed[..s.base]) + Log.Values(s.sent) <= s.log.accepted
  {
    hide Log.Values, Frames, Payloads;
    var before := s.log.handed[..s.base];
    assert s.log.handed == before + (s.sent + s.toSend);
    Log.ValuesSplit(before, s.sent + s.toSend);
    Log.ValuesSplit(s.sent, s.toSend);
    var tail := Log.Values(s.toSend) + Log.Values(Log.Batch(s.log.drainer)) + s.log.q.items;
    assert s.log.accepted == Log.Values(before) + Log.Values(s.sent) + tail;
  }

  // ----- the loss report says how many -----

  function DecimalValue(digits: bytes): int {
    if digits == [] then 0 else DecimalValue(digits[..|digits| - 1]) * 10 + digits[|digits| - 1] - 48
  }

  lemma {:induction false} DecimalReads(n: nat)
    ensures DecimalValue(Decimal(n)) == n
    ensures forall i :: 0 <= i < |Decimal(n)| ==> 48 <= Decimal(n)[i] <= 57
    decreases n
  {
    if n < 10 {
      assert Decimal(n)[..0] == [];
    } else {
      DecimalReads(n / 10);
      assert Decimal(n)[..|Decimal(n)| - 1] == Decimal(n / 10);
    }
  }

  /** The number of losses can be read off the report: digits between the fixed words. */
  lemma ReportSaysHowMany(n: nat)
    ensures var p := Payload(Log.LossReport(n));
            && |p| > |REPORT_HEAD| + |REPORT_TAIL|
            && p[..|REPORT_HEAD|] == REPORT_HEAD && p[|p| - |REPORT_TAIL|..] == REPORT_TAIL
            && DecimalValue(p[|REPORT_HEAD|..|p| - |REPORT_TAIL|]) == n
  {
    DecimalReads(n);
    var p := Payload(Log.LossReport(n));
    assert |Decimal(n)| >= 1;
    assert p[|REPORT_HEAD|..|p| - |REPORT_TAIL|] == Decimal(n);
    assert p[|p| - |REPORT_TAIL|..] == REPORT_TAIL;
  }
}
