/**
 The log pipeline during the life of one connection, and after its end until the next one:
 log_sender/log_sender.cpp on top of the queue (util/mpsc_queue.h), the frame codec
 (util/length_prefixed_codec.h), the connection (src/connection.cpp) and the deferred functors
 of the loop (src/event_loop.cpp).  Producers run in between all loop steps; the loop thread
 ticks, drains, sends, flushes, and runs the queued callbacks in order.
 */
module LogPipeline {
  import opened Bytes
  import opened Framing
  import Connection
  import opened History
  import Log = LogProtocol

  // ----- the text of the loss report -----

  /** "[LOG_DROPPED] " and " messages lost". */
  const REPORT_HEAD: bytes := [91, 76, 79, 71, 95, 68, 82, 79, 80, 80, 69, 68, 93, 32]
  const REPORT_TAIL: bytes := [32, 109, 101, 115, 115, 97, 103, 101, 115, 32, 108, 111, 115, 116]

  function Decimal(n: nat): bytes {
    if n < 10 then [48 + n] else Decimal(n / 10) + [48 + n % 10]
  }

  function Pow10(k: nat): nat {
    if k == 0 then 1 else 10 * Pow10(k - 1)
  }

  lemma {:induction false} DecimalLength(n: nat, k: nat)
    requires k >= 1 && n < Pow10(k)
    ensures 1 <= |Decimal(n)| <= k
  {
    if n < 10 {
    } else {
      assert k >= 2 by { assert Pow10(1) == 10 * Pow10(0); }
      DecimalLength(n / 10, k - 1);
    }
  }

  /** What send_batch encodes for one entry of a batch. */
  function Payload(item: Log.Item<bytes>): bytes {
    match item
    case Message(m) => m
    case LossReport(n) => REPORT_HEAD + Decimal(n) + REPORT_TAIL
  }

  function Payloads(items: seq<Log.Item<bytes>>): (r: seq<bytes>)
    ensures |r| == |items| && forall i :: 0 <= i < |items| ==> r[i] == Payload(items[i])
  {
    seq(|items|, i requires 0 <= i < |items| => Payload(items[i]))
  }

  // ----- the machine -----

  /** Functors in the loop's queue: the two callbacks of the connection, and the tick that a
      push posts when it raised the flag. */
  datatype Functor = HighWater | WriteComplete | WakeTick

  datatype Mark = Crossed | Fell

  datatype State = State(
    log: Log.State<bytes>,
    c: Connection.Conn,
    mark: nat,                           // high_water_mark, 0 when there is no backpressure
    maxBatch: nat,
    paused: bool,
    functors: seq<Functor>,
    waking: set<Log.Thread>,             // pushes between a CAS that raised the flag and queue_in_loop
    toSend: seq<Log.Item<bytes>>,        // the rest of the batch send_batch is working on
    base: nat,                           // history: entries handed over before this connection
    ticks: nat,                          // tick timers set and not fired
    sent: seq<Log.Item<bytes>>,          // history: entries sent on this connection
    marks: seq<Mark>)                    // history: the backlog reaching and leaving the mark

  datatype Event =
    | Producer(e: Log.Event<bytes>)      // PushSection, PushRaise or PushCount
    | PostWake(t: Log.Thread)            // a push that raised the flag queues its functor
    | TickTimer                          // a tick timer fires
    | RunFunctor                         // the loop runs the oldest queued functor
    | Drain(e: Log.Event<bytes>)         // DrainRemove or DrainSettle inside do_drain_and_send
    | StartBatch                         // send_batch is called
    | SendNext(answers: seq<Connection.Answer>)
    | Writable(answers: seq<Connection.Answer>)
    | HangUp                             // end of file or an error closes the connection

  /** on_connection stores a new connection.  Functors queued earlier, also the callbacks of an
      earlier connection, may still be waiting. */
  function Established(s: State): State {
    s.(c := Connection.OPENED, paused := false, toSend := [], base := |s.log.handed|, sent := [], marks := [])
  }

  /** The first connection of a sender. */
  function First(cap: nat, mark: nat, maxBatch: nat): State {
    State(Log.Init(cap), Connection.OPENED, mark, maxBatch, false, [], {}, [], 0, 1, [], [])
  }

  /** A connection has just been stored; whatever came before, the queue protocol holds. */
  ghost predicate Begins(s: State) {
    Log.Inv(s.log) && s.log.drainer.Idle? && s == Established(s)
  }

  /** The loop thread is between two steps, not inside do_drain_and_send. */
  predicate AtRest(s: State) {
    s.log.drainer.Idle? && s.toSend == []
  }

  predicate Open(s: State) {
    s.c.phase == Connection.Connected
  }

  /** When a write breaks the connection inside a batch, the rest of the batch is left over and
      the loop thread has no further step: the code would call send through an empty pointer. */
  predicate Enabled(s: State, e: Event) {
    match e
    case Producer(p) =>
      (p.PushSection? || p.PushRaise? || p.PushCount?) && p.t !in s.waking && Log.Enabled(s.log, p)
    case PostWake(t) => t in s.waking
    case TickTimer => AtRest(s) && s.ticks > 0
    case RunFunctor => AtRest(s) && s.functors != []
    case Drain(d) =>
      && Open(s) && Log.Enabled(s.log, d)
      && (d.DrainSettle? || (d.DrainRemove? && d.max == s.maxBatch))
    case StartBatch => Open(s) && Log.Enabled(s.log, Log.HandOver) && s.toSend == []
    case SendNext(_) => Open(s) && s.toSend != []
    case Writable(_) => Open(s) && AtRest(s)
    case HangUp => Open(s) && AtRest(s)
  }

  /** on_tick: drains if there is a connection and it is not paused, and always sets the next
      timer. */
  function Ticked(s: State): State
    requires AtRest(s)
  {
    s.(log := if Open(s) && !s.paused then Log.Next(s.log, Log.TakeDropped) else s.log, ticks := s.ticks + 1)
  }

  function Remark(marks: seq<Mark>, mark: nat, before: nat, after: nat): seq<Mark> {
    if before < mark <= after then marks + [Crossed]
    else if after < mark <= before then marks + [Fell]
    else marks
  }

  /** What a step did to the connection; a close runs on_connection, which resumes. */
  function Became(s: State, c: Connection.Conn): State {
    s.(c := c, paused := s.paused && c.phase == Connection.Connected,
       marks := Remark(s.marks, s.mark, |s.c.out|, |c.out|))
  }

  function Next(s: State, e: Event): State
    requires Enabled(s, e)
  {
    match e
    case Producer(p) =>
      s.(log := Log.Next(s.log, p), waking := if p.PushRaise? && !s.log.q.pending then s.waking + {p.t} else s.waking)
    case PostWake(t) => s.(functors := s.functors + [WakeTick], waking := s.waking - {t})
    case TickTimer => Ticked(s.(ticks := s.ticks - 1))
    case RunFunctor =>
      var t := s.(functors := s.functors[1..]);
      (match s.functors[0]
       case HighWater => t.(paused := true)
       case WriteComplete => t.(paused := false)
       case WakeTick => Ticked(t))
    case Drain(d) => s.(log := Log.Next(s.log, d))
    case StartBatch => s.(log := Log.Next(s.log, Log.HandOver), toSend := s.log.drainer.batch)
    case SendNext(answers) =>
      var data := Frame(Payload(s.toSend[0]));
      Became(s, Connection.Sent(s.c, data, answers)).(
        toSend := s.toSend[1..], sent := s.sent + [s.toSend[0]],
        functors := if Connection.Crosses(s.c, data, answers, s.mark) then s.functors + [HighWater] else s.functors)
    case Writable(answers) =>
      Became(s, Connection.Flushed(s.c, answers)).(
        functors := if s.mark > 0 && Connection.Completes(s.c, answers) then s.functors + [WriteComplete] else s.functors)
    case HangUp => Became(s, Connection.Closed(s.c))
  }

  predicate CanRun(s: State, es: seq<Event>)
    decreases |es|
  {
    es == [] || (Enabled(s, es[0]) && CanRun(Next(s, es[0]), es[1..]))
  }

  function Exec(s: State, es: seq<Event>): State
    requires CanRun(s, es)
    decreases |es|
  {
    if es == [] then s else Exec(Next(s, es[0]), es[1..])
  }

  // ----- backpressure -----

  /** The value `paused_` will have once every queued functor has run. */
  function PausedAfter(paused: bool, functors: seq<Functor>): bool
    decreases |functors|
  {
    if functors == [] then paused
    else PausedAfter(if functors[0] == HighWater then true else if functors[0] == WriteComplete then false else paused,
                     functors[1..])
  }

  lemma {:induction false} PausedAfterSnoc(paused: bool, functors: seq<Functor>, f: Functor)
    ensures PausedAfter(paused, functors + [f]) ==
            if f == HighWater then true else if f == WriteComplete then false else PausedAfter(paused, functors)
    decreases |functors|
  {
    if functors == [] {
      assert functors + [f] == [f];
    } else {
      assert (functors + [f])[1..] == functors[1..] + [f];
      PausedAfterSnoc(if functors[0] == HighWater then true else if functors[0] == WriteComplete then false else paused,
                      functors[1..], f);
    }
  }

  /** If nothing queued resumes the sender, it is paused now or something queued pauses it. */
  lemma {:induction false} LastCallbackDecides(paused: bool, functors: seq<Functor>)
    ensures paused && WriteComplete !in functors ==> PausedAfter(paused, functors)
    ensures forall i :: 0 <= i < |functors| && functors[i] == HighWater && !PausedAfter(paused, functors) ==>
              exists j :: i < j < |functors| && functors[j] == WriteComplete
    decreases |functors|
  {
    if functors == [] {
    } else {
      var next := if functors[0] == HighWater then true else if functors[0] == WriteComplete then false else paused;
      var rest := functors[1..];
      LastCallbackDecides(next, rest);
      assert WriteComplete in rest ==> WriteComplete in functors;
      forall i | 0 <= i < |functors| && functors[i] == HighWater && !PausedAfter(paused, functors)
        ensures exists j :: i < j < |functors| && functors[j] == WriteComplete
      {
        if i == 0 {
          assert WriteComplete in rest;
          var j :| 0 <= j < |rest| && rest[j] == WriteComplete;
          assert functors[j + 1] == WriteComplete;
        } else {
          assert rest[i - 1] == HighWater;
          var j :| i - 1 < j < |rest| && rest[j] == WriteComplete;
          assert functors[j + 1] == WriteComplete;
        }
      }
    }
  }

  /** Some queued high-water notice has no resume behind it. */
  ghost predicate LeavesPaused(functors: seq<Functor>) {
    exists i :: 0 <= i < |functors| && functors[i] == HighWater && WriteComplete !in functors[i..]
  }

  lemma {:induction false} PausedAfterMeans(paused: bool, functors: seq<Functor>)
    ensures PausedAfter(paused, functors) <==>
            LeavesPaused(functors) || (paused && WriteComplete !in functors)
    decreases |functors|
  {
    if functors == [] {
    } else {
      var rest := functors[1..];
      var next := if functors[0] == HighWater then true else if functors[0] == WriteComplete then false else paused;
      PausedAfterMeans(next, rest);
      assert functors == [functors[0]] + rest;
      assert WriteComplete in functors <==> functors[0] == WriteComplete || WriteComplete in rest;
      assert forall i :: 0 < i < |functors| ==> functors[i..] == rest[i - 1..];
      assert functors[0..] == functors;
      if LeavesPaused(rest) {
        var i :| 0 <= i < |rest| && rest[i] == HighWater && WriteComplete !in rest[i..];
        assert functors[i + 1] == HighWater && functors[i + 1..] == rest[i..];
      }
      if LeavesPaused(functors) {
        var i :| 0 <= i < |functors| && functors[i] == HighWater && WriteComplete !in functors[i..];
        assert i == 0 || (rest[i - 1] == HighWater && functors[i..] == rest[i - 1..]);
      }
    }
  }

  /** With no backlog (or no mark at all) the queued callbacks of an open connection end in
      "not paused". */
  ghost predicate Resumes(s: State) {
    Open(s) && (s.c.out == [] || s.mark == 0) ==> !PausedAfter(s.paused, s.functors)
  }

  /** Between two high-water notices the backlog fell below the mark. */
  ghost predicate MarksAlternate(s: State) {
    Alternates(s.marks, Crossed, Fell, 0 < s.mark <= |s.c.out|)
  }

  /** Paused with nothing to flush and no resume on its way: nothing will ever wake it. */
  ghost predicate Wedged(s: State) {
    Open(s) && s.paused && s.c.out == [] && WriteComplete !in s.functors
  }

  lemma SendGrows(c: Connection.Conn, data: bytes, answers: seq<Connection.Answer>)
    ensures |Connection.Sent(c, data, answers).out| >= |c.out|
  {
    hide Connection.WriteLoop;
  }

  lemma FlushShrinks(c: Connection.Conn, answers: seq<Connection.Answer>)
    ensures Connection.Flushed(c, answers).out == [] ==> c.out == [] || Connection.Completes(c, answers)
    ensures |Connection.Flushed(c, answers).out| <= |c.out|
  {
    hide Connection.WriteLoop;
    var r := Connection.WriteLoop(c.out, answers);
    assert |r.taken + r.left| == |c.out|;
  }

  lemma ResumesStep(s: State, e: Event)
    requires Resumes(s) && Enabled(s, e)
    ensures Resumes(Next(s, e))
  {
    match e
    case PostWake(_) => PausedAfterSnoc(s.paused, s.functors, WakeTick);
    case SendNext(answers) =>
      PausedAfterSnoc(s.paused, s.functors, HighWater);
      SendGrows(s.c, Frame(Payload(s.toSend[0])), answers);
      hide Connection.Sent, PausedAfter;
    case Writable(answers) =>
      PausedAfterSnoc(s.paused, s.functors, WriteComplete);
      FlushShrinks(s.c, answers);
      hide Connection.Flushed, Connection.Completes, PausedAfter;
    case _ =>
  }

  lemma RemarkKeeps(marks: seq<Mark>, mark: nat, before: nat, after: nat)
    requires Alternates(marks, Crossed, Fell, 0 < mark <= before)
    ensures Alternates(Remark(marks, mark, before, after), Crossed, Fell, 0 < mark <= after)
  {
    if before < mark <= after {
      UpEdge(marks, Crossed, Fell);
    } else if after < mark <= before {
      DownEdge(marks, Crossed, Fell, true);
    }
  }

  lemma MarksStep(s: State, e: Event)
    requires MarksAlternate(s) && Enabled(s, e)
    ensures MarksAlternate(Next(s, e))
  {
    hide Alternates, Remark, Connection.Sent, Connection.Flushed;
    if e.SendNext? || e.Writable? || e.HangUp? {
      RemarkKeeps(s.marks, s.mark, |s.c.out|, |Next(s, e).c.out|);
    }
  }

  // ----- what is on the wire -----

  /** What send_batch was given on this connection is sent or about to be; what was sent is,
      frame by frame, what the kernel took followed by the backlog.  Of a lost connection the
      kernel took the first bytes of it. */
  ghost predicate OnTheWire(s: State) {
    && s.base <= |s.log.handed|
    && s.sent + s.toSend == s.log.handed[s.base..]
    && (Open(s) ==> s.c.taken + s.c.out == s.c.accepted == Frames(Payloads(s.sent)))
    && (Open(s) ==> (s.c.writing <==> s.c.out != []))
    && s.c.taken <= Frames(Payloads(s.sent))
  }

  lemma SendOne(c: Connection.Conn, sent: seq<Log.Item<bytes>>, item: Log.Item<bytes>, answers: seq<Connection.Answer>)
    requires c.phase == Connection.Connected && Connection.ByteExact(c) && c.accepted == Frames(Payloads(sent))
    ensures var d := Connection.Sent(c, Frame(Payload(item)), answers);
            && (d.phase == Connection.Connected ==>
                  Connection.ByteExact(d) && d.accepted == Frames(Payloads(sent + [item])))
            && d.taken <= Frames(Payloads(sent + [item]))
  {
    var data := Frame(Payload(item));
    assert |data| >= 4;
    Connection.SentExact(c, data, answers);
    assert Payloads(sent + [item]) == Payloads(sent) + [Payload(item)];
    FramesSplit(Payloads(sent), [Payload(item)]);
    assert Frames([Payload(item)]) == data + Frames([]);
    assert data + [] == data;
    SendTakes(c, data, answers);
    hide Connection.WriteLoop, Frame, Frames, Payloads;
    assert c.taken <= c.accepted;
    assert c.accepted <= c.accepted + data;
  }

  /** Whatever becomes of a send, what the kernel has taken after it begins what it should take. */
  lemma SendTakes(c: Connection.Conn, data: bytes, answers: seq<Connection.Answer>)
    requires c.phase == Connection.Connected && Connection.ByteExact(c)
    ensures Connection.Sent(c, data, answers).taken <= c.accepted + data
  {
    hide Connection.WriteLoop;
    var r := Connection.WriteLoop(data, answers);
    assert c.accepted == c.taken + c.out;
    if c.out == [] {
      assert c.taken + c.out == c.taken;
      assert c.taken + (r.taken + r.left) == c.taken + r.taken + r.left;
    } else {
      assert c.taken + c.out + data == c.taken + (c.out + data);
    }
  }

  lemma FlushTakes(c: Connection.Conn, answers: seq<Connection.Answer>)
    ensures Connection.Flushed(c, answers).taken <= c.taken + c.out
  {
    hide Connection.WriteLoop;
    var r := Connection.WriteLoop(c.out, answers);
    assert c.taken + (r.taken + r.left) == c.taken + r.taken + r.left;
  }

  lemma WireSend(s: State, answers: seq<Connection.Answer>)
    requires OnTheWire(s) && Enabled(s, SendNext(answers))
    ensures OnTheWire(Next(s, SendNext(answers)))
  {
    hide Connection.Sent, Connection.Crosses, Frame, Frames, Payload, Payloads, Remark;
    SendOne(s.c, s.sent, s.toSend[0], answers);
    assert s.sent + [s.toSend[0]] + s.toSend[1..] == s.sent + s.toSend;
  }

  lemma WireFlush(s: State, answers: seq<Connection.Answer>)
    requires OnTheWire(s) && Enabled(s, Writable(answers))
    ensures OnTheWire(Next(s, Writable(answers)))
  {
    Connection.FlushedExact(s.c, answers);
    FlushKeepsAccepted(s.c, answers);
    FlushTakes(s.c, answers);
    hide Connection.Flushed, Connection.Completes, Frames, Payloads, Remark;
  }

  lemma WireBatch(s: State)
    requires OnTheWire(s) && Enabled(s, StartBatch)
    ensures OnTheWire(Next(s, StartBatch))
  {
    hide Frames, Payloads;
    var batch := s.log.drainer.batch;
    assert (s.log.handed + batch)[s.base..] == s.log.handed[s.base..] + batch;
    assert s.sent + [] == s.sent;
  }

  lemma OnlyHandOverHands(l: Log.State<bytes>, e: Log.Event<bytes>)
    requires Log.Enabled(l, e) && !e.HandOver?
    ensures Log.Next(l, e).handed == l.handed
  {
  }

  lemma WireStep(s: State, e: Event)
    requires OnTheWire(s) && Enabled(s, e)
    ensures OnTheWire(Next(s, e))
  {
    hide Log.Next, Frames, Payloads;
    match e
    case SendNext(answers) => WireSend(s, answers);
    case Writable(answers) => WireFlush(s, answers);
    case StartBatch => WireBatch(s);
    case Producer(p) => OnlyHandOverHands(s.log, p);
    case Drain(d) => OnlyHandOverHands(s.log, d);
    case TickTimer => OnlyHandOverHands(s.log, Log.TakeDropped);
    case RunFunctor => OnlyHandOverHands(s.log, Log.TakeDropped);
    case PostWake(_) =>
    case HangUp =>
  }

  lemma FlushKeepsAccepted(c: Connection.Conn, answers: seq<Connection.Answer>)
    ensures Connection.Flushed(c, answers).accepted == c.accepted
    ensures Connection.Flushed(c, answers).phase in {c.phase, Connection.Disconnected}
  {
    hide Connection.WriteLoop;
  }

  // ----- all together -----

  ghost predicate Inv(s: State) {
    Log.Inv(s.log) && Resumes(s) && MarksAlternate(s) && OnTheWire(s)
  }

  lemma LogStep(s: State, e: Event)
    requires Log.Inv(s.log) && Enabled(s, e)
    ensures Log.Inv(Next(s, e).log)
  {
    hide Log.Inv, Log.Next, Connection.Sent, Connection.Flushed;
    match e
    case Producer(p) => Log.Preserved(s.log, p);
    case Drain(d) => Log.Preserved(s.log, d);
    case StartBatch => Log.Preserved(s.log, Log.HandOver);
    case TickTimer => Log.Preserved(s.log, Log.TakeDropped);
    case RunFunctor => Log.Preserved(s.log, Log.TakeDropped);
    case _ =>
  }

  lemma {:induction false} RunFrom(s: State, es: seq<Event>)
    requires Inv(s) && CanRun(s, es)
    ensures Inv(Exec(s, es))
    decreases |es|
  {
    if es == [] {
    } else {
      hide Resumes, MarksAlternate, OnTheWire, Log.Inv, Next, Enabled;
      LogStep(s, es[0]);
      ResumesStep(s, es[0]);
      MarksStep(s, es[0]);
      WireStep(s, es[0]);
      RunFrom(Next(s, es[0]), es[1..]);
    }
  }

  /** The queue and the byte stream do not depend on backpressure. */
  lemma {:induction false} WireRun(s: State, es: seq<Event>)
    requires Log.Inv(s.log) && OnTheWire(s) && CanRun(s, es)
    ensures Log.Inv(Exec(s, es).log) && OnTheWire(Exec(s, es))
    decreases |es|
  {
    if es == [] {
    } else {
      hide OnTheWire, Log.Inv, Next, Enabled;
      LogStep(s, es[0]);
      WireStep(s, es[0]);
      WireRun(Next(s, es[0]), es[1..]);
    }
  }

  lemma BeginsOnTheWire(s: State)
    requires Begins(s)
    ensures OnTheWire(s) && MarksAlternate(s)
    ensures Resumes(s) <==> !PausedAfter(false, s.functors)
  {
    hide Log.Inv;
    assert s.log.handed[s.base..] == [];
    assert Payloads([]) == [];
  }
}
